/**
 * The booking endpoints (backend/src/controllers/booking.js): the create pipeline's guard
 * chain and derived fields, the update and cancel lifecycle rules, the owner-or-admin read
 * check, and the per-parlour listing of bookings that still hold their slot.
 */
module BookingController {
  import opened Wrappers
  import opened TimeOfDay
  import opened BookingSchema
  import opened DeviceSchema
  import opened ParlourSchema
  import Sequences

  /** The authenticated requester: `req.user.id` and whether `req.user.role` is 'admin'. */
  datatype Actor = Actor(id: string, isAdmin: bool)

  // ================================================================ create

  /** The request body of `POST /api/bookings` as the client sends it. */
  datatype CreateRequest = CreateRequest(
    user: Option<string>,
    parlour: string,
    device: string,
    consoleUnit: string,
    date: int,
    startTime: string,
    endTime: string,
    status: Option<string>,
    paymentStatus: Option<string>,
    specialRequests: Option<string>,
    createdAt: Option<int>)

  datatype CreateError =
    | ParlourNotFound
    | DeviceNotFound
    | UnitNotFound
    | UnitNotAvailable(unitStatus: UnitStatus)
    | DateInPast
    | SlotTaken
    | EndNotAfterStart
    /** An unparsable time makes `duration` NaN; `NaN <= 0` is false, so the guard lets it
        through and the schema's number cast refuses the document. */
    | DurationNotANumber
    | Invalid(violations: seq<BookingSchema.Violation>)

  /** The HTTP status the controller answers with; the schema's refusals go to the error handler. */
  function CreateErrorStatus(e: CreateError): Option<nat>
  {
    match e
    case ParlourNotFound => Some(404)
    case DeviceNotFound => Some(404)
    case DurationNotANumber => None
    case Invalid(_) => None
    case _ => Some(400)
  }

  function FindParlour(ps: seq<Parlour>, id: string): (r: Option<Parlour>)
    ensures r.Some? ==> r.value in ps && r.value.id == id
    ensures r.None? <==> forall j :: 0 <= j < |ps| ==> ps[j].id != id
  {
    match Sequences.FindIndex(ps, (p: Parlour) => p.id == id)
    case None => None
    case Some(i) => Some(ps[i])
  }

  function FindDevice(ds: seq<Device>, id: string): (r: Option<Device>)
    ensures r.Some? ==> r.value in ds && r.value.id == id
    ensures r.None? <==> forall j :: 0 <= j < |ds| ==> ds[j].id != id
  {
    match Sequences.FindIndex(ds, (d: Device) => d.id == id)
    case None => None
    case Some(i) => Some(ds[i])
  }

  /** `device.consoleUnits.find(unit => unit.consoleId === id)`: the first unit with exactly that id. */
  function FindUnit(units: seq<ConsoleUnit>, id: string): (r: Option<ConsoleUnit>)
    ensures r.Some? ==> r.value.consoleId == id
    ensures r.Some? ==> exists i :: 0 <= i < |units| && units[i] == r.value && forall j :: 0 <= j < i ==> units[j].consoleId != id
    ensures r.None? <==> forall j :: 0 <= j < |units| ==> units[j].consoleId != id
  {
    match Sequences.FindIndex(units, (u: ConsoleUnit) => u.consoleId == id)
    case None => None
    case Some(i) => Some(units[i])
  }

  /**
   * One existing booking matching the overlap query: same device, unit and date, not
   * cancelled, and `startTime < req.endTime`, `endTime > req.startTime` as strings.
   */
  predicate Blocks(b: Booking, r: CreateRequest)
  {
    && Active(b)
    && b.device == r.device && b.consoleUnit == r.consoleUnit && b.date == r.date
    && LexLess(b.startTime, r.endTime) && LexLess(r.startTime, b.endTime)
  }

  /** `Booking.findOne(...)` of the overlap query returned a document. */
  predicate HasConflict(bs: seq<Booking>, r: CreateRequest)
  {
    exists i :: 0 <= i < |bs| && Blocks(bs[i], r)
  }

  /** What the guard chain hands on: the entities it found and the derived fields it writes. */
  datatype Priced = Priced(parlour: Parlour, device: Device, duration: real, totalPrice: real)

  /** A booking's length in hours, from minutes since midnight. */
  function Hours(startMin: nat, endMin: nat): real
  {
    (endMin as real - startMin as real) / 60.0
  }

  /** Both times parse and the end is later than the start. */
  predicate TimesInOrder(r: CreateRequest)
  {
    ParseTime(r.startTime).Some? && ParseTime(r.endTime).Some? && Minutes(r.startTime) < Minutes(r.endTime)
  }

  lemma HoursPositive(s: nat, e: nat)
    ensures Hours(s, e) > 0.0 <==> s < e
  {
  }

  /**
   * The last two guards: both times must give a number of minutes, and the duration
   * `(end - start) / 3600000` ms in hours must be positive; the price is `duration * parlour.price`.
   */
  function PriceRequest(r: CreateRequest, p: Parlour, d: Device): (res: Result<Priced, CreateError>)
    ensures res.Ok? <==> TimesInOrder(r)
    ensures res.Ok? ==> res.value.parlour == p && res.value.device == d
    ensures res.Ok? ==> res.value.duration == Hours(Minutes(r.startTime), Minutes(r.endTime)) > 0.0
    ensures res.Ok? ==> res.value.totalPrice == Cost(res.value.duration, p.price)
    ensures res.Err? && ParseTime(r.startTime).Some? && ParseTime(r.endTime).Some? ==> res.error == EndNotAfterStart
    ensures res.Err? && (ParseTime(r.startTime).None? || ParseTime(r.endTime).None?) ==> res.error == DurationNotANumber
  {
    if ParseTime(r.startTime).Some? && ParseTime(r.endTime).Some? then
      var duration := Hours(Minutes(r.startTime), Minutes(r.endTime));
      HoursPositive(Minutes(r.startTime), Minutes(r.endTime));
      if duration <= 0.0 then Err(EndNotAfterStart)
      else Ok(Priced(p, d, duration, Cost(duration, p.price)))
    else Err(DurationNotANumber)
  }

  /** Every guard before the conflict query passes: parlour, device and an available unit are found, and the day has not started. */
  predicate LookupsAndDatePass(r: CreateRequest, parlours: seq<Parlour>, devices: seq<Device>, now: int)
  {
    && FindParlour(parlours, r.parlour).Some?
    && FindDevice(devices, r.device).Some?
    && FindUnit(FindDevice(devices, r.device).value.consoleUnits, r.consoleUnit).Some?
    && FindUnit(FindDevice(devices, r.device).value.consoleUnits, r.consoleUnit).value.status == Available
    && now <= DayStart(r.date)
  }

  /** The guard chain of `createBooking`, checked in the source's order, first failure wins. */
  function CheckRequest(r: CreateRequest, parlours: seq<Parlour>, devices: seq<Device>,
                        bookings: seq<Booking>, now: int): (res: Result<Priced, CreateError>)
    ensures res.Ok? ==> res.value.parlour.id == r.parlour && res.value.device.id == r.device
    ensures res.Ok? ==> res == PriceRequest(r, res.value.parlour, res.value.device)
    ensures res.Ok? ==> !HasConflict(bookings, r) && now <= DayStart(r.date)
    ensures res.Ok? ==> FindUnit(res.value.device.consoleUnits, r.consoleUnit).Some?
                        && FindUnit(res.value.device.consoleUnits, r.consoleUnit).value.status == Available
    ensures res == Err(ParlourNotFound) <==> FindParlour(parlours, r.parlour).None?
    ensures res == Err(DeviceNotFound) <==> FindParlour(parlours, r.parlour).Some? && FindDevice(devices, r.device).None?
    ensures res == Err(DateInPast) ==> DayStart(r.date) < now
    ensures res == Err(SlotTaken) ==> HasConflict(bookings, r)
    ensures LookupsAndDatePass(r, parlours, devices, now) ==> (res == Err(SlotTaken) <==> HasConflict(bookings, r))
    ensures LookupsAndDatePass(r, parlours, devices, now) && !HasConflict(bookings, r) ==>
              res == PriceRequest(r, FindParlour(parlours, r.parlour).value, FindDevice(devices, r.device).value)
    ensures res.Ok? <==> LookupsAndDatePass(r, parlours, devices, now) && !HasConflict(bookings, r) && TimesInOrder(r)
  {
    match FindParlour(parlours, r.parlour)
    case None => Err(ParlourNotFound)
    case Some(p) =>
      match FindDevice(devices, r.device)
      case None => Err(DeviceNotFound)
      case Some(d) =>
        match FindUnit(d.consoleUnits, r.consoleUnit)
        case None => Err(UnitNotFound)
        case Some(u) =>
          if u.status != Available then Err(UnitNotAvailable(u.status))
          else if DayStart(r.date) < now then Err(DateInPast)
          else if HasConflict(bookings, r) then Err(SlotTaken)
          else PriceRequest(r, p, d)
  }

  /** `req.body` when it reaches `Booking.create`: the requester as user, and the derived fields. */
  function BodyOf(r: CreateRequest, requester: Actor, pr: Priced): BookingDraft
  {
    BookingDraft(Some(requester.id), Some(r.parlour), Some(r.device), Some(r.consoleUnit), Some(r.date),
                 Some(r.startTime), Some(r.endTime), Some(pr.duration), Some(pr.totalPrice),
                 r.status, r.paymentStatus, r.specialRequests, r.createdAt)
  }

  /** `createBooking`: the guard chain, then `Booking.create` on the completed body. */
  method CreateBooking(store: BookingCollection, r: CreateRequest, requester: Actor,
                       parlours: seq<Parlour>, devices: seq<Device>, now: int, newId: string)
    returns (res: Result<Booking, CreateError>)
    modifies store
    ensures var c := CheckRequest(r, parlours, devices, old(store.docs), now);
      && (c.Err? ==> res == Err(c.error) && store.docs == old(store.docs))
      && (c.Ok? && !BookingSchema.Conforms(BodyOf(r, requester, c.value)) ==>
            res == Err(Invalid(BookingSchema.Violations(BodyOf(r, requester, c.value)))) && store.docs == old(store.docs))
      && (c.Ok? && BookingSchema.Conforms(BodyOf(r, requester, c.value)) ==>
            && res.Ok?
            && res.value == FromDraft(newId, now, BodyOf(r, requester, c.value)).(totalPrice := Cost(c.value.duration, c.value.device.pricePerHour))
            && store.docs == old(store.docs) + [res.value])
    ensures res.Ok? ==> res.value.user == requester.id && res.value.id == newId
    ensures res.Ok? && r.createdAt.None? ==> res.value.createdAt == now
    ensures res.Ok? && r.createdAt.Some? ==> res.value.createdAt == r.createdAt.value
    ensures NoDoubleBooking(old(store.docs)) ==> NoDoubleBooking(store.docs)
  {
    var c := CheckRequest(r, parlours, devices, store.docs, now);
    if c.Err? {
      return Err(c.error);
    }
    ghost var before := store.docs;
    var body := BodyOf(r, requester, c.value);
    var created := store.Create(newId, now, body, c.value.device.pricePerHour);
    if created.Err? {
      return Err(Invalid(created.error));
    }
    if NoDoubleBooking(before) {
      AcceptedRequestKeepsNoDoubleBooking(r, parlours, devices, before, now, created.value);
    }
    return Ok(created.value);
  }

  // ================================================================ properties of the guard chain

  /** The string comparisons of the overlap query are interval overlap on zero-padded "HH:MM" times. */
  lemma BlocksIsOverlap(b: Booking, r: CreateRequest)
    requires ParseTime(b.startTime).Some? && ParseTime(b.endTime).Some?
    requires ParseTime(r.startTime).Some? && ParseTime(r.endTime).Some?
    ensures Blocks(b, r) <==>
      && Active(b)
      && b.device == r.device && b.consoleUnit == r.consoleUnit && b.date == r.date
      && Minutes(b.startTime) < Minutes(r.endTime) && Minutes(r.startTime) < Minutes(b.endTime)
  {
    LexOrderIsTimeOrder(b.startTime, r.endTime);
    LexOrderIsTimeOrder(r.startTime, b.endTime);
  }

  /** A booking ending exactly when the request starts (or starting when it ends) never blocks it. */
  lemma BackToBackNeverBlocks(b: Booking, r: CreateRequest)
    requires b.endTime == r.startTime || b.startTime == r.endTime
    ensures !Blocks(b, r)
  {
    LexLessIrreflexive(r.startTime);
    LexLessIrreflexive(r.endTime);
  }

  /** A cancelled booking never holds its slot: adding one to the collection changes no conflict. */
  lemma {:induction false} CancelledNeverBlocks(bs: seq<Booking>, c: Booking, r: CreateRequest)
    requires c.status == Cancelled
    ensures !Blocks(c, r)
    ensures HasConflict(bs + [c], r) <==> HasConflict(bs, r)
  {
    if HasConflict(bs + [c], r) {
      var i :| 0 <= i < |bs + [c]| && Blocks((bs + [c])[i], r);
      assert i < |bs| && (bs + [c])[i] == bs[i];
    }
    if HasConflict(bs, r) {
      var i :| 0 <= i < |bs| && Blocks(bs[i], r);
      assert (bs + [c])[i] == bs[i];
    }
  }

  /** The lookups of the chain, answered before any check of the date or the times. */
  predicate LookupError(e: CreateError)
  {
    e.ParlourNotFound? || e.DeviceNotFound? || e.UnitNotFound? || e.UnitNotAvailable?
  }

  /** A unit id that the found device does not carry is refused, whatever the rest of the request says. */
  lemma UnknownUnitRejected(r: CreateRequest, parlours: seq<Parlour>, devices: seq<Device>,
                            bs: seq<Booking>, now: int, d: Device)
    requires FindParlour(parlours, r.parlour).Some?
    requires FindDevice(devices, r.device) == Some(d)
    requires forall j :: 0 <= j < |d.consoleUnits| ==> d.consoleUnits[j].consoleId != r.consoleUnit
    ensures CheckRequest(r, parlours, devices, bs, now) == Err(UnitNotFound)
  {
  }

  /** A unit that is not 'available' is refused whatever the date, the times and the other bookings. */
  lemma UnitStatusCheckedFirst(r: CreateRequest, parlours: seq<Parlour>, devices: seq<Device>,
                               bs: seq<Booking>, now: int, d: Device, u: ConsoleUnit)
    requires FindParlour(parlours, r.parlour).Some?
    requires FindDevice(devices, r.device) == Some(d)
    requires FindUnit(d.consoleUnits, r.consoleUnit) == Some(u) && u.status != Available
    ensures CheckRequest(r, parlours, devices, bs, now) == Err(UnitNotAvailable(u.status))
  {
  }

  /**
   * The date check compares the start of the booking's day with the current instant, so
   * any date whose midnight has passed is refused, today included.
   */
  lemma StartedDayRejected(r: CreateRequest, parlours: seq<Parlour>, devices: seq<Device>,
                           bs: seq<Booking>, now: int)
    requires DayStart(r.date) < now
    ensures CheckRequest(r, parlours, devices, bs, now).Err?
    ensures LookupError(CheckRequest(r, parlours, devices, bs, now).error)
            || CheckRequest(r, parlours, devices, bs, now).error == DateInPast
  {
  }

  /** A conflicting request is refused as a conflict even when its own times are reversed or unparsable. */
  lemma ConflictPrecedesTimeChecks(r: CreateRequest, parlours: seq<Parlour>, devices: seq<Device>,
                                   bs: seq<Booking>, now: int)
    requires HasConflict(bs, r)
    ensures CheckRequest(r, parlours, devices, bs, now).Err?
    ensures CheckRequest(r, parlours, devices, bs, now).error != EndNotAfterStart
    ensures CheckRequest(r, parlours, devices, bs, now).error != DurationNotANumber
  {
  }

  /** The stored price (device rate) equals the controller's quote (parlour rate) exactly when the two rates agree. */
  lemma StoredPriceMatchesQuoteIff(hours: real, parlourRate: real, deviceRate: real)
    requires hours > 0.0
    ensures Cost(hours, parlourRate) == Cost(hours, deviceRate) <==> parlourRate == deviceRate
  {
    if Cost(hours, parlourRate) == Cost(hours, deviceRate) {
      assert hours * (parlourRate - deviceRate) == 0.0;
    }
  }

  /** A status named in the request body survives into the stored booking. */
  lemma CreateKeepsRequestedStatus(id: string, now: int, body: BookingDraft)
    requires Conforms(body) && body.status == Some("confirmed")
    ensures FromDraft(id, now, body).status == Confirmed
  {
    StatusRoundTrip(FromDraft(id, now, body).status);
  }

  /** The chain never checks that the device belongs to the requested parlour. */
  lemma DeviceParlourNotChecked()
    ensures
      var p := Parlour("p1", "Arena", "", "Town", 5.0, 0.0, 0, [], "o1");
      var d := Device("d1", "p2", PlayStation5, [ConsoleUnit("u1", Available)], 8.0);
      var r := CreateRequest(None, "p1", "d1", "u1", 3, "10:00", "11:00", None, None, None, None);
      && d.parlour != r.parlour
      && CheckRequest(r, [p], [d], [], 0).Ok?
  {
    var p := Parlour("p1", "Arena", "", "Town", 5.0, 0.0, 0, [], "o1");
    var d := Device("d1", "p2", PlayStation5, [ConsoleUnit("u1", Available)], 8.0);
    var r := CreateRequest(None, "p1", "d1", "u1", 3, "10:00", "11:00", None, None, None, None);
    assert FindParlour([p], "p1") == Some(p);
    assert FindDevice([d], "d1") == Some(d);
    assert d.consoleUnits[0].consoleId == "u1";
    assert FindUnit(d.consoleUnits, "u1") == Some(ConsoleUnit("u1", Available));
    assert !HasConflict([], r);
    assert ParseTime("10:00") == Some(600);
    assert ParseTime("11:00") == Some(660);
  }

  // ================================================================ the no-double-booking invariant

  /** Minutes since midnight of a stored time text (0 when it does not parse). */
  function Minutes(s: string): nat
  {
    match ParseTime(s)
    case Some(m) => m
    case None => 0
  }

  predicate WellTimed(b: Booking)
  {
    ParseTime(b.startTime).Some? && ParseTime(b.endTime).Some? && Minutes(b.startTime) < Minutes(b.endTime)
  }

  predicate SameUnitAndDay(a: Booking, b: Booking)
  {
    a.device == b.device && a.consoleUnit == b.consoleUnit && a.date == b.date
  }

  /** Half-open interval overlap of the two bookings' times. */
  predicate Overlap(a: Booking, b: Booking)
  {
    Minutes(a.startTime) < Minutes(b.endTime) && Minutes(b.startTime) < Minutes(a.endTime)
  }

  /** No console unit is held twice at the same time on the same day by bookings that still hold their slot. */
  ghost predicate NoDoubleBooking(bs: seq<Booking>)
  {
    && (forall i :: 0 <= i < |bs| && Active(bs[i]) ==> WellTimed(bs[i]))
    && (forall i, j :: 0 <= i < j < |bs| && Active(bs[i]) && Active(bs[j]) && SameUnitAndDay(bs[i], bs[j]) ==>
          !Overlap(bs[i], bs[j]))
  }

  /**
   * A booking made from an accepted request keeps every unit free of double bookings:
   * the guard's string comparisons agree with time order because every active stored time
   * and both requested times are zero-padded "HH:MM".
   */
  lemma AcceptedRequestKeepsNoDoubleBooking(r: CreateRequest, parlours: seq<Parlour>, devices: seq<Device>,
                                            bs: seq<Booking>, now: int, nb: Booking)
    requires NoDoubleBooking(bs)
    requires CheckRequest(r, parlours, devices, bs, now).Ok?
    requires nb.device == r.device && nb.consoleUnit == r.consoleUnit && nb.date == r.date
    requires nb.startTime == r.startTime && nb.endTime == r.endTime
    ensures NoDoubleBooking(bs + [nb])
  {
    var all := bs + [nb];
    assert WellTimed(nb);
    forall i | 0 <= i < |bs| && Active(bs[i]) && SameUnitAndDay(bs[i], nb)
      ensures !Overlap(bs[i], nb)
    {
      var b := bs[i];
      assert !Blocks(b, r);
      LexOrderIsTimeOrder(b.startTime, r.endTime);
      LexOrderIsTimeOrder(r.startTime, b.endTime);
    }
    forall i, j | 0 <= i < j < |all| && Active(all[i]) && Active(all[j]) && SameUnitAndDay(all[i], all[j])
      ensures !Overlap(all[i], all[j])
    {
      if j < |bs| {
        assert all[i] == bs[i] && all[j] == bs[j];
      } else {
        assert all[i] == bs[i] && all[j] == nb;
      }
    }
  }

  // ================================================================ read, update, cancel

  datatype AccessError =
    | BookingNotFound
    | NotAuthorized
    | AlreadyFinal(status: BookingStatus)
    | PatchInvalid(violations: seq<BookingSchema.Violation>)
    /** A `TypeError` thrown in the handler, answered 500 by the error middleware. */
    | ServerError

  function AccessErrorStatus(e: AccessError): nat
  {
    match e
    case BookingNotFound => 404
    case NotAuthorized => 401
    case AlreadyFinal(_) => 400
    case PatchInvalid(_) => 400
    case ServerError => 500
  }

  predicate OwnerOrAdmin(b: Booking, a: Actor)
  {
    b.user == a.id || a.isAdmin
  }

  predicate Final(s: BookingStatus)
  {
    s == Completed || s == Cancelled
  }

  /** `getBooking`: the booking, for its owner or an admin. */
  function GetBooking(docs: seq<Booking>, id: string, a: Actor): (r: Result<Booking, AccessError>)
    ensures r.Ok? ==> r.value.id == id && r.value in docs && OwnerOrAdmin(r.value, a)
    ensures IndexOfId(docs, id).Some? && OwnerOrAdmin(docs[IndexOfId(docs, id).value], a) ==>
              r == Ok(docs[IndexOfId(docs, id).value])
    ensures r == Err(BookingNotFound) <==> forall j :: 0 <= j < |docs| ==> docs[j].id != id
    ensures r.Err? ==> r.error == BookingNotFound || r.error == NotAuthorized
  {
    match IndexOfId(docs, id)
    case None => Err(BookingNotFound)
    case Some(i) => if OwnerOrAdmin(docs[i], a) then Ok(docs[i]) else Err(NotAuthorized)
  }

  // ---------------------------------------------------------------- getBooking as written

  /** `req.user.id`: the 24 lower-case hexadecimal digits of an ObjectId. */
  predicate IsObjectIdText(s: string)
  {
    |s| == 24 && forall i :: 0 <= i < |s| ==> s[i] in "0123456789abcdef"
  }

  /** A user document as `.populate({ path: 'user', select: 'name email' })` loads it. */
  datatype UserSummary = UserSummary(id: string, name: string, email: string)

  /**
   * `toString()` of a populated document: Node's inspection text of the object. Only its
   * opening brace matters to the owner test.
   */
  function DocumentText(u: UserSummary): (t: string)
    ensures |t| > 0 && t[0] == '{'
  {
    "{ _id: " + u.id + ", name: '" + u.name + "', email: '" + u.email + "' }"
  }

  /** The user document populated into `booking.user`: None when the user no longer exists. */
  function PopulateUser(users: seq<UserSummary>, id: string): (r: Option<UserSummary>)
    ensures r.Some? ==> r.value in users && r.value.id == id
    ensures r.None? <==> forall j :: 0 <= j < |users| ==> users[j].id != id
  {
    match Sequences.FindIndex(users, (u: UserSummary) => u.id == id)
    case None => None
    case Some(i) => Some(users[i])
  }

  /**
   * `getBooking` as written: `user` is populated before the owner test, so the test compares
   * the document's text with the requester's id, and a deleted user leaves `null`, whose
   * `toString` throws.
   */
  function GetBookingAsWritten(docs: seq<Booking>, users: seq<UserSummary>, id: string, a: Actor): (r: Result<Booking, AccessError>)
    ensures r == Err(BookingNotFound) <==> IndexOfId(docs, id).None?
    ensures r == Err(ServerError) <==> IndexOfId(docs, id).Some? && PopulateUser(users, docs[IndexOfId(docs, id).value].user).None?
    ensures r.Ok? ==> r.value.id == id && r.value in docs
  {
    match IndexOfId(docs, id)
    case None => Err(BookingNotFound)
    case Some(i) =>
      match PopulateUser(users, docs[i].user)
      case None => Err(ServerError)
      case Some(u) => if DocumentText(u) != a.id && !a.isAdmin then Err(NotAuthorized) else Ok(docs[i])
  }

  /**
   * As written, only an admin reads a booking: the populated text never equals an ObjectId
   * text, so the owner test refuses every non-admin, the booking's own user included.
   */
  lemma AsWrittenOnlyAdminsRead(docs: seq<Booking>, users: seq<UserSummary>, id: string, a: Actor)
    requires IsObjectIdText(a.id)
    ensures GetBookingAsWritten(docs, users, id, a).Ok? <==>
              && IndexOfId(docs, id).Some?
              && PopulateUser(users, docs[IndexOfId(docs, id).value].user).Some?
              && a.isAdmin
  {
    match IndexOfId(docs, id)
    case None =>
    case Some(i) =>
      match PopulateUser(users, docs[i].user)
      case None =>
      case Some(u) =>
        var t := DocumentText(u);
        assert t[0] !in "0123456789abcdef";
        assert t != a.id;
  }

  /** The booking's own, non-admin user is refused as written and served by the intended check. */
  lemma AsWrittenOwnerRefused()
    ensures
      var owner := "0123456789abcdef01234567";
      var b := Booking("b1", owner, "p1", "d1", "c1", 3, "10:00", "11:00", 1.0, 5.0, Pending, PaymentPending, None, 0);
      var users := [UserSummary(owner, "Asha", "asha@example.com")];
      && GetBookingAsWritten([b], users, "b1", Actor(owner, false)) == Err(NotAuthorized)
      && GetBooking([b], "b1", Actor(owner, false)) == Ok(b)
  {
    var owner := "0123456789abcdef01234567";
    var b := Booking("b1", owner, "p1", "d1", "c1", 3, "10:00", "11:00", 1.0, 5.0, Pending, PaymentPending, None, 0);
    var users := [UserSummary(owner, "Asha", "asha@example.com")];
    assert IndexOfId([b], "b1") == Some(0);
    assert PopulateUser(users, owner) == Some(users[0]);
    assert DocumentText(users[0])[0] != owner[0];
  }

  // ---------------------------------------------------------------- update

  /** The fields an update body (`req.body`) may carry: any path of the schema. */
  datatype BookingPatch = BookingPatch(
    user: Option<string>,
    parlour: Option<string>,
    device: Option<string>,
    consoleUnit: Option<string>,
    date: Option<int>,
    startTime: Option<string>,
    endTime: Option<string>,
    duration: Option<real>,
    totalPrice: Option<real>,
    status: Option<string>,
    paymentStatus: Option<string>,
    specialRequests: Option<string>,
    createdAt: Option<int>)

  /** The update validators (`runValidators: true`) on the paths the patch sets. */
  function PatchViolations(p: BookingPatch): seq<BookingSchema.Violation>
  {
    (if p.user == Some("") then [BookingSchema.Required(UserField)] else [])
    + (if p.parlour == Some("") then [BookingSchema.Required(BookingSchema.ParlourField)] else [])
    + (if p.device == Some("") then [BookingSchema.Required(BookingSchema.DeviceField)] else [])
    + (if p.consoleUnit == Some("") then [BookingSchema.Required(ConsoleUnitField)] else [])
    + (if p.startTime == Some("") then [BookingSchema.Required(StartTimeField)] else [])
    + (if p.endTime == Some("") then [BookingSchema.Required(EndTimeField)] else [])
    + (if p.status.Some? && ParseStatus(p.status.value).None? then [BookingSchema.NotInEnum(StatusField)] else [])
    + (if p.paymentStatus.Some? && ParsePaymentStatus(p.paymentStatus.value).None? then [BookingSchema.NotInEnum(PaymentStatusField)] else [])
    + (if p.specialRequests.Some? && |p.specialRequests.value| > MaxSpecialRequests then [BookingSchema.TooLong(SpecialRequestsField)] else [])
  }

  function Or<T>(o: Option<T>, d: T): T
  {
    if o.Some? then o.value else d
  }

  /** A path the patch names holds the patch's value afterwards; a path it omits keeps the old one. */
  predicate Overwritten<T(==)>(after: T, given: Option<T>, before: T)
  {
    (given.Some? ==> after == given.value) && (given.None? ==> after == before)
  }

  /**
   * The stored record overwritten by the patch, field by field; no pre-save hook runs, and
   * nothing but the validators looks at the new values.
   */
  function ApplyPatch(b: Booking, p: BookingPatch): (r: Booking)
    requires PatchViolations(p) == []
    ensures r.id == b.id
    ensures Overwritten(r.user, p.user, b.user) && Overwritten(r.parlour, p.parlour, b.parlour)
    ensures Overwritten(r.device, p.device, b.device) && Overwritten(r.consoleUnit, p.consoleUnit, b.consoleUnit)
    ensures Overwritten(r.date, p.date, b.date) && Overwritten(r.createdAt, p.createdAt, b.createdAt)
    ensures Overwritten(r.startTime, p.startTime, b.startTime) && Overwritten(r.endTime, p.endTime, b.endTime)
    ensures Overwritten(r.duration, p.duration, b.duration) && Overwritten(r.totalPrice, p.totalPrice, b.totalPrice)
    ensures p.status.Some? ==> StatusName(r.status) == p.status.value
    ensures p.status.None? ==> r.status == b.status
    ensures p.paymentStatus.Some? ==> PaymentStatusName(r.paymentStatus) == p.paymentStatus.value
    ensures p.paymentStatus.None? ==> r.paymentStatus == b.paymentStatus
    ensures p.specialRequests.Some? ==> r.specialRequests == p.specialRequests
    ensures p.specialRequests.None? ==> r.specialRequests == b.specialRequests
  {
    Booking(b.id, Or(p.user, b.user), Or(p.parlour, b.parlour), Or(p.device, b.device),
            Or(p.consoleUnit, b.consoleUnit), Or(p.date, b.date),
            Or(p.startTime, b.startTime), Or(p.endTime, b.endTime), Or(p.duration, b.duration),
            Or(p.totalPrice, b.totalPrice),
            if p.status.Some? then ParseStatus(p.status.value).value else b.status,
            if p.paymentStatus.Some? then ParsePaymentStatus(p.paymentStatus.value).value else b.paymentStatus,
            if p.specialRequests.Some? then p.specialRequests else b.specialRequests,
            Or(p.createdAt, b.createdAt))
  }

  /** `updateBooking`'s checks on one stored booking: owner or admin, not final, a valid patch. */
  function UpdateDecision(b: Booking, p: BookingPatch, a: Actor): (r: Result<Booking, AccessError>)
    ensures r.Ok? <==> OwnerOrAdmin(b, a) && !Final(b.status) && PatchViolations(p) == []
    ensures !OwnerOrAdmin(b, a) ==> r == Err(NotAuthorized)
    ensures OwnerOrAdmin(b, a) && Final(b.status) ==> r == Err(AlreadyFinal(b.status))
    ensures r.Ok? ==> r.value == ApplyPatch(b, p)
  {
    if !OwnerOrAdmin(b, a) then Err(NotAuthorized)
    else if Final(b.status) then Err(AlreadyFinal(b.status))
    else
      var v := PatchViolations(p);
      if v != [] then Err(PatchInvalid(v)) else Ok(ApplyPatch(b, p))
  }

  /** `deleteBooking`'s checks on one stored booking: owner only, not final; the result is the saved document. */
  function CancelDecision(b: Booking, a: Actor, devicePricePerHour: real): (r: Result<Booking, AccessError>)
    ensures r.Ok? <==> b.user == a.id && !Final(b.status)
    ensures b.user != a.id ==> r == Err(NotAuthorized)
    ensures b.user == a.id && Final(b.status) ==> r == Err(AlreadyFinal(b.status))
    ensures r.Ok? ==> r.value == b.(status := Cancelled)
  {
    if b.user != a.id then Err(NotAuthorized)
    else if b.status == Cancelled || b.status == Completed then Err(AlreadyFinal(b.status))
    else
      // `booking.save()`: only `status` was modified, so the hook leaves the price alone.
      Ok(PreSave(b.(status := Cancelled), false, devicePricePerHour))
  }

  /** `updateBooking`: find, check, overwrite the stored record with the patch. */
  method UpdateBooking(store: BookingCollection, id: string, p: BookingPatch, a: Actor)
    returns (r: Result<Booking, AccessError>)
    modifies store
    ensures var k := IndexOfId(old(store.docs), id);
      && (k.None? ==> r == Err(BookingNotFound) && store.docs == old(store.docs))
      && (k.Some? ==> r == UpdateDecision(old(store.docs)[k.value], p, a))
      && (k.Some? && r.Ok? ==> store.docs == old(store.docs)[k.value := r.value])
      && (r.Err? ==> store.docs == old(store.docs))
  {
    var k := IndexOfId(store.docs, id);
    if k.None? {
      return Err(BookingNotFound);
    }
    r := UpdateDecision(store.docs[k.value], p, a);
    if r.Ok? {
      store.docs := store.docs[k.value := r.value];
    }
  }

  /** `deleteBooking`: a soft cancel of the owner's own booking. */
  method DeleteBooking(store: BookingCollection, id: string, a: Actor, devicePricePerHour: real)
    returns (r: Result<Booking, AccessError>)
    modifies store
    ensures var k := IndexOfId(old(store.docs), id);
      && (k.None? ==> r == Err(BookingNotFound) && store.docs == old(store.docs))
      && (k.Some? ==> r == CancelDecision(old(store.docs)[k.value], a, devicePricePerHour))
      && (k.Some? && r.Ok? ==> store.docs == old(store.docs)[k.value := r.value])
      && (r.Err? ==> store.docs == old(store.docs))
    ensures |store.docs| == |old(store.docs)|
    ensures NoDoubleBooking(old(store.docs)) ==> NoDoubleBooking(store.docs)
  {
    var k := IndexOfId(store.docs, id);
    if k.None? {
      return Err(BookingNotFound);
    }
    r := CancelDecision(store.docs[k.value], a, devicePricePerHour);
    if r.Ok? {
      CancellingKeepsNoDoubleBooking(store.docs, k.value);
      store.docs := store.docs[k.value := r.value];
    }
  }

  /** Cancelling a booking frees its slot and never creates a double booking. */
  lemma CancellingKeepsNoDoubleBooking(bs: seq<Booking>, k: nat)
    requires k < |bs|
    ensures NoDoubleBooking(bs) ==> NoDoubleBooking(bs[k := bs[k].(status := Cancelled)])
  {
  }

  /** An admin may edit someone else's booking but may not cancel it. */
  lemma AdminCanUpdateButNotCancel(b: Booking, p: BookingPatch, a: Actor, rate: real)
    requires a.isAdmin && b.user != a.id && !Final(b.status) && PatchViolations(p) == []
    ensures UpdateDecision(b, p, a) == Ok(ApplyPatch(b, p))
    ensures CancelDecision(b, a, rate) == Err(NotAuthorized)
  {
  }

  /** An empty patch with only a status or payment status. */
  function StatusPatch(status: Option<string>, paymentStatus: Option<string>): BookingPatch
  {
    BookingPatch(None, None, None, None, None, None, None, None, None, status, paymentStatus, None, None)
  }

  /**
   * Updates have no transition table: a confirmed booking can be set back to pending, and
   * the booking's own user can mark it paid.
   */
  lemma UpdateHasNoTransitionTable(b: Booking, a: Actor)
    requires b.user == a.id && b.status == Confirmed
    ensures UpdateDecision(b, StatusPatch(Some("pending"), None), a).Ok?
    ensures UpdateDecision(b, StatusPatch(Some("pending"), None), a).value.status == Pending
    ensures UpdateDecision(b, StatusPatch(None, Some("paid")), a).Ok?
    ensures UpdateDecision(b, StatusPatch(None, Some("paid")), a).value.paymentStatus == Paid
  {
    assert ParseStatus("pending") == Some(Pending);
    assert ParsePaymentStatus("paid") == Some(Paid);
  }

  /** Updates re-check neither the slot nor the times: moving a booking onto another one is accepted. */
  lemma UpdateCanBreakNoDoubleBooking()
    ensures
      var first := Booking("b1", "u1", "p1", "d1", "c1", 3, "10:00", "11:00", 1.0, 5.0, Confirmed, PaymentPending, None, 0);
      var second := Booking("b2", "u2", "p1", "d1", "c1", 3, "11:00", "12:00", 1.0, 5.0, Pending, PaymentPending, None, 1);
      var patch := BookingPatch(None, None, None, None, None, Some("10:30"), None, None, None, None, None, None, None);
      var after := UpdateDecision(second, patch, Actor("u2", false));
      && NoDoubleBooking([first, second])
      && after.Ok?
      && !NoDoubleBooking([first, after.value])
  {
    var first := Booking("b1", "u1", "p1", "d1", "c1", 3, "10:00", "11:00", 1.0, 5.0, Confirmed, PaymentPending, None, 0);
    var second := Booking("b2", "u2", "p1", "d1", "c1", 3, "11:00", "12:00", 1.0, 5.0, Pending, PaymentPending, None, 1);
    var patch := BookingPatch(None, None, None, None, None, Some("10:30"), None, None, None, None, None, None, None);
    assert ParseTime("10:00") == Some(600);
    assert ParseTime("11:00") == Some(660);
    assert ParseTime("12:00") == Some(720);
    assert ParseTime("10:30") == Some(630);
    var moved := UpdateDecision(second, patch, Actor("u2", false)).value;
    assert moved.startTime == "10:30";
    assert [first, moved][0] == first && [first, moved][1] == moved;
    assert Overlap(first, moved);
  }

  /**
   * The body is written as sent: naming another device moves an open booking there, with
   * no look-up of the device and no slot check.
   */
  lemma UpdateCanMoveDevice(b: Booking, a: Actor, target: string)
    requires OwnerOrAdmin(b, a) && !Final(b.status) && target != ""
    ensures
      var patch := BookingPatch(None, None, Some(target), None, None, None, None, None, None, None, None, None, None);
      UpdateDecision(b, patch, a) == Ok(b.(device := target))
  {
  }

  // ================================================================ listings

  /** `.select('consoleUnit startTime endTime status')`: what the public listing shows of a booking (with its id). */
  datatype BookingView = BookingView(id: string, consoleUnit: string, startTime: string, endTime: string, status: BookingStatus)

  function View(b: Booking): BookingView
  {
    BookingView(b.id, b.consoleUnit, b.startTime, b.endTime, b.status)
  }

  function Views(bs: seq<Booking>): (r: seq<BookingView>)
    ensures |r| == |bs| && forall k :: 0 <= k < |bs| ==> r[k] == View(bs[k])
  {
    seq(|bs|, k requires 0 <= k < |bs| => View(bs[k]))
  }

  lemma ViewsContains(bs: seq<Booking>)
    ensures forall b :: b in bs ==> View(b) in Views(bs)
  {
    forall b | b in bs
      ensures View(b) in Views(bs)
    {
      var k :| 0 <= k < |bs| && bs[k] == b;
      assert Views(bs)[k] == View(b);
    }
  }

  predicate ListedFor(b: Booking, parlourId: string, day: int)
  {
    b.parlour == parlourId && b.date == day && Active(b)
  }

  datatype ListingError = DateMissing

  /** `getParlourBookings`: the parlour's bookings on the date that are not cancelled, in stored order. */
  function ParlourBookings(docs: seq<Booking>, parlourId: string, date: Option<int>): (r: Result<seq<BookingView>, ListingError>)
    ensures date.None? <==> r == Err(DateMissing)
    ensures r.Ok? ==> forall k :: 0 <= k < |r.value| ==> r.value[k].status != Cancelled
    ensures r.Ok? ==> forall k :: 0 <= k < |r.value| ==>
              exists i :: 0 <= i < |docs| && ListedFor(docs[i], parlourId, date.value) && View(docs[i]) == r.value[k]
    ensures r.Ok? ==> forall i :: 0 <= i < |docs| && ListedFor(docs[i], parlourId, date.value) ==> View(docs[i]) in r.value
  {
    match date
    case None => Err(DateMissing)
    case Some(day) =>
      var kept := Sequences.Filter(docs, (b: Booking) => ListedFor(b, parlourId, day));
      ViewsContains(kept);
      Ok(Views(kept))
  }

  /** `getUserBookings` (the admin route): every booking of the given user, in stored order. */
  function UserBookings(docs: seq<Booking>, userId: string): (r: seq<Booking>)
    ensures forall k :: 0 <= k < |r| ==> r[k].user == userId && r[k] in docs
    ensures forall i :: 0 <= i < |docs| && docs[i].user == userId ==> docs[i] in r
    ensures Sequences.Subsequence(r, docs)
  {
    Sequences.Filter(docs, (b: Booking) => b.user == userId)
  }
}
