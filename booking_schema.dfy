/**
 * The Booking collection (backend/src/models/Booking.js): the stored record, the enums and
 * defaults of its two status axes, its required fields and length limit, the pre-save hook
 * that re-prices a booking, and the collection itself as an object whose list of documents
 * the controllers change.
 */
module BookingSchema {
  import opened Wrappers
  import Sequences

  datatype BookingStatus = Pending | Confirmed | Cancelled | Completed

  function StatusName(s: BookingStatus): string
  {
    match s
    case Pending => "pending"
    case Confirmed => "confirmed"
    case Cancelled => "cancelled"
    case Completed => "completed"
  }

  /** The enum check on `status`. */
  function ParseStatus(s: string): (r: Option<BookingStatus>)
    ensures r.Some? ==> StatusName(r.value) == s
    ensures r.Some? <==> s in {"pending", "confirmed", "cancelled", "completed"}
  {
    if s == "pending" then Some(Pending)
    else if s == "confirmed" then Some(Confirmed)
    else if s == "cancelled" then Some(Cancelled)
    else if s == "completed" then Some(Completed)
    else None
  }

  lemma StatusRoundTrip(s: BookingStatus)
    ensures ParseStatus(StatusName(s)) == Some(s)
  {
  }

  datatype PaymentStatus = PaymentPending | Paid | Refunded

  function PaymentStatusName(p: PaymentStatus): string
  {
    match p
    case PaymentPending => "pending"
    case Paid => "paid"
    case Refunded => "refunded"
  }

  function ParsePaymentStatus(s: string): (r: Option<PaymentStatus>)
    ensures r.Some? ==> PaymentStatusName(r.value) == s
    ensures r.Some? <==> s in {"pending", "paid", "refunded"}
  {
    if s == "pending" then Some(PaymentPending)
    else if s == "paid" then Some(Paid)
    else if s == "refunded" then Some(Refunded)
    else None
  }

  lemma PaymentStatusRoundTrip(p: PaymentStatus)
    ensures ParsePaymentStatus(PaymentStatusName(p)) == Some(p)
  {
  }

  const DefaultStatus: BookingStatus := Pending
  const DefaultPaymentStatus: PaymentStatus := PaymentPending
  const MaxSpecialRequests: nat := 500

  /** A stored booking. `date` is a day number; times are the "HH:MM" texts as submitted. */
  datatype Booking = Booking(
    id: string,
    user: string,
    parlour: string,
    device: string,
    consoleUnit: string,
    date: int,
    startTime: string,
    endTime: string,
    duration: real,
    totalPrice: real,
    status: BookingStatus,
    paymentStatus: PaymentStatus,
    specialRequests: Option<string>,
    createdAt: int)

  /** `status: { $ne: 'cancelled' }`: the bookings that still hold their slot. */
  predicate Active(b: Booking)
  {
    b.status != Cancelled
  }

  /** A booking as handed to `Booking.create`: any field may be missing, enums are text. */
  datatype BookingDraft = BookingDraft(
    user: Option<string>,
    parlour: Option<string>,
    device: Option<string>,
    consoleUnit: Option<string>,
    date: Option<int>,
    startTime: Option<string>,
    endTime: Option<string>,
    duration: Option<real>,
    totalPrice: Option<real>,
    status: Option<string>,
    paymentStatus: Option<string>,
    specialRequests: Option<string>,
    createdAt: Option<int>)

  datatype BookingField =
    | UserField | ParlourField | DeviceField | ConsoleUnitField | DateField | StartTimeField
    | EndTimeField | DurationField | TotalPriceField | StatusField | PaymentStatusField | SpecialRequestsField

  datatype Violation = Required(field: BookingField) | NotInEnum(field: BookingField) | TooLong(field: BookingField)

  /** Mongoose's `required` on a string or an id: present and not the empty string. */
  predicate Given(s: Option<string>)
  {
    s.Some? && s.value != ""
  }

  function RequiredText(s: Option<string>, f: BookingField): seq<Violation>
  {
    if Given(s) then [] else [Required(f)]
  }

  function RequiredValue<T>(s: Option<T>, f: BookingField): seq<Violation>
  {
    if s.Some? then [] else [Required(f)]
  }

  /** Every schema violation of a draft, in the order the schema declares the paths. */
  function Violations(d: BookingDraft): seq<Violation>
  {
    RequiredText(d.user, UserField)
    + RequiredText(d.parlour, ParlourField)
    + RequiredText(d.device, DeviceField)
    + RequiredText(d.consoleUnit, ConsoleUnitField)
    + RequiredValue(d.date, DateField)
    + RequiredText(d.startTime, StartTimeField)
    + RequiredText(d.endTime, EndTimeField)
    + RequiredValue(d.duration, DurationField)
    + RequiredValue(d.totalPrice, TotalPriceField)
    + (if d.status.Some? && ParseStatus(d.status.value).None? then [NotInEnum(StatusField)] else [])
    + (if d.paymentStatus.Some? && ParsePaymentStatus(d.paymentStatus.value).None? then [NotInEnum(PaymentStatusField)] else [])
    + (if d.specialRequests.Some? && |d.specialRequests.value| > MaxSpecialRequests then [TooLong(SpecialRequestsField)] else [])
  }

  /** What the schema accepts, field by field. */
  predicate Conforms(d: BookingDraft)
  {
    && Given(d.user) && Given(d.parlour) && Given(d.device) && Given(d.consoleUnit)
    && d.date.Some? && Given(d.startTime) && Given(d.endTime) && d.duration.Some? && d.totalPrice.Some?
    && (d.status.None? || d.status.value in {"pending", "confirmed", "cancelled", "completed"})
    && (d.paymentStatus.None? || d.paymentStatus.value in {"pending", "paid", "refunded"})
    && (d.specialRequests.None? || |d.specialRequests.value| <= MaxSpecialRequests)
  }

  /** A draft has no violation exactly when it conforms; a missing required field is reported as such. */
  lemma ViolationsExactlyNonConformance(d: BookingDraft)
    ensures Violations(d) == [] <==> Conforms(d)
    ensures d.duration.None? ==> Required(DurationField) in Violations(d)
    ensures !Given(d.consoleUnit) ==> Required(ConsoleUnitField) in Violations(d)
    ensures d.specialRequests.Some? && |d.specialRequests.value| > MaxSpecialRequests ==>
              TooLong(SpecialRequestsField) in Violations(d)
  {
    var v := Violations(d);
    if d.duration.None? {
      assert v[|RequiredText(d.user, UserField) + RequiredText(d.parlour, ParlourField) + RequiredText(d.device, DeviceField)
                + RequiredText(d.consoleUnit, ConsoleUnitField) + RequiredValue(d.date, DateField)
                + RequiredText(d.startTime, StartTimeField) + RequiredText(d.endTime, EndTimeField)|] == Required(DurationField);
    }
    if !Given(d.consoleUnit) {
      assert v[|RequiredText(d.user, UserField) + RequiredText(d.parlour, ParlourField) + RequiredText(d.device, DeviceField)|]
        == Required(ConsoleUnitField);
    }
    if d.specialRequests.Some? && |d.specialRequests.value| > MaxSpecialRequests {
      assert v[|v| - 1] == TooLong(SpecialRequestsField);
    }
  }

  /**
   * The document a conforming draft becomes, defaults applied (before the pre-save hook):
   * every given path is stored as sent, and `createdAt` falls back to the current instant.
   */
  function FromDraft(id: string, now: int, d: BookingDraft): (b: Booking)
    requires Conforms(d)
    ensures b.id == id && b.user == d.user.value && b.parlour == d.parlour.value && b.device == d.device.value
    ensures b.consoleUnit == d.consoleUnit.value && b.date == d.date.value
    ensures b.startTime == d.startTime.value && b.endTime == d.endTime.value
    ensures b.duration == d.duration.value && b.totalPrice == d.totalPrice.value
    ensures b.specialRequests == d.specialRequests
    ensures d.createdAt.None? ==> b.createdAt == now
    ensures d.createdAt.Some? ==> b.createdAt == d.createdAt.value
    ensures d.status.None? ==> b.status == DefaultStatus
    ensures d.status.Some? ==> StatusName(b.status) == d.status.value
    ensures d.paymentStatus.None? ==> b.paymentStatus == DefaultPaymentStatus
    ensures d.paymentStatus.Some? ==> PaymentStatusName(b.paymentStatus) == d.paymentStatus.value
    ensures b.specialRequests.Some? ==> |b.specialRequests.value| <= MaxSpecialRequests
  {
    Booking(id, d.user.value, d.parlour.value, d.device.value, d.consoleUnit.value, d.date.value,
            d.startTime.value, d.endTime.value, d.duration.value, d.totalPrice.value,
            if d.status.None? then DefaultStatus else ParseStatus(d.status.value).value,
            if d.paymentStatus.None? then DefaultPaymentStatus else ParsePaymentStatus(d.paymentStatus.value).value,
            d.specialRequests, if d.createdAt.Some? then d.createdAt.value else now)
  }

  /** `duration * rate`: the price of a booking of that many hours. */
  function Cost(hours: real, rate: real): real
  {
    hours * rate
  }

  /**
   * The pre-save hook: when `duration` was modified, `totalPrice` is recomputed from the
   * device's hourly price; nothing else about the document changes.
   */
  function PreSave(b: Booking, durationModified: bool, devicePricePerHour: real): (r: Booking)
    ensures r.(totalPrice := b.totalPrice) == b
    ensures durationModified ==> r.totalPrice == Cost(r.duration, devicePricePerHour)
    ensures !durationModified ==> r == b
  {
    if durationModified then b.(totalPrice := Cost(b.duration, devicePricePerHour)) else b
  }

  /** A JavaScript number as the hook computes it: a value, or NaN. */
  datatype JsNumber = Num(value: real) | NaN

  /** `this.device` when the hook runs: the stored reference, or a populated device with its hourly price. */
  datatype DeviceRef = Reference(id: string) | Populated(pricePerHour: real)

  /**
   * `this.duration * this.device.pricePerHour`: with an unpopulated reference the rate reads
   * `undefined`, and a number times `undefined` is NaN.
   */
  function HookPrice(duration: real, device: DeviceRef): (r: JsNumber)
    ensures r.Num? <==> device.Populated?
  {
    match device
    case Reference(_) => NaN
    case Populated(rate) => Num(Cost(duration, rate))
  }

  /** With the device populated, the hook computes exactly the price `PreSave` stores. */
  lemma HookPriceMatchesPreSave(b: Booking, rate: real)
    ensures HookPrice(b.duration, Populated(rate)) == Num(PreSave(b, true, rate).totalPrice)
  {
  }

  /**
   * `Booking.create(req.body)` stores `device` as the reference id it was sent, and nothing
   * populates it before the hook, so the price the hook computes for any accepted draft is NaN.
   */
  lemma AsWrittenHookPriceIsNaN(d: BookingDraft)
    requires Conforms(d)
    ensures HookPrice(d.duration.value, Reference(d.device.value)) == NaN
  {
  }

  /** The first stored booking with this id (`findById`). */
  function IndexOfId(docs: seq<Booking>, id: string): (r: Option<nat>)
    ensures r.Some? ==> r.value < |docs| && docs[r.value].id == id
    ensures r.None? <==> forall j :: 0 <= j < |docs| ==> docs[j].id != id
  {
    Sequences.FindIndex(docs, (b: Booking) => b.id == id)
  }

  /** The collection: the list of stored documents, in insertion order. */
  class BookingCollection {
    var docs: seq<Booking>

    constructor ()
      ensures docs == []
    {
      docs := [];
    }

    /**
     * `Booking.create(draft)`: validation, defaults, then the pre-save hook. On a new
     * document every path that was set counts as modified, so the hook always re-prices.
     */
    method Create(id: string, now: int, draft: BookingDraft, devicePricePerHour: real)
      returns (r: Result<Booking, seq<Violation>>)
      modifies this
      ensures r.Err? <==> !Conforms(draft)
      ensures r.Err? ==> r.error == Violations(draft) && docs == old(docs)
      ensures r.Ok? ==>
        && Conforms(draft)
        && r.value == FromDraft(id, now, draft).(totalPrice := Cost(draft.duration.value, devicePricePerHour))
        && docs == old(docs) + [r.value]
    {
      ViolationsExactlyNonConformance(draft);
      var v := Violations(draft);
      if v != [] {
        return Err(v);
      }
      var doc := FromDraft(id, now, draft);
      doc := PreSave(doc, draft.duration.Some?, devicePricePerHour);
      docs := docs + [doc];
      return Ok(doc);
    }
  }
}
