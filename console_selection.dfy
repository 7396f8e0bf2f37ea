/**
 * The console-selection page (frontend/src/pages/ConsoleSelection.js): the hourly slot grid,
 * the client's slot test against the parlour's bookings of the day, the per-slot status and
 * the status wording, the page's expand and selection state, and the decision part of the
 * "Book Now" handler.
 *
 * The page reads `consoleUnit.consoleUnitId`, a path no console unit has (units carry
 * `consoleId`), and `booking.date`, a path the parlour listing does not select. Both reads
 * are undefined. The members suffixed `AsWritten` model those reads; the others model the
 * evidently intended reads of `consoleId`, with the listing already restricted to the date.
 */
module ConsoleSelection {
  import opened Wrappers
  import opened TimeOfDay
  import opened BookingSchema
  import opened DeviceSchema
  import opened BookingController
  import Sequences

  // ================================================================ the slot grid

  const FirstHour: nat := 10
  const LastHour: nat := 22

  /** The grid's slot labels: every whole hour from 10:00 to 22:00, zero-padded. */
  function SlotLabels(): (r: seq<string>)
    ensures |r| == LastHour - FirstHour + 1
    ensures forall i :: 0 <= i < |r| ==> r[i] == FormatTime((FirstHour + i) * 60)
  {
    seq(LastHour - FirstHour + 1, i requires 0 <= i <= LastHour - FirstHour => FormatTime((FirstHour + i) * 60))
  }

  /** `hour.toString().padStart(2, '0') + ':00'`. */
  function HourText(hour: nat): string
  {
    PadStart(NatToString(hour), 2, '0') + ":00"
  }

  /** `generateTimeSlots`: one label per hour from the first to the last. */
  method GenerateTimeSlots() returns (slots: seq<string>)
    ensures slots == SlotLabels()
  {
    slots := [];
    for hour := FirstHour to LastHour + 1
      invariant slots == SlotLabels()[..hour - FirstHour]
    {
      LabelIsSlot(hour);
      SlotLabelsPrefix(hour - FirstHour);
      slots := slots + [HourText(hour)];
    }
  }

  /** The loop's label for an hour is that hour's zero-padded text. */
  lemma LabelIsSlot(hour: nat)
    requires FirstHour <= hour <= LastHour
    ensures HourText(hour) == SlotLabels()[hour - FirstHour]
  {
    var k := hour - FirstHour;
    assert FirstHour + k == hour;
    assert SlotLabels()[k] == FormatTime(hour * 60);
    HourLabel(hour);
  }

  lemma SlotLabelsPrefix(n: nat)
    requires n < |SlotLabels()|
    ensures SlotLabels()[..n + 1] == SlotLabels()[..n] + [SlotLabels()[n]]
  {
  }

  /** The labels are strictly ascending, both as text and as times of day. */
  lemma SlotLabelsAscending(i: nat, j: nat)
    requires i < j < |SlotLabels()|
    ensures ParseTime(SlotLabels()[i]).Some? && ParseTime(SlotLabels()[j]).Some?
    ensures ParseTime(SlotLabels()[i]).value < ParseTime(SlotLabels()[j]).value
    ensures LexLess(SlotLabels()[i], SlotLabels()[j])
  {
    var r := SlotLabels();
    var a, b := (FirstHour + i) * 60, (FirstHour + j) * 60;
    assert a < b < MinutesPerDay;
    assert r[i] == FormatTime(a) && r[j] == FormatTime(b);
    ParseFormat(a);
    ParseFormat(b);
    LexOrderIsTimeOrder(r[i], r[j]);
  }

  // ================================================================ the slot test

  /**
   * The three-disjunct test on minutes, with `slotEnd` one hour after `slotStart`: the slot
   * starts inside the booking, ends inside it, or contains it.
   */
  predicate HourOverlaps(bookingStart: nat, bookingEnd: nat, slotStart: nat)
  {
    var slotEnd := slotStart + 60;
    || (slotStart >= bookingStart && slotStart < bookingEnd)
    || (slotEnd > bookingStart && slotEnd <= bookingEnd)
    || (slotStart <= bookingStart && slotEnd >= bookingEnd)
  }

  /** For a booking that ends after it starts, the test is half-open interval overlap. */
  lemma ThreeWayIsHalfOpenOverlap(bookingStart: nat, bookingEnd: nat, slotStart: nat)
    requires bookingStart < bookingEnd
    ensures HourOverlaps(bookingStart, bookingEnd, slotStart) <==>
            slotStart < bookingEnd && bookingStart < slotStart + 60
  {
  }

  /** Adjacent slots do not conflict with a booking of exactly one slot. */
  lemma AdjacentSlotsFree(h: nat)
    requires h >= 1
    ensures !HourOverlaps(h * 60, (h + 1) * 60, (h - 1) * 60)
    ensures !HourOverlaps(h * 60, (h + 1) * 60, (h + 1) * 60)
    ensures HourOverlaps(h * 60, (h + 1) * 60, h * 60)
  {
  }

  /** Without that order the test is not overlap: a zero-length booking at the slot's start counts as booked. */
  lemma ThreeWayNeedsOrderedBooking()
    ensures HourOverlaps(600, 600, 600)
    ensures !(600 < 600 && 600 < 600 + 60)
  {
  }

  /**
   * One booking against one slot, times read by `new Date('2000-01-01T' + text)`: an
   * unparsable text is an Invalid Date, every comparison with it is false, and the booking
   * then never overlaps.
   */
  predicate ViewOverlapsSlot(v: BookingView, slot: string)
  {
    match (ParseTime(v.startTime), ParseTime(v.endTime), ParseTime(slot))
    case (Some(bs), Some(be), Some(ss)) => HourOverlaps(bs, be, ss)
    case _ => false
  }

  /** `existingBookings.some(...)`. */
  predicate BookedAmong(considered: seq<BookingView>, slot: string)
  {
    exists k :: 0 <= k < |considered| && ViewOverlapsSlot(considered[k], slot)
  }

  /** `consoleUnit.consoleUnitId`: no console unit has this path, so the read is undefined. */
  function ConsoleUnitIdOf(u: ConsoleUnit): Option<string>
  {
    None
  }

  /** `booking.date` of a listed booking: the listing does not select the date, so the read is undefined. */
  function ListedDate(v: BookingView): Option<int>
  {
    None
  }

  /** The page's filter as written: `booking.consoleUnit === consoleUnit.consoleUnitId && booking.date === date`. */
  function ConsideredAsWritten(views: seq<BookingView>, u: ConsoleUnit, date: int): (r: seq<BookingView>)
    ensures forall k :: 0 <= k < |r| ==> Some(r[k].consoleUnit) == ConsoleUnitIdOf(u) && ListedDate(r[k]) == Some(date)
  {
    Sequences.Filter(views, (v: BookingView) => Some(v.consoleUnit) == ConsoleUnitIdOf(u) && ListedDate(v) == Some(date))
  }

  /** The intended filter: the listed bookings (already of the selected date) that name this unit's `consoleId`. */
  function Considered(views: seq<BookingView>, u: ConsoleUnit): (r: seq<BookingView>)
    ensures forall k :: 0 <= k < |r| ==> r[k].consoleUnit == u.consoleId && r[k] in views
    ensures forall i :: 0 <= i < |views| && views[i].consoleUnit == u.consoleId ==> views[i] in r
  {
    Sequences.Filter(views, (v: BookingView) => v.consoleUnit == u.consoleId)
  }

  /** The read filter as written keeps no booking at all. */
  lemma AsWrittenFilterIsEmpty(views: seq<BookingView>, u: ConsoleUnit, date: int)
    ensures ConsideredAsWritten(views, u, date) == []
  {
  }

  /** `isTimeSlotAvailable` on the bookings the filter kept: never during maintenance, else free of overlap. */
  function SlotAvailable(u: ConsoleUnit, slot: string, considered: seq<BookingView>): (r: bool)
    ensures u.status == Maintenance ==> !r
    ensures r <==> u.status != Maintenance && !BookedAmong(considered, slot)
  {
    if u.status == Maintenance then false
    else !BookedAmong(considered, slot)
  }

  datatype SlotStatus = ShownMaintenance | ShownBooked | ShownAvailable

  /** The text the grid shows for a slot. */
  function SlotStatusLabel(s: SlotStatus): string
  {
    match s
    case ShownMaintenance => "Maintenance"
    case ShownBooked => "Booked"
    case ShownAvailable => "Available"
  }

  /** `getTimeSlotStatus`, which repeats the slot test to name the slot's state. */
  function GetTimeSlotStatus(u: ConsoleUnit, slot: string, considered: seq<BookingView>): (r: SlotStatus)
    ensures u.status == Maintenance ==> r == ShownMaintenance
  {
    if u.status == Maintenance then ShownMaintenance
    else if BookedAmong(considered, slot) then ShownBooked
    else ShownAvailable
  }

  /** A slot is offered ('Available', so the menu item is enabled) exactly when the slot test accepts it. */
  lemma StatusAvailableIffSlotAvailable(u: ConsoleUnit, slot: string, considered: seq<BookingView>)
    ensures SlotStatusLabel(GetTimeSlotStatus(u, slot, considered)) == "Available" <==> SlotAvailable(u, slot, considered)
    ensures SlotStatusLabel(GetTimeSlotStatus(u, slot, considered)) == "Maintenance" <==> u.status == Maintenance
  {
    assert "Booked" != "Available" && "Maintenance" != "Available" && "Booked" != "Maintenance";
    assert "Booked"[0] != "Available"[0] && "Maintenance"[0] != "Available"[0] && "Booked"[0] != "Maintenance"[0];
  }

  /** As written, every slot of a unit not in maintenance is shown as free, whatever is booked. */
  lemma AsWrittenEverySlotFree(u: ConsoleUnit, slot: string, views: seq<BookingView>, date: int)
    ensures SlotAvailable(u, slot, ConsideredAsWritten(views, u, date)) <==> u.status != Maintenance
  {
    AsWrittenFilterIsEmpty(views, u, date);
  }

  /** With the intended filter, a slot is free exactly when no listed booking of that unit overlaps it. */
  lemma {:induction false} IntendedSlotAvailability(u: ConsoleUnit, slot: string, views: seq<BookingView>)
    ensures SlotAvailable(u, slot, Considered(views, u)) <==>
      && u.status != Maintenance
      && forall i :: 0 <= i < |views| && views[i].consoleUnit == u.consoleId ==> !ViewOverlapsSlot(views[i], slot)
  {
    var c := Considered(views, u);
    if BookedAmong(c, slot) {
      var k :| 0 <= k < |c| && ViewOverlapsSlot(c[k], slot);
      var i :| 0 <= i < |views| && views[i] == c[k];
      assert views[i].consoleUnit == u.consoleId && ViewOverlapsSlot(views[i], slot);
    }
    if exists i :: 0 <= i < |views| && views[i].consoleUnit == u.consoleId && ViewOverlapsSlot(views[i], slot) {
      var i :| 0 <= i < |views| && views[i].consoleUnit == u.consoleId && ViewOverlapsSlot(views[i], slot);
      var k :| 0 <= k < |c| && c[k] == views[i];
      assert BookedAmong(c, slot);
    }
  }

  // ================================================================ status wording

  /** `getStatusText` of a status text. */
  function StatusText(status: string): string
  {
    if status == "available" then "Available"
    else if status == "booked" then "Booked"
    else if status == "maintenance" then "Under Maintenance"
    else "Unknown"
  }

  /** `getStatusColor` of a status text. */
  function StatusColor(status: string): string
  {
    if status == "available" then "success.main"
    else if status == "booked" then "error.main"
    else if status == "maintenance" then "warning.main"
    else "text.secondary"
  }

  /** What a unit's status line says: the maps cover 'available' and 'maintenance', and 'in-use' falls to the default. */
  lemma UnitStatusWording(s: UnitStatus)
    ensures s == Available ==> StatusText(UnitStatusName(s)) == "Available" && StatusColor(UnitStatusName(s)) == "success.main"
    ensures s == Maintenance ==> StatusText(UnitStatusName(s)) == "Under Maintenance" && StatusColor(UnitStatusName(s)) == "warning.main"
    ensures s == InUse ==> StatusText(UnitStatusName(s)) == "Unknown" && StatusColor(UnitStatusName(s)) == "text.secondary"
  {
    assert "in-use"[0] != "available"[0] && "in-use"[0] != "booked"[0] && "in-use"[0] != "maintenance"[0];
    assert "maintenance"[0] != "available"[0] && "maintenance"[0] != "booked"[0];
  }

  // ================================================================ page state

  /** `expandedDevice === deviceId ? null : deviceId`. */
  function Toggle(expanded: Option<string>, deviceId: string): (r: Option<string>)
    ensures r == Some(deviceId) <==> expanded != Some(deviceId)
    ensures r.None? <==> expanded == Some(deviceId)
  {
    if expanded == Some(deviceId) then None else Some(deviceId)
  }

  /** The page's own state: which device is expanded, and the slot chosen per unit key. */
  class PageState {
    var expandedDevice: Option<string>
    var selectedTimeSlots: map<string, string>

    constructor ()
      ensures expandedDevice == None && selectedTimeSlots == map[]
    {
      expandedDevice := None;
      selectedTimeSlots := map[];
    }

    /** `handleDeviceExpand`: the same device collapses, any other becomes the expanded one. */
    method DeviceExpand(deviceId: string)
      modifies this
      ensures expandedDevice == Toggle(old(expandedDevice), deviceId)
      ensures selectedTimeSlots == old(selectedTimeSlots)
    {
      expandedDevice := Toggle(expandedDevice, deviceId);
    }

    /** `handleTimeSlotSelect`: the key now maps to the slot; every other key keeps its selection. */
    method TimeSlotSelect(unitKey: string, slot: string)
      modifies this
      ensures selectedTimeSlots == old(selectedTimeSlots)[unitKey := slot]
      ensures unitKey in selectedTimeSlots && selectedTimeSlots[unitKey] == slot
      ensures forall k :: k in old(selectedTimeSlots) && k != unitKey ==> k in selectedTimeSlots && selectedTimeSlots[k] == old(selectedTimeSlots)[k]
      ensures selectedTimeSlots.Keys == old(selectedTimeSlots).Keys + {unitKey}
      ensures expandedDevice == old(expandedDevice)
    {
      selectedTimeSlots := selectedTimeSlots[unitKey := slot];
    }
  }

  // ================================================================ "Book Now"

  /** The request body the page sends; `consoleUnit` is `None` when it is undefined (and so dropped). */
  datatype Payload = Payload(parlour: string, device: string, date: int, startTime: string, endTime: string,
                             consoleUnit: Option<string>)

  datatype BookingAttempt =
    | NoSlotSelected
    | SlotNoLongerAvailable
    | Send(payload: Payload)

  /** `parseInt(startTime.split(':')[0]) + 1` followed by ':00'; NaN prints as "NaN". */
  function EndLabel(startTime: string): string
  {
    match ParseIntPrefix(UpTo(startTime, ':'))
    case Some(h) => NatToString(h + 1) + ":00"
    case None => "NaN:00"
  }

  /** For a slot of the grid, the end label is the next whole hour, zero-padded. */
  lemma EndLabelOfGridSlot(h: nat)
    requires FirstHour <= h <= LastHour
    ensures EndLabel(FormatTime(h * 60)) == FormatTime((h + 1) * 60)
  {
    HourOfText(h);
    WholeHourText(h + 1);
  }

  /**
   * Hours before nine (which the grid, starting at ten, never offers) get an unpadded end
   * label that the server cannot read as a time.
   */
  lemma EndLabelUnpaddedBeforeTen(h: nat)
    requires h < 9
    ensures EndLabel(FormatTime(h * 60)) == [DigitChar(h + 1)] + ":00"
    ensures ParseTime(EndLabel(FormatTime(h * 60))).None?
  {
    WholeHourFormat(h);
    var f := FormatTime(h * 60);
    var d := DigitChar(h);
    assert f == ['0', d, ':', '0', '0'];
    assert UpTo(f, ':') == ['0', d] by {
      assert f[1..][1..] == ":00";
    }
    assert DigitPrefix(['0', d]) == ['0', d] by {
      assert ['0', d][1..] == [d];
      assert [d][1..] == [];
    }
    assert DigitsValue(['0', d]) == h by {
      assert ['0', d][..1] == ['0'];
      assert ['0'][..0] == [];
    }
  }


  /** The decision part of `handleBooking`, parameterised by the key it reads and the filter it tests against. */
  function DecideBooking(selected: map<string, string>, key: string, considered: seq<BookingView>,
                         parlourId: string, d: Device, u: ConsoleUnit, sentUnit: Option<string>, date: int)
    : (r: BookingAttempt)
    ensures key !in selected || selected[key] == "" ==> r == NoSlotSelected
    ensures r.Send? ==> key in selected && selected[key] != "" && SlotAvailable(u, selected[key], considered)
    ensures r.Send? ==>
      r.payload == Payload(parlourId, d.id, date, UpTo(selected[key], '-'), EndLabel(UpTo(selected[key], '-')), sentUnit)
  {
    if key !in selected || selected[key] == "" then NoSlotSelected
    else
      var slot := selected[key];
      var startTime := UpTo(slot, '-');
      var endTime := EndLabel(startTime);
      if !SlotAvailable(u, slot, considered) then SlotNoLongerAvailable
      else Send(Payload(parlourId, d.id, date, startTime, endTime, sentUnit))
  }

  /**
   * `handleBooking` as written: it reads the selection under `consoleUnit.consoleUnitId`, i.e. the
   * key "undefined", tests the slot with the filter as written, and sends an undefined unit.
   */
  function HandleBookingAsWritten(selected: map<string, string>, views: seq<BookingView>,
                                  parlourId: string, d: Device, u: ConsoleUnit, date: int): (r: BookingAttempt)
    ensures "undefined" !in selected ==> r == NoSlotSelected
    ensures r.Send? ==> r.payload.consoleUnit.None?
  {
    DecideBooking(selected, "undefined", ConsideredAsWritten(views, u, date), parlourId, d, u, ConsoleUnitIdOf(u), date)
  }

  /**
   * Unless some selection was stored under the key "undefined" (a unit whose `consoleId` is
   * that very text), "Book Now" as written never sends a request.
   */
  lemma AsWrittenBookingNeverSent(page: map<string, string>, views: seq<BookingView>, parlourId: string,
                                   d: Device, u: ConsoleUnit, date: int)
    requires "undefined" !in page
    ensures HandleBookingAsWritten(page, views, parlourId, d, u, date) == NoSlotSelected
  {
  }

  /** `handleBooking` with the unit's `consoleId` as the key, the intended filter, and the unit sent. */
  function HandleBooking(selected: map<string, string>, views: seq<BookingView>,
                         parlourId: string, d: Device, u: ConsoleUnit, date: int): (r: BookingAttempt)
    ensures u.consoleId !in selected ==> r == NoSlotSelected
    ensures r.Send? ==> r.payload.consoleUnit == Some(u.consoleId) && r.payload.device == d.id
  {
    DecideBooking(selected, u.consoleId, Considered(views, u), parlourId, d, u, Some(u.consoleId), date)
  }

  /**
   * A free grid slot selected for the unit is sent as a one-hour booking from that hour,
   * with both times zero-padded; a taken one is refused without a request.
   */
  lemma HandleBookingSendsGridSlot(selected: map<string, string>, views: seq<BookingView>,
                                   parlourId: string, d: Device, u: ConsoleUnit, date: int, h: nat)
    requires FirstHour <= h <= LastHour
    requires u.consoleId in selected && selected[u.consoleId] == FormatTime(h * 60)
    ensures SlotAvailable(u, FormatTime(h * 60), Considered(views, u)) ==>
      HandleBooking(selected, views, parlourId, d, u, date)
        == Send(Payload(parlourId, d.id, date, FormatTime(h * 60), FormatTime((h + 1) * 60), Some(u.consoleId)))
    ensures !SlotAvailable(u, FormatTime(h * 60), Considered(views, u)) ==>
      HandleBooking(selected, views, parlourId, d, u, date) == SlotNoLongerAvailable
  {
    var slot := FormatTime(h * 60);
    assert '-' !in slot by {
      assert IsDigit(slot[0]) && IsDigit(slot[1]) && IsDigit(slot[3]) && IsDigit(slot[4]);
    }
    UpToAbsent(slot, '-');
    EndLabelOfGridSlot(h);
    assert slot != "";
  }
}
