/**
 * `getAvailableDevices` (backend/src/controllers/device.js): for every device of a parlour,
 * the console units that no booking of the given date holds. The server marks a unit booked
 * when any booking of that date that is not cancelled names it; the booked times are not
 * consulted, and neither is the unit's own status.
 */
module DeviceController {
  import opened Wrappers
  import opened BookingSchema
  import opened DeviceSchema
  import Sequences

  /** `{ ...device, availableConsoleUnits }`: a device with the units still free that day. */
  datatype DeviceAvailability = DeviceAvailability(device: Device, availableConsoleUnits: seq<ConsoleUnit>)

  /** The response body: `count` and `data`. */
  datatype Availability = Availability(count: nat, data: seq<DeviceAvailability>)

  datatype AvailabilityError = DateMissing

  /** `Device.find({ parlour })`: the parlour's devices, in stored order. */
  function DevicesOf(devices: seq<Device>, parlourId: string): (r: seq<Device>)
    ensures forall k :: 0 <= k < |r| ==> r[k].parlour == parlourId && r[k] in devices
    ensures forall i :: 0 <= i < |devices| && devices[i].parlour == parlourId ==> devices[i] in r
  {
    Sequences.Filter(devices, (d: Device) => d.parlour == parlourId)
  }

  /** `Booking.find({ date, status: { $ne: 'cancelled' } })`: that day's bookings over every parlour. */
  function DayBookings(bookings: seq<Booking>, day: int): (r: seq<Booking>)
    ensures forall k :: 0 <= k < |r| ==> r[k].date == day && Active(r[k]) && r[k] in bookings
    ensures forall i :: 0 <= i < |bookings| && bookings[i].date == day && Active(bookings[i]) ==> bookings[i] in r
  {
    Sequences.Filter(bookings, (b: Booking) => b.date == day && Active(b))
  }

  /** `isBooked`: some booking of the day is for this device and names this unit's id. */
  predicate UnitBooked(d: Device, u: ConsoleUnit, dayBookings: seq<Booking>)
  {
    exists i :: 0 <= i < |dayBookings| && dayBookings[i].device == d.id && dayBookings[i].consoleUnit == u.consoleId
  }

  /** `availableConsoleUnits.filter(unit => !unit.isBooked)`. */
  function FreeUnits(d: Device, dayBookings: seq<Booking>): (r: seq<ConsoleUnit>)
    ensures Sequences.Subsequence(r, d.consoleUnits)
    ensures forall j :: 0 <= j < |d.consoleUnits| ==>
              (d.consoleUnits[j] in r <==> !UnitBooked(d, d.consoleUnits[j], dayBookings))
    ensures forall k :: 0 <= k < |r| ==> !UnitBooked(d, r[k], dayBookings)
  {
    Sequences.Filter(d.consoleUnits, (u: ConsoleUnit) => !UnitBooked(d, u, dayBookings))
  }

  /** The whole endpoint: refused without a date, else one entry per device of the parlour. */
  function AvailableDevices(date: Option<int>, parlourId: string, devices: seq<Device>, bookings: seq<Booking>)
    : (r: Result<Availability, AvailabilityError>)
    ensures date.None? <==> r == Err(DateMissing)
    ensures r.Ok? ==> r.value.count == |r.value.data| == |DevicesOf(devices, parlourId)|
    ensures r.Ok? ==> forall k :: 0 <= k < |r.value.data| ==>
              && r.value.data[k].device == DevicesOf(devices, parlourId)[k]
              && r.value.data[k].availableConsoleUnits == FreeUnits(r.value.data[k].device, DayBookings(bookings, date.value))
  {
    match date
    case None => Err(DateMissing)
    case Some(day) =>
      var ds := DevicesOf(devices, parlourId);
      var dayBookings := DayBookings(bookings, day);
      var data := seq(|ds|, k requires 0 <= k < |ds| => DeviceAvailability(ds[k], FreeUnits(ds[k], dayBookings)));
      Ok(Availability(|data|, data))
  }

  /** Booked means: a booking of that date, not cancelled, for this device and this unit id. */
  lemma {:induction false} BookedIff(d: Device, u: ConsoleUnit, bookings: seq<Booking>, day: int)
    ensures UnitBooked(d, u, DayBookings(bookings, day)) <==>
      exists i :: 0 <= i < |bookings| && bookings[i].date == day && Active(bookings[i])
                  && bookings[i].device == d.id && bookings[i].consoleUnit == u.consoleId
  {
    var dbs := DayBookings(bookings, day);
    if UnitBooked(d, u, dbs) {
      var k :| 0 <= k < |dbs| && dbs[k].device == d.id && dbs[k].consoleUnit == u.consoleId;
      var i :| 0 <= i < |bookings| && bookings[i] == dbs[k];
    }
    if exists i :: 0 <= i < |bookings| && bookings[i].date == day && Active(bookings[i])
                   && bookings[i].device == d.id && bookings[i].consoleUnit == u.consoleId {
      var i :| 0 <= i < |bookings| && bookings[i].date == day && Active(bookings[i])
               && bookings[i].device == d.id && bookings[i].consoleUnit == u.consoleId;
      var k :| 0 <= k < |dbs| && dbs[k] == bookings[i];
    }
  }

  /** A booking for another device changes nothing about this device's free units. */
  lemma OtherDevicesIrrelevant(d: Device, dayBookings: seq<Booking>, b: Booking)
    requires b.device != d.id
    ensures FreeUnits(d, dayBookings + [b]) == FreeUnits(d, dayBookings)
  {
    var all := dayBookings + [b];
    forall j | 0 <= j < |d.consoleUnits|
      ensures UnitBooked(d, d.consoleUnits[j], all) == UnitBooked(d, d.consoleUnits[j], dayBookings)
    {
      var u := d.consoleUnits[j];
      if UnitBooked(d, u, all) {
        var i :| 0 <= i < |all| && all[i].device == d.id && all[i].consoleUnit == u.consoleId;
        assert i < |dayBookings| && all[i] == dayBookings[i];
      }
      if UnitBooked(d, u, dayBookings) {
        var i :| 0 <= i < |dayBookings| && dayBookings[i].device == d.id && dayBookings[i].consoleUnit == u.consoleId;
        assert all[i] == dayBookings[i];
      }
    }
    Sequences.FilterCongruent(d.consoleUnits, (u: ConsoleUnit) => !UnitBooked(d, u, all),
                              (u: ConsoleUnit) => !UnitBooked(d, u, dayBookings));
  }

  /** Times are not consulted: moving a booking to other hours of the same day frees nothing. */
  lemma TimesIgnored(d: Device, dayBookings: seq<Booking>, i: nat, start: string, end: string)
    requires i < |dayBookings|
    ensures FreeUnits(d, dayBookings[i := dayBookings[i].(startTime := start, endTime := end)]) == FreeUnits(d, dayBookings)
  {
    var moved := dayBookings[i := dayBookings[i].(startTime := start, endTime := end)];
    forall j | 0 <= j < |d.consoleUnits|
      ensures UnitBooked(d, d.consoleUnits[j], moved) == UnitBooked(d, d.consoleUnits[j], dayBookings)
    {
      var u := d.consoleUnits[j];
      if UnitBooked(d, u, moved) {
        var k :| 0 <= k < |moved| && moved[k].device == d.id && moved[k].consoleUnit == u.consoleId;
        assert dayBookings[k].device == d.id && dayBookings[k].consoleUnit == u.consoleId;
      }
      if UnitBooked(d, u, dayBookings) {
        var k :| 0 <= k < |dayBookings| && dayBookings[k].device == d.id && dayBookings[k].consoleUnit == u.consoleId;
        assert moved[k].device == d.id && moved[k].consoleUnit == u.consoleId;
      }
    }
    Sequences.FilterCongruent(d.consoleUnits, (u: ConsoleUnit) => !UnitBooked(d, u, moved),
                              (u: ConsoleUnit) => !UnitBooked(d, u, dayBookings));
  }

  /** The unit's status is not consulted: a unit under maintenance with no booking is listed as free. */
  lemma MaintenanceUnitListedFree()
    ensures
      var d := Device("d1", "p1", XboxOne, [ConsoleUnit("u1", Maintenance)], 6.0);
      FreeUnits(d, []) == [ConsoleUnit("u1", Maintenance)]
  {
    var d := Device("d1", "p1", XboxOne, [ConsoleUnit("u1", Maintenance)], 6.0);
    assert !UnitBooked(d, d.consoleUnits[0], []);
    assert d.consoleUnits[0] in FreeUnits(d, []);
  }
}
