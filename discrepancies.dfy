/**
 * Facts that span the server and the client: how the two availability rules differ, what
 * the server makes of a booking the page sends, and what it makes of the profile form.
 */
module Discrepancies {
  import opened Wrappers
  import opened TimeOfDay
  import BookingSchema
  import DeviceSchema
  import ParlourSchema
  import BookingController
  import DeviceController
  import ConsoleSelection
  import UserProfile
  import ProfileForm

  // ================================================================ availability: server against client

  /** The server withholds a unit for the whole day of any active booking that names it. */
  lemma ServerWithholdsBookedUnit(d: DeviceSchema.Device, j: nat, bookings: seq<BookingSchema.Booking>, i: nat)
    requires j < |d.consoleUnits| && i < |bookings|
    requires BookingSchema.Active(bookings[i])
    requires bookings[i].device == d.id && bookings[i].consoleUnit == d.consoleUnits[j].consoleId
    ensures d.consoleUnits[j] !in DeviceController.FreeUnits(d, DeviceController.DayBookings(bookings, bookings[i].date))
  {
    DeviceController.BookedIff(d, d.consoleUnits[j], bookings, bookings[i].date);
  }

  /** The page lets a booking block only the grid hours it overlaps. */
  lemma ClientFreesOtherHours(b: BookingSchema.Booking, h: nat)
    requires h < 24
    requires ParseTime(b.startTime).Some? && ParseTime(b.endTime).Some?
    requires ParseTime(b.startTime).value < ParseTime(b.endTime).value
    requires ParseTime(b.endTime).value <= h * 60 || (h + 1) * 60 <= ParseTime(b.startTime).value
    ensures !ConsoleSelection.ViewOverlapsSlot(BookingController.View(b), FormatTime(h * 60))
  {
    ParseFormat(h * 60);
  }

  /**
   * The two rules disagree both ways. A morning booking makes the server drop the unit for
   * the day while the page still offers its afternoon slots; a unit under maintenance is
   * listed free by the server while the page offers none of its slots.
   */
  lemma AvailabilityRulesDisagree()
    ensures
      var u := DeviceSchema.ConsoleUnit("u1", DeviceSchema.Available);
      var d := DeviceSchema.Device("d1", "p1", DeviceSchema.PlayStation5, [u], 5.0);
      var b := BookingSchema.Booking("b1", "u9", "p1", "d1", "u1", 3, "10:00", "11:00", 1.0, 5.0,
                                     BookingSchema.Pending, BookingSchema.PaymentPending, None, 0);
      && DeviceController.FreeUnits(d, DeviceController.DayBookings([b], 3)) == []
      && ConsoleSelection.SlotAvailable(u, "15:00", ConsoleSelection.Considered(BookingController.Views([b]), u))
    ensures
      var m := DeviceSchema.ConsoleUnit("u1", DeviceSchema.Maintenance);
      var d := DeviceSchema.Device("d1", "p1", DeviceSchema.PlayStation5, [m], 5.0);
      && DeviceController.FreeUnits(d, []) == [m]
      && !ConsoleSelection.SlotAvailable(m, "15:00", [])
  {
    var u := DeviceSchema.ConsoleUnit("u1", DeviceSchema.Available);
    var d := DeviceSchema.Device("d1", "p1", DeviceSchema.PlayStation5, [u], 5.0);
    var b := BookingSchema.Booking("b1", "u9", "p1", "d1", "u1", 3, "10:00", "11:00", 1.0, 5.0,
                                   BookingSchema.Pending, BookingSchema.PaymentPending, None, 0);
    ServerWithholdsBookedUnit(d, 0, [b], 0);
    var free := DeviceController.FreeUnits(d, DeviceController.DayBookings([b], 3));
    assert ParseTime("10:00") == Some(600) && ParseTime("11:00") == Some(660);
    assert FormatTime(15 * 60) == "15:00";
    ClientFreesOtherHours(b, 15);
    var c := ConsoleSelection.Considered(BookingController.Views([b]), u);
    assert forall k :: 0 <= k < |c| ==> c[k] == BookingController.View(b);
  }

  // ================================================================ a booking sent from the grid

  /** The server's reading of the page's request body; a missing unit arrives as the empty text. */
  function RequestOf(p: ConsoleSelection.Payload): (r: BookingController.CreateRequest)
    ensures r.parlour == p.parlour && r.device == p.device && r.date == p.date
    ensures r.startTime == p.startTime && r.endTime == p.endTime
    ensures r.consoleUnit == (if p.consoleUnit.Some? then p.consoleUnit.value else "")
    ensures r.user.None? && r.status.None? && r.paymentStatus.None? && r.specialRequests.None? && r.createdAt.None?
  {
    BookingController.CreateRequest(None, p.parlour, p.device, if p.consoleUnit.Some? then p.consoleUnit.value else "",
                                    p.date, p.startTime, p.endTime, None, None, None, None)
  }

  lemma OneHour(h: nat)
    ensures BookingController.Hours(h * 60, (h + 1) * 60) == 1.0
  {
    assert ((h + 1) * 60) as real - (h * 60) as real == 60.0;
  }

  /**
   * A free grid slot booked from the page passes the server's time checks as a one-hour
   * booking, quoted at the parlour's hourly price.
   */
  lemma SentGridSlotIsOneHour(selected: map<string, string>, views: seq<BookingController.BookingView>,
                              pr: ParlourSchema.Parlour, d: DeviceSchema.Device, u: DeviceSchema.ConsoleUnit,
                              date: int, h: nat)
    requires ConsoleSelection.FirstHour <= h <= ConsoleSelection.LastHour
    requires u.consoleId in selected && selected[u.consoleId] == FormatTime(h * 60)
    requires ConsoleSelection.SlotAvailable(u, FormatTime(h * 60), ConsoleSelection.Considered(views, u))
    ensures ConsoleSelection.HandleBooking(selected, views, pr.id, d, u, date).Send?
    ensures
      var a := ConsoleSelection.HandleBooking(selected, views, pr.id, d, u, date);
      BookingController.PriceRequest(RequestOf(a.payload), pr, d)
        == Ok(BookingController.Priced(pr, d, 1.0, BookingSchema.Cost(1.0, pr.price)))
  {
    ConsoleSelection.HandleBookingSendsGridSlot(selected, views, pr.id, d, u, date, h);
    ParseFormat(h * 60);
    ParseFormat((h + 1) * 60);
    OneHour(h);
  }

  // ================================================================ profile form against the profile endpoint

  /**
   * The form sends the current and new password to `PUT /api/users/profile`, which takes
   * only name, e-mail, phone and address: submitting the form changes name and e-mail and
   * never the password.
   */
  lemma FormSubmitKeepsPassword(u: UserProfile.User, v: ProfileForm.FormValues)
    ensures UserProfile.ApplyProfile(u, ProfileForm.SubmitBody(v)) == u.(name := v.name, email := v.email)
    ensures UserProfile.ApplyProfile(u, ProfileForm.SubmitBody(v)).password == u.password
  {
  }
}
