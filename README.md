# Gaming-parlour booking engine, modelled in Dafny

This project models the booking engine of a gaming-parlour reservation system: a web
client that shows hourly slots per console unit, and an HTTP server that stores parlours,
devices (console families with numbered units) and bookings. The model covers:

- the server's create-booking guard chain and the price it derives;
- the booking lifecycle (read, update, soft cancel) and the public per-parlour listing;
- the server's per-date availability of console units;
- the client's slot grid, its overlap test, its page state and its "Book Now" step;
- the three collection schemas with their enums, defaults, bounds and pre-save hook;
- the parlour search and parlour ownership rules;
- the user-profile endpoints and the profile form's validation.

Module by module:

- `TimeOfDay`: "HH:MM" texts, JavaScript string order, `parseInt`, `padStart`, `toString`.
  Lemma `LexOrderIsTimeOrder` proves that for zero-padded "HH:MM" texts string order is time order.
- `BookingSchema`, `DeviceSchema`, `ParlourSchema`: the documents, their validation
  (`Violations`, `Validate`) and their defaults. The booking collection is a class whose
  `Create` validates and then runs the pre-save hook.
- `BookingController`: `createBooking`'s guard chain (`CheckRequest`) and the method
  `CreateBooking` proved against it. Also the owner/admin rules of `getBooking`,
  `updateBooking` and `deleteBooking`, and the listings.
  `NoDoubleBooking` is the invariant that no unit is held by two active bookings whose
  times overlap on one day; creating and cancelling preserve it.
- `DeviceController`: `getAvailableDevices`.
- `ConsoleSelection`: the client page. It has two versions of the booking filter and of
  `handleBooking`: the code as written, and the evidently intended version.
- `ParlourController`: the search query built step by step (`BuildQuery`) and proved equal
  to a direct specification (`SearchSpec`). Also create, update and delete on a class
  holding the parlour collection.
- `UserProfile`: the profile whitelist, password change, picture upload, booking history
  and account deletion.
- `ProfileForm`: the Yup rules, the submitted body and the reset of the profile page.
- `Discrepancies`: facts that join server and client.

Representation choices:

- Times stay texts, because the server compares them as strings. `ParseTime` is what
  `new Date('2000-01-01T' + s)` yields for exactly "HH:MM" (00–23, 00–59); anything else
  is `None`, standing for an Invalid Date.
- Dates are day numbers. A day starts at the instant `day * 86 400 000` ms.
- The current instant, the maximum upload size, the file move's outcome, the password
  matcher and the e-mail format check are parameters.
- Every store is a `seq`, in insertion order.

Behaviour of the code that a reader might not expect, modelled as the code has it:

- A booking for today is refused: the day's midnight is already past (`StartedDayRejected`).
- The grid has 13 slots, 10:00 to 22:00.
- The conflict check runs before the end-after-start check (`ConflictPrecedesTimeChecks`).
- Only the owner may cancel; an admin may update but not cancel (`AdminCanUpdateButNotCancel`).
- Updates have no status transition table (`UpdateHasNoTransitionTable`).
- A `status` sent in the create body is kept (`CreateKeepsRequestedStatus`).

## Model

| member | source | states |
|---|---|---|
| `TimeOfDay.ParseTime` | backend/src/controllers/booking.js:96-97 | a time parses exactly when it is well-formed "HH:MM", and the result is a minute of the day |
| `TimeOfDay.ParseFormat` | backend/src/controllers/booking.js:96-97 | formatting a minute as "HH:MM" and parsing it back gives the minute |
| `TimeOfDay.FormatParse` | backend/src/controllers/booking.js:96-97 | parsing a valid "HH:MM" and formatting it back gives the same text, so texts and minutes are in bijection |
| `TimeOfDay.LexOrderIsTimeOrder` | backend/src/controllers/booking.js:85-86 | for two valid "HH:MM" texts, string less-than holds exactly when the first is the earlier time |
| `TimeOfDay.DigitOrder` | backend/src/controllers/booking.js:85-86 | digit characters compare as the digits they stand for |
| `TimeOfDay.NatToString` | frontend/src/pages/ConsoleSelection.js:80 | `toString` of a number is a non-empty run of decimal digits |
| `TimeOfDay.PadStart` | frontend/src/pages/ConsoleSelection.js:80 | `padStart` gives the longer of the text and the width, ends with the text and is padded on the left |
| `TimeOfDay.HourLabel` | frontend/src/pages/ConsoleSelection.js:80 | the padded label of an hour is that hour's zero-padded "HH:00" text |
| `TimeOfDay.UpTo` | frontend/src/pages/ConsoleSelection.js:189-190 | `split(c)[0]` is the longest prefix without `c`, followed by `c` when it is shorter than the text |
| `TimeOfDay.DigitPrefix` | frontend/src/pages/ConsoleSelection.js:190 | the part `parseInt` reads is the longest all-digit prefix |
| `TimeOfDay.ParseIntOfNatToString` | frontend/src/pages/ConsoleSelection.js:190 | `parseInt(n.toString())` gives `n` back |
| `TimeOfDay.WholeHourText` | frontend/src/pages/ConsoleSelection.js:190 | from 10 to 23 the unpadded `h + ':00'` already is the zero-padded time text |
| `TimeOfDay.HourOfText` | frontend/src/pages/ConsoleSelection.js:190 | the hour read back from a whole-hour slot text is that hour |
| `BookingSchema.ParseStatus` | backend/src/models/Booking.js:43-47 | exactly the four status names are accepted, each read as the status it names |
| `BookingSchema.StatusRoundTrip` | backend/src/models/Booking.js:43-47 | every status survives being written out and read back |
| `BookingSchema.ParsePaymentStatus` | backend/src/models/Booking.js:48-52 | exactly the three payment-status names are accepted, each read as the status it names |
| `BookingSchema.PaymentStatusRoundTrip` | backend/src/models/Booking.js:48-52 | every payment status survives being written out and read back |
| `BookingSchema.ViolationsExactlyNonConformance` | backend/src/models/Booking.js:3-59 | a draft has no violation exactly when every required path is given, both enums hold and special requests fit in 500 characters; a missing duration or unit and an overlong request are each reported |
| `BookingSchema.FromDraft` | backend/src/models/Booking.js:3-64 | every given path is stored as sent, under the given id; status and payment status default to pending or take the given name; `createdAt` defaults to the current instant only when the draft has none; special requests stay within 500 characters |
| `BookingSchema.PreSave` | backend/src/models/Booking.js:67-72 | only the total price can change; when the duration was modified it becomes duration times the device's hourly price; otherwise nothing changes |
| `BookingSchema.HookPrice` | backend/src/models/Booking.js:69 | the hook's price is a number exactly when `this.device` is a populated device |
| `BookingSchema.HookPriceMatchesPreSave` | backend/src/models/Booking.js:67-72 | with the device populated, the hook's price is the one `PreSave` stores |
| `BookingSchema.AsWrittenHookPriceIsNaN` | backend/src/controllers/booking.js:107 | the document `Booking.create` builds from an accepted body holds the device as a bare reference, so the hook's price is NaN |
| `BookingSchema.IndexOfId` | backend/src/controllers/booking.js:119-123 | the index found holds a booking with that id, and there is none exactly when no booking has it |
| `BookingSchema.BookingCollection.Create` | backend/src/models/Booking.js:3-72 | refused with the schema's violations exactly when the draft does not conform; otherwise the defaulted document, re-priced at the device rate, is appended and nothing else changes |
| `DeviceSchema.ParseDeviceType` | backend/src/models/Device.js:9-13 | exactly the nine console family names are accepted, each read as the family it names |
| `DeviceSchema.DeviceTypeRoundTrip` | backend/src/models/Device.js:9-13 | each family survives being written out and read back |
| `DeviceSchema.ParseUnitStatus` | backend/src/models/Device.js:19-23 | exactly 'available', 'in-use' and 'maintenance' are accepted |
| `DeviceSchema.UnitStatusRoundTrip` | backend/src/models/Device.js:19-23 | each unit status survives being written out and read back |
| `DeviceSchema.UnitViolations` | backend/src/models/Device.js:14-24 | the units have no violation exactly when every unit has a console id and a valid or absent status |
| `DeviceSchema.Validate` | backend/src/models/Device.js:3-29 | a device is accepted exactly when parlour, a listed type, every unit id and the hourly price are given and every status is valid; the stored device has the given id, parlour and hourly price; the units keep their ids and order, and a missing status becomes available |
| `DeviceSchema.DuplicateConsoleIdsAccepted` | backend/src/models/Device.js:14-18 | two units of one device may share a console id |
| `ParlourSchema.TrimStart` | backend/src/models/GamingParlour.js:7 | the text without its leading JavaScript white space and line terminators (the full ECMAScript set, no-break space and byte-order mark included), as a suffix of the original |
| `ParlourSchema.TrimEnd` | backend/src/models/GamingParlour.js:7 | the text without its trailing JavaScript white space and line terminators (the same set), as a prefix of the original |
| `ParlourSchema.TrimProperties` | backend/src/models/GamingParlour.js:7 | a trimmed name is no longer, has no surrounding whitespace, and trimming again changes nothing |
| `ParlourSchema.ConsoleViolations` | backend/src/models/GamingParlour.js:43-46 | the console list has no violation exactly when no entry is empty |
| `ParlourSchema.Validate` | backend/src/models/GamingParlour.js:3-68 | a parlour is accepted exactly when the trimmed name has 1 to 50 characters, the description is given and has at most 500, location, price and owner are given, the rating lies in [0, 5] and no console is empty; the stored parlour has the given id and the trimmed name, description, location, price, consoles, owner, rating and review count as sent, and rating and review count default to 0 |
| `ParlourSchema.NoBreakSpaceNameRefused` | backend/src/models/GamingParlour.js:4-8 | a name of one no-break space trims to the empty text and is refused as missing |
| `ParlourSchema.EmptyConsoleListAccepted` | backend/src/models/GamingParlour.js:43-46 | a parlour with no consoles at all is accepted |
| `BookingController.FindParlour` | backend/src/controllers/booking.js:51-54 | the parlour found has the requested id, and there is none exactly when no parlour has it |
| `BookingController.FindDevice` | backend/src/controllers/booking.js:57-60 | the device found has the requested id, and there is none exactly when no device has it |
| `BookingController.FindUnit` | backend/src/controllers/booking.js:63-66 | the unit found is the first whose console id equals the requested one exactly; there is none exactly when no unit has it |
| `BookingController.PriceRequest` | backend/src/controllers/booking.js:95-105 | accepted exactly when both times parse and the end is later; the duration is the positive difference in hours and the quote is duration times the parlour price |
| `BookingController.CheckRequest` | backend/src/controllers/booking.js:46-105 | a request is accepted exactly when parlour, device and an available unit of it are found, its day has not started, no booking conflicts and the times are in order; once the look-ups and the date check pass, it is refused as taken exactly when a booking conflicts, and otherwise it is priced by the time guard; an accepted request is priced at the found parlour; parlour-not-found and device-not-found are answered exactly when those look-ups fail |
| `BookingController.UnknownUnitRejected` | backend/src/controllers/booking.js:62-66 | a unit id the found device does not carry is refused as not found, whatever the rest of the request |
| `BookingController.CreateBooking` | backend/src/controllers/booking.js:46-113 | refusals of the guard chain or the schema store nothing; otherwise the stored booking is the requester's, built from the body, re-priced at the device rate, and appended; its creation time is the one the body gave, or the current instant; no double booking is introduced |
| `BookingController.BlocksIsOverlap` | backend/src/controllers/booking.js:78-89 | on valid times the overlap query matches exactly an active booking of the same device, unit and date whose interval overlaps the request |
| `BookingController.BackToBackNeverBlocks` | backend/src/controllers/booking.js:85-86 | a booking ending when the request starts, or starting when it ends, never conflicts |
| `BookingController.CancelledNeverBlocks` | backend/src/controllers/booking.js:82 | a cancelled booking never conflicts, and adding one changes no conflict |
| `BookingController.UnitStatusCheckedFirst` | backend/src/controllers/booking.js:67-69 | a found unit that is not available is refused for its status whatever the date, times and bookings |
| `BookingController.StartedDayRejected` | backend/src/controllers/booking.js:72-75 | a date whose start instant is before now is refused, by a lookup or as in the past |
| `BookingController.ConflictPrecedesTimeChecks` | backend/src/controllers/booking.js:91-102 | a conflicting request is never refused for its times |
| `BookingController.StoredPriceMatchesQuoteIff` | backend/src/models/Booking.js:69 | the stored price equals the controller's quote exactly when device and parlour rates agree |
| `BookingController.CreateKeepsRequestedStatus` | backend/src/controllers/booking.js:107 | a status given in the create body is stored as given |
| `BookingController.DeviceParlourNotChecked` | backend/src/controllers/booking.js:51-60 | a device of another parlour is accepted |
| `BookingController.AcceptedRequestKeepsNoDoubleBooking` | backend/src/controllers/booking.js:78-107 | a booking made from an accepted request with zero-padded times keeps every unit free of overlapping active bookings |
| `BookingController.GetBooking` | backend/src/controllers/booking.js:17-40 | the intended read check: the booking is returned exactly to its owner or an admin; not found exactly when no booking has the id |
| `BookingController.GetBookingAsWritten` | backend/src/controllers/booking.js:17-40 | as written, with `user` populated: not found exactly when no booking has the id, a server error exactly when its user no longer exists, and otherwise the booking or a refusal |
| `BookingController.AsWrittenOnlyAdminsRead` | backend/src/controllers/booking.js:33 | as written, a requester with an ObjectId reads a booking exactly when it exists, its user exists and the requester is an admin |
| `BookingController.AsWrittenOwnerRefused` | backend/src/controllers/booking.js:23-35 | the booking's own non-admin user is refused as written and served by the intended check |
| `BookingController.ApplyPatch` | backend/src/controllers/booking.js:135-138 | every path the body names, parlour, device and creation time included, holds the body's value afterwards and every other path its old value; only the id is fixed |
| `BookingController.UpdateDecision` | backend/src/controllers/booking.js:125-138 | accepted exactly for owner or admin, a booking neither completed nor cancelled, and a valid patch; the result is the patched booking |
| `BookingController.CancelDecision` | backend/src/controllers/booking.js:160-178 | accepted exactly for the owner and a booking neither completed nor cancelled; the result differs only in being cancelled |
| `BookingController.UpdateBooking` | backend/src/controllers/booking.js:118-144 | not found, refused or the patched booking written in place of the old one; nothing else changes |
| `BookingController.UpdateCanMoveDevice` | backend/src/controllers/booking.js:135-138 | a body naming another device moves an open booking there with no slot check |
| `BookingController.DeleteBooking` | backend/src/controllers/booking.js:149-191 | not found, refused or the booking cancelled in place; the collection keeps its length and stays free of double bookings |
| `BookingController.CancellingKeepsNoDoubleBooking` | backend/src/controllers/booking.js:177 | cancelling a booking never creates a double booking |
| `BookingController.AdminCanUpdateButNotCancel` | backend/src/controllers/booking.js:125-166 | an admin who does not own a booking may patch it but not cancel it |
| `BookingController.UpdateHasNoTransitionTable` | backend/src/controllers/booking.js:131-135 | an owner may set a confirmed booking back to pending and may mark it paid |
| `BookingController.UpdateCanBreakNoDoubleBooking` | backend/src/controllers/booking.js:135-138 | updating start and end time can make two active bookings of one unit overlap |
| `BookingController.Views` | backend/src/controllers/booking.js:229 | the listing shows, for each booking in order, its id, unit, times and status |
| `BookingController.ViewsContains` | backend/src/controllers/booking.js:229 | every booking listed appears in the listing |
| `BookingController.ParlourBookings` | backend/src/controllers/booking.js:213-242 | refused exactly without a date; otherwise the listing holds exactly the parlour's active bookings of that date |
| `BookingController.UserBookings` | backend/src/controllers/booking.js:196-208 | the user's bookings, all of them, in stored order |
| `DeviceController.DevicesOf` | backend/src/controllers/device.js:109 | exactly the parlour's devices |
| `DeviceController.DayBookings` | backend/src/controllers/device.js:112-115 | exactly the active bookings of that date, over every parlour |
| `DeviceController.FreeUnits` | backend/src/controllers/device.js:119-140 | the order-preserving sublist of the device's units that no day booking of this device names |
| `DeviceController.AvailableDevices` | backend/src/controllers/device.js:101-149 | refused exactly without a date; otherwise one entry per parlour device in order, each with its free units, and a count equal to the number of devices |
| `DeviceController.BookedIff` | backend/src/controllers/device.js:112-130 | a unit is booked exactly when an active booking of that date names this device and this unit's id |
| `DeviceController.OtherDevicesIrrelevant` | backend/src/controllers/device.js:120 | a booking of another device does not change a device's free units |
| `DeviceController.TimesIgnored` | backend/src/controllers/device.js:121-130 | moving a booking to other hours of the same day frees no unit |
| `DeviceController.MaintenanceUnitListedFree` | backend/src/controllers/device.js:127-136 | a unit under maintenance with no bookings is listed free |
| `ConsoleSelection.SlotLabels` | frontend/src/pages/ConsoleSelection.js:77-83 | 13 labels, the i-th being the zero-padded time text of hour 10 + i |
| `ConsoleSelection.GenerateTimeSlots` | frontend/src/pages/ConsoleSelection.js:77-83 | the loop builds exactly the 13 slot labels |
| `ConsoleSelection.LabelIsSlot` | frontend/src/pages/ConsoleSelection.js:80 | the label built for each hour is that hour's slot text |
| `ConsoleSelection.SlotLabelsAscending` | frontend/src/pages/ConsoleSelection.js:77-83 | slot labels are strictly ascending, both as times and as strings |
| `ConsoleSelection.ThreeWayIsHalfOpenOverlap` | frontend/src/pages/ConsoleSelection.js:99-111 | for a booking that ends after it starts, the three-way test is half-open overlap with the one-hour slot |
| `ConsoleSelection.AdjacentSlotsFree` | frontend/src/pages/ConsoleSelection.js:106-110 | a one-hour booking blocks its own slot and neither neighbouring slot |
| `ConsoleSelection.ThreeWayNeedsOrderedBooking` | frontend/src/pages/ConsoleSelection.js:106-110 | for a zero-length booking the test reports a slot as booked that half-open overlap would not |
| `ConsoleSelection.ConsideredAsWritten` | frontend/src/pages/ConsoleSelection.js:92-96 | the filter keeps only bookings whose unit equals the unit's `consoleUnitId` and whose listed date equals the selected one |
| `ConsoleSelection.Considered` | frontend/src/pages/ConsoleSelection.js:92-96 | the intended filter keeps exactly the listed bookings of the unit's console id |
| `ConsoleSelection.SlotAvailable` | frontend/src/pages/ConsoleSelection.js:85-114 | a slot is free exactly when the unit is not under maintenance and no considered booking overlaps it |
| `ConsoleSelection.GetTimeSlotStatus` | frontend/src/pages/ConsoleSelection.js:116-142 | a unit under maintenance shows every slot as 'Maintenance' |
| `ConsoleSelection.StatusAvailableIffSlotAvailable` | frontend/src/pages/ConsoleSelection.js:85-142 | a slot is shown 'Available' exactly when the slot test accepts it, and 'Maintenance' exactly for a unit under maintenance |
| `ConsoleSelection.AsWrittenEverySlotFree` | frontend/src/pages/ConsoleSelection.js:92-96 | as written, every slot of a unit not under maintenance is free whatever is booked |
| `ConsoleSelection.IntendedSlotAvailability` | frontend/src/pages/ConsoleSelection.js:85-114 | with the intended filter, a slot is free exactly when the unit is not under maintenance and no listed booking of that unit overlaps it |
| `ConsoleSelection.UnitStatusWording` | frontend/src/pages/ConsoleSelection.js:144-168 | 'available' and 'maintenance' get their own text and colour; 'in-use' is shown as 'Unknown' |
| `ConsoleSelection.Toggle` | frontend/src/pages/ConsoleSelection.js:170-172 | the same device collapses; any other becomes the expanded one |
| `ConsoleSelection.PageState.DeviceExpand` | frontend/src/pages/ConsoleSelection.js:170-172 | the expanded device toggles and the selections are untouched |
| `ConsoleSelection.PageState.TimeSlotSelect` | frontend/src/pages/ConsoleSelection.js:174-179 | exactly one key is set to the slot; every other selection and the expanded device stay |
| `ConsoleSelection.EndLabelOfGridSlot` | frontend/src/pages/ConsoleSelection.js:189-190 | for a grid slot the computed end is the next whole hour, zero-padded |
| `ConsoleSelection.EndLabelUnpaddedBeforeTen` | frontend/src/pages/ConsoleSelection.js:189-190 | for a start hour before nine, which the grid (10:00 to 22:00, see `EndLabelOfGridSlot`) never produces, the end label is one unpadded digit before ":00" and does not parse as a time |
| `ConsoleSelection.DecideBooking` | frontend/src/pages/ConsoleSelection.js:181-205 | no selection sends nothing; a request is sent only for a free slot, with the slot's start and the computed end |
| `ConsoleSelection.HandleBookingAsWritten` | frontend/src/pages/ConsoleSelection.js:181-205 | as written, the selection is read under the key "undefined" and any request carries no unit |
| `ConsoleSelection.AsWrittenBookingNeverSent` | frontend/src/pages/ConsoleSelection.js:183-196 | unless a selection was stored under the key "undefined", as written "Book Now" never sends a request |
| `ConsoleSelection.HandleBooking` | frontend/src/pages/ConsoleSelection.js:181-205 | the intended version reads the unit's console id and sends it |
| `ConsoleSelection.HandleBookingSendsGridSlot` | frontend/src/pages/ConsoleSelection.js:181-205 | a free selected grid slot is sent as a one-hour booking with both times zero-padded; a taken one is refused without a request |
| `ParlourController.Split` | backend/src/controllers/gamingParlour.js:173 | `split(',')` gives at least one piece and no piece holds a comma |
| `ParlourController.JoinSplit` | backend/src/controllers/gamingParlour.js:173 | joining the pieces with the separator gives the text back |
| `ParlourController.SplitJoin` | backend/src/controllers/gamingParlour.js:173 | splitting joined separator-free pieces gives the pieces back |
| `ParlourController.LowerText` | backend/src/controllers/gamingParlour.js:157-163 | lower-casing keeps the length and maps each character |
| `ParlourController.BuildQuery` | backend/src/controllers/gamingParlour.js:151-174 | the built query matches a parlour exactly when the parameters' specification does; it is empty exactly when no parameter is given; the text and price parts appear exactly when their parameters do |
| `ParlourController.EmptyQueryMatchesAll` | backend/src/controllers/gamingParlour.js:153 | the empty query matches every parlour |
| `ParlourController.SearchParlours` | backend/src/controllers/gamingParlour.js:149-189 | the result is exactly the matching parlours in stored order, with their count; with no parameters it is every parlour |
| `ParlourController.UpdateParlourDecision` | backend/src/controllers/gamingParlour.js:85-96 | refused exactly for someone neither owner nor admin; accepted exactly when the patched document validates, and then the result is that validated document, with the id kept, the owner, price and consoles from the patch when it names them, and the owner kept otherwise; a validation refusal carries the patched document's violations |
| `ParlourController.OwnerCanBeReassigned` | backend/src/controllers/gamingParlour.js:93-96 | an owner or admin can hand the parlour to another owner through the update body |
| `ParlourController.IndexOfParlour` | backend/src/controllers/gamingParlour.js:76-83 | the index found holds a parlour with that id, and there is none exactly when no parlour has it |
| `ParlourController.ParlourCollection.Create` | backend/src/controllers/gamingParlour.js:52-69 | the requester becomes the owner whatever the body says; a valid parlour is appended, an invalid one changes nothing |
| `ParlourController.ParlourCollection.Update` | backend/src/controllers/gamingParlour.js:74-108 | not found; or the decision on the stored parlour, written in place only when it succeeds |
| `ParlourController.ParlourCollection.Delete` | backend/src/controllers/gamingParlour.js:113-144 | not found or not owner or admin changes nothing; otherwise the parlour is removed and the others kept in order |
| `UserProfile.ApplyProfile` | backend/src/controllers/userProfile.js:22-33 | only name, e-mail, phone and address take the body's values, an absent one kept; id, password, photo and role never change |
| `UserProfile.OnlyWhitelistMatters` | backend/src/controllers/userProfile.js:23-28 | two bodies agreeing on the four whitelisted fields update a user identically |
| `UserProfile.UserCollection.IndexOf` | backend/src/controllers/userProfile.js:45 | the index found holds the user with that id, and there is none exactly when no user has it |
| `UserProfile.UserCollection.UpdateProfile` | backend/src/controllers/userProfile.js:22-39 | the requester's record is replaced by the whitelisted update; nothing else changes |
| `UserProfile.UserCollection.UpdatePassword` | backend/src/controllers/userProfile.js:44-56 | a wrong current password is refused and nothing changes; otherwise only the requester's password is replaced |
| `UserProfile.LastIndexOf` | backend/src/controllers/userProfile.js:97 | the position of the last occurrence, and none exactly when the character does not occur |
| `UserProfile.BaseName` | backend/src/controllers/userProfile.js:97 | the base name holds no '/' |
| `UserProfile.Ext` | backend/src/controllers/userProfile.js:97 | the extension is empty or a '.' followed by no other '.', and holds no '/' |
| `UserProfile.PhotoName` | backend/src/controllers/userProfile.js:97 | the stored name is "photo_", the user id and the original extension |
| `UserProfile.PhotoNameKeepsExtension` | backend/src/controllers/userProfile.js:97 | for a user id without '.' or '/', the stored name has the original file's extension |
| `UserProfile.CheckUpload` | backend/src/controllers/userProfile.js:79-97 | no file, then a non-image type, then an oversize file, each refused exactly in that order; otherwise the photo name |
| `UserProfile.UserCollection.UploadPicture` | backend/src/controllers/userProfile.js:79-112 | refusals and a failed move change nothing; otherwise the requester's photo becomes the new name |
| `UserProfile.CancelPendingOf` | backend/src/controllers/userProfile.js:121-124 | each pending booking of the user becomes cancelled, every other booking stays |
| `UserProfile.CancelPendingOfMeaning` | backend/src/controllers/userProfile.js:121-124 | afterwards the user has no pending booking, other bookings and other fields are unchanged, and a second run changes nothing |
| `UserProfile.CancelPendingKeepsNoDoubleBooking` | backend/src/controllers/userProfile.js:121-124 | the bulk cancel keeps every unit free of double bookings |
| `UserProfile.InsertNewestFirst` | backend/src/controllers/userProfile.js:67 | inserting into a newest-first list keeps it newest-first and adds exactly that booking |
| `UserProfile.SortNewestFirst` | backend/src/controllers/userProfile.js:67 | the result is newest-first and a permutation of the input |
| `UserProfile.BookingHistory` | backend/src/controllers/userProfile.js:61-74 | newest first, only the requester's bookings, all of them, each exactly as often as stored |
| `UserProfile.UserCollection.Remove` | backend/src/controllers/userProfile.js:126 | the record is removed and the others kept in order |
| `UserProfile.DeleteUserAccount` | backend/src/controllers/userProfile.js:117-132 | the user's pending bookings are cancelled first, then the user is removed if present; no double booking is introduced |
| `ProfileForm.Prepared` | frontend/src/pages/Profile.js:30-48 | an empty field reaches the rules as undefined |
| `ProfileForm.Errors` | frontend/src/pages/Profile.js:30-48 | a message is shown under name, e-mail, new password and confirmation exactly when that field's rules fail |
| `ProfileForm.SubmittableIff` | frontend/src/pages/Profile.js:30-48 | the form submits exactly when name and a well-formed e-mail are given, a current password comes with a new one, a new one has at least 6 characters and is confirmed by an equal text |
| `ProfileForm.EmptyConfirmationReportsMismatch` | frontend/src/pages/Profile.js:41-47 | an empty confirmation of a new password is reported as a mismatch; 'Please confirm your new password' is never the message shown |
| `ProfileForm.SubmitBody` | frontend/src/pages/Profile.js:51-52 | the body carries name, e-mail and both passwords, and nothing else |
| `ProfileForm.SubmitBodyOmitsConfirmation` | frontend/src/pages/Profile.js:51 | forms differing only in the confirmation send the same body |
| `ProfileForm.AfterSubmit` | frontend/src/pages/Profile.js:55-62 | after a successful submit the three password fields are empty and name and e-mail are kept |
| `ProfileForm.AfterSubmitSubmittable` | frontend/src/pages/Profile.js:55-62 | the reset form can be submitted again, and resetting twice is resetting once |
| `Discrepancies.ServerWithholdsBookedUnit` | backend/src/controllers/device.js:119-140 | any active booking of a unit removes it from the server's free list for that whole day |
| `Discrepancies.ClientFreesOtherHours` | frontend/src/pages/ConsoleSelection.js:99-111 | the page lets a booking block only the slots it overlaps |
| `Discrepancies.AvailabilityRulesDisagree` | backend/src/controllers/device.js:127-130 | the server drops a unit booked in the morning while the page offers its afternoon, and the server lists a unit under maintenance that the page offers no slot of |
| `Discrepancies.RequestOf` | backend/src/controllers/booking.js:46 | the server reads the page's payload field by field; a missing unit arrives empty |
| `Discrepancies.SentGridSlotIsOneHour` | backend/src/controllers/booking.js:95-105 | a free grid slot sent from the page passes the time guard as exactly one hour, quoted at the parlour's hourly price |
| `Discrepancies.FormSubmitKeepsPassword` | frontend/src/pages/Profile.js:51-52 | the profile form's submission changes name and e-mail and never the password |

## Left out

- I/O, HTTP routing and middleware, and the database driver are not modelled. The
  collections are sequences.
- `populate` is modelled in two places only: the pre-save hook's `this.device` (see
  Findings) and `getBooking`'s `user` (see Findings). `BookingController.CreateBooking` uses
  the corrected hook, which prices at the requested device's hourly rate; what Mongoose does
  with a NaN price is not modelled.
- `DocumentText`: the text of a populated user document is modelled by its opening brace;
  the rest of Node's inspection format is not modelled.
- `UserProfile.CheckUpload`: `req.files` present without a `file` field makes
  `file.mimetype` throw (userProfile.js:84-87) and the request fail with a server error;
  `Option<UploadedFile>` does not express that case.
- The current time, `process.env.MAX_FILE_UPLOAD`, the outcome of `file.mv`, `matchPassword`
  and `sendTokenResponse` are parameters or left out. `models/User.js` is not part of this
  model, so password hashing is folded into `matchPassword`.
- Concurrency is not modelled. The overlap query and the insert are separate awaited
  steps, and the race between them is out of scope.
- JavaScript `Date` parsing and time zones:
  - a booking date is a day number;
  - the listing of bookings by date compares day numbers;
  - a time is read only in the exact form "HH:MM" (no seconds, no "24:00");
  - time zones and floating-point millisecond arithmetic are left out, and durations are
    exact reals.
- String order is on Dafny characters, which matches JavaScript for the ASCII texts used
  as times. UTF-16 surrogate order, and the locale and Unicode rules of lower-casing, are
  not modelled.
- `ParlourController.BuildQuery`: `$regex` with option `i` is modelled as case-insensitive
  substring containment on ASCII letters. Regular-expression syntax in user input is not
  interpreted.
- `ParlourController.SearchParlours`: the query-string prices are taken as numbers. Mongo's
  casting of the text values is not modelled.
- `ProfileForm.Errors`: Yup's `.email()` check is the parameter `isEmail`. Where several
  rules of one field fail, the first declared rule's message is taken as the one shown.
- `UserProfile.Ext`: `path.parse` is modelled on the last '/' and the last '.'.
  Trailing separators and Windows paths are not modelled.
- `UserProfile.ApplyProfile`: a field the body omits is modelled as kept. Mongoose drops
  undefined paths from an update.
- The `Date` schema casts are not modelled. `specialRequests` is counted in characters,
  not UTF-16 units.
- Schema paths that the booking engine never reads are not modelled: parlour address,
  images, amenities, opening hours and `createdAt`, and booking `paymentId`.
- Endpoints outside the booking engine are not modelled. They are plain reads or writes
  with no rule of their own:
  - `getBookings`, which is the `advancedResults` middleware;
  - `getDevices`, `getDevice`, `createDevice`, `updateDevice`, `deleteDevice` and
    `getParlourDevices` in device.js;
  - `getParlours` and `getParlour` in gamingParlour.js;
  - `getUserProfile` in userProfile.js.
- The client page shows every unit of `device.consoleUnits`, and a slot selector only for
  an available unit (ConsoleSelection.js:280,303). It never reads the server's
  `availableConsoleUnits`. Rendering, toasts and navigation are not modelled.
- `BookingController.CreateBooking` and the other methods that use `old`, `fresh` or
  `modifies` are specified by their whole new state. The listed invariants are proved
  beside them.

## Findings

| source | as written | input that shows it | evidently intended | confidence | as-written member | corrected member |
|---|---|---|---|---|---|---|
| frontend/src/pages/ConsoleSelection.js:92-96 | bookings are filtered on `consoleUnit.consoleUnitId` and `booking.date`. Units carry `consoleId`, and the listing does not select `date`, so both reads are undefined and no booking is ever considered | unit "u1", listed booking of "u1" 10:00–11:00: slot "10:00" is shown Available | consider the listed bookings (already those of the selected date) whose unit is the unit's `consoleId`; the listing carries no device, so units of different devices that share a `consoleId` block each other's slots | not executed | `ConsoleSelection.AsWrittenEverySlotFree` | `ConsoleSelection.IntendedSlotAvailability` |
| frontend/src/pages/ConsoleSelection.js:183 | `handleBooking` reads the selection under `consoleUnit.consoleUnitId`, i.e. the key "undefined", while the grid stores selections under `unit.consoleId` (line 309) | a slot "10:00" selected for unit "u1": "Book Now" reports that no slot is selected | read the selection, and send the unit, under `consoleId` | not executed | `ConsoleSelection.AsWrittenBookingNeverSent` | `ConsoleSelection.HandleBookingSendsGridSlot` |
| backend/src/controllers/booking.js:23-35 | `getBooking` populates `user` before the owner test, so `booking.user.toString()` is the user document's text, never the requester's id; a booking whose user was deleted makes `toString` throw | the booking's own user, not an admin, reads it: refused with 401 | the owner or an admin reads the booking, as `updateBooking` (booking.js:119-128, no populate) allows | not executed; medium | `BookingController.AsWrittenOnlyAdminsRead` | `BookingController.GetBooking` |
| backend/src/models/Booking.js:67-72 | `createBooking` never populates `device` (booking.js:57, 107), so the hook's `this.device.pricePerHour` is undefined and the re-computed price is NaN | any request the guard chain accepts | the hook prices the booking at the booked device's hourly rate | not executed; medium | `BookingSchema.AsWrittenHookPriceIsNaN` | `BookingSchema.HookPriceMatchesPreSave` |
