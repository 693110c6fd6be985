# Hoarding booking admission, modelled in Dafny

BMS is a hoarding (billboard) booking system. An Express/Mongoose backend keeps
hoardings and bookings in MongoDB, and a React front end lets users browse hoardings,
request bookings and manage them. This project models the part of BMS that decides
which bookings are admitted, what they cost, and how the two pages that drive it react:

- **`Base`** (`base.dfy`): `Option`, document ids, the `user`/`admin` roles, and the
  outcome of an API call as the front end sees it.
- **`Days`** (`days.dfy`): JavaScript's `Math.ceil` on a quotient, modelled on reals and
  proved equal to integer ceiling division.
- **`HoardingModel`** (`hoarding_model.dfy`): the hoarding schema. It holds the
  `trim` setter on `location`, the validity predicate and the status enum with its
  default.
- **`BookingModel`** (`booking_model.dfy`): the booking schema. It holds the two date
  validators, the status and payment status enums, the `totalAmount` minimum, the
  pricing rule, and a `BookingDocument` class whose pre-save hook assigns
  `totalAmount` in place.
- **`BookingRules`** (`booking_rules.dfy`): the overlap query `hasOverlappingBooking`,
  the owner-or-admin guard, the listing filter, and the intended invariant that no two
  live bookings of a hoarding intersect.
- **`HoardingRules`** (`hoarding_rules.dfy`): the document a create request builds, and
  the `||` fall-back merge of an update.
- **`Backend`** (`store.dfy`): a `Store` class with two maps (hoarding id to hoarding,
  booking id to booking) and a fresh-id counter. Every handler of the two routers is a
  method; the state-changing ones update the maps, the read handlers change nothing. A `Valid()` invariant says every stored hoarding passes
  its schema with a trimmed location, and every stored booking meets the booking
  constraints that do not read the clock.
- **`ErrorMiddleware`** (`error_handler.dfy`): `errorHandler` as a first-match
  classification from an error object to a status code and a body.
- **`HoardingsPage`** (`hoardings_page.dfy`): the booking dialog's React state as a
  class. Its `Submit` first runs the page's checks, in order, and only then sends the
  create request.
- **`BookingsPage`** (`bookings_page.dfy`): the page's own copy of the pricing rule, the
  status chip colours, and the delete-confirmation dialog as a class.
- **`Scenarios`** (`scenarios.dfy`): concrete runs against the store, for example a
  double booking admitted by the handler as written.

Dates are integer milliseconds and the clock reading `now` is an input. The caller's id
and role are also inputs: the authentication middleware is not part of this model. What
an API call returns to a page is an input to the page's methods. Each route handler runs
as one atomic step on the store.

## Design choices

- The route handlers catch every exception themselves and answer `500 Server error`. A
  booking or hoarding that fails schema validation on save is therefore a 500, not the
  400 that `errorHandler` would give a `ValidationError`.
- The overlap query uses inclusive bounds on both sides. A range that starts at the
  instant another one ends counts as overlapping (`TouchingRangesOverlap`).
- The model applies the strict start-date check only when a booking is created. On a
  status update it re-checks only the constraints that do not read the clock
  (`WellFormed`).

## Model

| member | source | states |
|---|---|---|
| Days.Ceil | bms-backend/models/Booking.js:81-83 | `Math.ceil` of a real: the least integer at or above it |
| Days.CeilDiv | bms-backend/models/Booking.js:81-83 | the ceiling of an integer quotient: the least q with n ≤ q·d |
| Days.CeilOfQuotient | bms-backend/models/Booking.js:81-83 | `Math.ceil(n / d)` on reals equals integer ceiling division |
| HoardingModel.Trim | bms-backend/models/Hoarding.js:10 | the trim setter: no white space is left at either end, and the result is empty exactly when the input was all white space |
| HoardingModel.TrimRemovesOuterSpace | bms-backend/models/Hoarding.js:10 | the trimmed location is the input's slice from some offset i, with only white space before i and after the slice |
| HoardingModel.Trimmed | bms-backend/models/Hoarding.js:10 | no white space at either end: what the trim setter stores |
| HoardingModel.TrimIdempotent | bms-backend/models/Hoarding.js:10 | trimming an already stored location changes nothing |
| HoardingModel.ValidHoarding | bms-backend/models/Hoarding.js:7-58 | a non-empty location, width and height at least 1, price at least 0, a status from the enum, and a creator reference |
| HoardingModel.MarkBookedKeepsValid | bms-backend/models/Hoarding.js:35-39 | writing `booked` into a valid hoarding leaves it valid, because `booked` is in the status enum |
| HoardingModel.CreatorRequired | bms-backend/models/Hoarding.js:54-58 | a hoarding without `createdBy` is never valid |
| BookingModel.StartsInFuture | bms-backend/models/Booking.js:24-29 | the start date is strictly after the clock reading |
| BookingModel.EndsAfterStart | bms-backend/models/Booking.js:35-41 | the end date is strictly after the start date |
| BookingModel.WellFormed | bms-backend/models/Booking.js:33-63 | the constraints that do not read the clock: end after start, status and payment status from their enums, and a totalAmount that is present and at least 0 |
| BookingModel.ValidBooking | bms-backend/models/Booking.js:21-63 | every schema constraint at a clock reading: the start is in the future and the booking is well formed |
| BookingModel.DurationDays | bms-backend/models/Booking.js:81-83 | `Math.ceil` of the span divided by the milliseconds of a day |
| BookingModel.TotalAmount | bms-backend/models/Booking.js:84 | the day count times the daily price |
| BookingModel.DurationCoversSpan | bms-backend/models/Booking.js:81-83 | the day count is the least number of whole days covering the span |
| BookingModel.DurationAtLeastOneDay | bms-backend/models/Booking.js:81-83 | a range that ends after it starts lasts at least one day |
| BookingModel.ShortBookingCostsOneDay | bms-backend/models/Booking.js:81-84 | a booking of at most one day costs exactly one day's price |
| BookingModel.TotalAtLeastPrice | bms-backend/models/Booking.js:52-56 | for end > start and price ≥ 0, totalAmount ≥ price ≥ 0, so the `min: 0` constraint is met |
| BookingModel.TotalLinearInDays | bms-backend/models/Booking.js:81-84 | moving the end by k whole days changes totalAmount by exactly k × price |
| BookingModel.BookingDocument.constructor | bms-backend/models/Booking.js:59-63 | a new document carries the given fields, no amount yet, and the default payment status `pending` |
| BookingModel.BookingDocument.Load | bms-backend/routes/bookings.js:117 | a document loaded by `findById` carries exactly the stored booking |
| BookingModel.BookingDocument.PreSave | bms-backend/models/Booking.js:77-88 | when either date was modified and the hoarding exists, totalAmount is the rounded-up day count times the hoarding's price; otherwise it is unchanged; no other field changes |
| BookingRules.Live | bms-backend/routes/bookings.js:12 | the status is `pending` or `approved` |
| BookingRules.OverlapCases | bms-backend/routes/bookings.js:13-29 | the new range starts inside the existing one, ends inside it, or encloses it |
| BookingRules.Conflicts | bms-backend/routes/bookings.js:10-29 | one stored booking matches the query: same hoarding, live status, and one of the three `$or` cases |
| BookingRules.HasOverlappingBooking | bms-backend/routes/bookings.js:8-33 | some stored booking of the hoarding, `pending` or `approved`, meets one of the three `$or` cases |
| BookingRules.OverlapIsIntersection | bms-backend/routes/bookings.js:13-29 | for ordered ranges the three-case `$or` holds exactly when the closed intervals intersect |
| BookingRules.TouchingRangesOverlap | bms-backend/routes/bookings.js:15-18 | a range starting at the instant an existing one ends counts as overlapping |
| BookingRules.OverlapQueryIsIntersection | bms-backend/routes/bookings.js:8-33 | over ordered stored ranges, the query finds a match exactly when a live booking of the same hoarding intersects the new range |
| BookingRules.UnclaimedBookingsNeverCount | bms-backend/routes/bookings.js:10-12 | bookings whose status is neither `pending` nor `approved` never change the query's answer |
| BookingRules.NoDoubleBooking | bms-backend/routes/bookings.js:7-9 | the invariant the overlap helper is written to keep: no two live bookings of one hoarding intersect |
| BookingRules.CheckedInsertKeepsNoDoubleBooking | bms-backend/routes/bookings.js:8-33 | inserting a booking the query found no clash for keeps every pair of live bookings of a hoarding disjoint |
| BookingRules.MayAccess | bms-backend/routes/bookings.js:67 | the caller is an admin or the booking's owner; the same guard is at line 150 |
| BookingRules.OwnedBy | bms-backend/routes/bookings.js:44 | exactly the bookings whose user is the caller, with their stored values |
| BookingRules.Visible | bms-backend/routes/bookings.js:41-45 | every booking for an admin, the caller's own otherwise |
| BookingRules.ListingMatchesAccess | bms-backend/routes/bookings.js:41-45 | the listing shows exactly the bookings the owner-or-admin guard would let the caller fetch |
| HoardingRules.CreateStatus | bms-backend/routes/hoardings.js:45 | no status supplied gives `available`; a supplied status is kept |
| HoardingRules.Draft | bms-backend/routes/hoardings.js:41-46 | a document exists exactly when size and price are supplied; it carries the trimmed location, the size and the price of the request, the given creator, and the supplied status or `available` when none is supplied |
| HoardingRules.CreateRequestNeverValid | bms-backend/routes/hoardings.js:41-47 | no request body makes the create handler's document valid, since it has no creator |
| HoardingRules.SuppliedPrice | bms-backend/routes/hoardings.js:69 | a price counts as supplied only when it is present and not 0, as JavaScript's truthiness has it |
| HoardingRules.Merged | bms-backend/routes/hoardings.js:67-70 | each of location, size, price and status takes the request's value when truthy and the stored one otherwise; the location goes through the trim setter |
| HoardingRules.MergeKeepsStoredLocation | bms-backend/routes/hoardings.js:67 | an empty location keeps the stored, already trimmed location |
| HoardingRules.MergeKeepsUnsuppliedFields | bms-backend/routes/hoardings.js:68-70 | no size, price 0 or an empty status keeps the stored value; the creator is never touched |
| HoardingRules.MergeFallsBack | bms-backend/routes/hoardings.js:67-70 | a falsy value (empty location, price 0, no size, empty status) keeps the stored value; the creator is never touched |
| HoardingRules.MergeNeverZeroesPrice | bms-backend/routes/hoardings.js:69 | an update cannot bring a non-zero price down to 0 |
| HoardingRules.MergeIdempotent | bms-backend/routes/hoardings.js:67-70 | applying the same update body twice gives what applying it once gives |
| HoardingRules.MergeKeepsLocationTrimmed | bms-backend/routes/hoardings.js:67 | the merged location is trimmed |
| HoardingRules.MergeKeepsValid | bms-backend/routes/hoardings.js:67-72 | a valid hoarding stays valid after an update whose supplied values each meet their own field's constraint |
| Backend.DatesAdmissible | bms-backend/models/Booking.js:21-42 | both dates are present and pass the two date validators |
| Backend.AdmittedBooking | bms-backend/routes/bookings.js:95-101 | the booking the create handler saves: the caller's, `pending`, priced by the pre-save hook, with the default payment status |
| Backend.StoredHoarding | bms-backend/models/Hoarding.js:7-58 | a hoarding as a save leaves it: valid, with a trimmed location |
| Backend.Store.constructor | bms-backend/routes/bookings.js:3-4 | the two collections start empty, and the empty store satisfies the store invariant |
| Backend.Store.ListBookings | bms-backend/routes/bookings.js:38-51 | 200 with every booking for an admin, and exactly the caller's own bookings otherwise |
| Backend.Store.GetBooking | bms-backend/routes/bookings.js:56-76 | 404 for an unknown id, 403 unless admin or owner, otherwise that booking |
| Backend.Store.SaveNewBooking | bms-backend/routes/bookings.js:95-104 | the booking is stored under a fresh id, priced and `pending`, exactly when both dates pass the validators; otherwise 500 and no change |
| Backend.Store.CreateBooking | bms-backend/routes/bookings.js:81-109 | 404 for an unknown hoarding and 400 for an unavailable one, both with no change; a missing date or one that fails a validator is 500 with no change; otherwise one `pending` booking of the caller is inserted without consulting the overlap query; hoardings never change |
| Backend.Store.CreateBookingChecked | bms-backend/routes/bookings.js:8-33 | the admission with the overlap query consulted before the save: a clash is refused with 400 and the store stays free of double bookings |
| Backend.Store.UpdateBookingStatus | bms-backend/routes/bookings.js:114-136 | 404 for an unknown id; a status outside the enum is a 500; otherwise the status is overwritten whatever it was, and only `approved` marks the referenced hoarding `booked` |
| Backend.Store.DeleteBooking | bms-backend/routes/bookings.js:141-160 | 404 for an unknown id, 403 unless admin or owner, otherwise exactly that booking is removed and hoardings are untouched |
| Backend.Store.ListHoardings | bms-backend/routes/hoardings.js:9-17 | 200 with every hoarding |
| Backend.Store.GetHoarding | bms-backend/routes/hoardings.js:22-33 | 404 for an unknown id, otherwise that hoarding |
| Backend.Store.SaveNewHoarding | bms-backend/routes/hoardings.js:47-48 | a valid document is stored under a fresh id; anything else is 500 with no change |
| Backend.Store.CreateHoarding | bms-backend/routes/hoardings.js:38-53 | as written, every create request answers 500 and stores nothing |
| Backend.Store.CreateHoardingBy | bms-backend/routes/hoardings.js:38-53 | with the admin as creator, a request whose document passes the schema is stored with status the supplied status, or `available` when none is supplied; otherwise 500 and no change |
| Backend.Store.UpdateHoarding | bms-backend/routes/hoardings.js:58-78 | 404 for an unknown id; otherwise the target becomes the falsy-fallback merge of the request (500 if that fails the schema), and no other record changes |
| Backend.Store.SaveHoarding | bms-backend/routes/hoardings.js:72-73 | a fetched hoarding that passes the schema replaces the stored one; nothing else changes |
| Backend.Store.DeleteHoarding | bms-backend/routes/hoardings.js:83-97 | 404 for an unknown id, otherwise exactly that hoarding is removed and bookings that reference it stay |
| ErrorMiddleware.HasCustomStatus | bms-backend/middleware/error.js:36 | `if (err.status)`: a status that is present and not 0 |
| ErrorMiddleware.IsTokenError | bms-backend/middleware/error.js:23-33 | the name is `JsonWebTokenError` or `TokenExpiredError` |
| ErrorMiddleware.HandleError | bms-backend/middleware/error.js:2-46 | first match wins: ValidationError → 400 with every field message; code 11000 → 400 naming the first duplicated key; the token errors → 401; a custom status → that status and message; otherwise 500 |
| ErrorMiddleware.StatusComesFromBranch | bms-backend/middleware/error.js:6-46 | every error gets one answer, with status 400, 401, 500 or the error's own status |
| ErrorMiddleware.ValidationWins | bms-backend/middleware/error.js:6-12 | a ValidationError is a 400 with its field messages, even when it carries its own status |
| ErrorMiddleware.DetailOnlyInDevelopment | bms-backend/middleware/error.js:43-46 | the error detail is in the body exactly for fall-through errors in development |
| ErrorMiddleware.MessageHiddenOutsideDevelopment | bms-backend/middleware/error.js:36-46 | outside development the answer to an error without its own status does not depend on its message |
| HoardingsPage.SubmitError | bms-ui/src/pages/Hoardings.jsx:69-85 | names the first failing check: a missing date, then start ≥ end, then start < now; none exactly when both dates are set and now ≤ start < end |
| HoardingsPage.ServerValidDatesPassPage | bms-ui/src/pages/Hoardings.jsx:81-85 | with the page's clock reading no later than the server's, dates the server's validators accept always pass the page's checks |
| HoardingsPage.PageAndServerDisagreeOnlyBetweenClocks | bms-ui/src/pages/Hoardings.jsx:81-85 | with the page's clock reading pageNow no later than the server's serverNow, the page passes and the server's strict `startDate > now` rejects exactly when pageNow ≤ start ≤ serverNow and start < end |
| HoardingsPage.BookEnabled | bms-ui/src/pages/Hoardings.jsx:161 | the Book button is enabled exactly when the hoarding's status is `available` |
| HoardingsPage.BookingDialog.constructor | bms-ui/src/pages/Hoardings.jsx:33-37 | the dialog starts closed, with no selection, dates or error |
| HoardingsPage.BookingDialog.BookingClick | bms-ui/src/pages/Hoardings.jsx:161 | the button does nothing unless the hoarding is `available`; then it selects the hoarding and opens the dialog |
| HoardingsPage.BookingDialog.ChangeStartDate | bms-ui/src/pages/Hoardings.jsx:196 | the picker sets the start date |
| HoardingsPage.BookingDialog.ChangeEndDate | bms-ui/src/pages/Hoardings.jsx:203 | the picker sets the end date |
| HoardingsPage.BookingDialog.CloseDialog | bms-ui/src/pages/Hoardings.jsx:60-66 | closes the dialog and resets the selection, both dates and the error |
| HoardingsPage.BookingDialog.Submit | bms-ui/src/pages/Hoardings.jsx:68-100 | a failing check shows its message and sends nothing; otherwise exactly one request with the selected id and both dates; success closes the dialog and navigates; failure shows the server's message or the fallback |
| BookingsPage.CalculateTotalPrice | bms-ui/src/pages/Bookings.jsx:140-145 | `Math.ceil` of the span in days, times the hoarding's daily price as the page fetched it |
| BookingsPage.PagePriceMatchesBackend | bms-ui/src/pages/Bookings.jsx:140-145 | the page's price equals the backend's totalAmount rule for the same dates and rate |
| BookingsPage.PagePriceAtLeastDailyPrice | bms-ui/src/pages/Bookings.jsx:143-144 | for end > start and price ≥ 0 the shown price is at least the daily price |
| BookingsPage.PagePriceAgreesIffRateUnchanged | bms-ui/src/pages/Bookings.jsx:144 | priced at the hoarding's current rate, the page matches the stored totalAmount exactly when the rate has not changed since booking |
| BookingsPage.StatusColor | bms-ui/src/pages/Bookings.jsx:122-133 | approved → success, pending → warning, rejected → error, and `default` exactly for statuses outside the enum |
| BookingsPage.StatusColorsDistinguishEnum | bms-ui/src/pages/Bookings.jsx:122-133 | different statuses of the enum get different colours |
| BookingsPage.DeleteDialog.constructor | bms-ui/src/pages/Bookings.jsx:43-44 | the dialog starts closed with no target |
| BookingsPage.DeleteDialog.DeleteClick | bms-ui/src/pages/Bookings.jsx:88-91 | only records the target and opens the dialog; sends no request |
| BookingsPage.DeleteDialog.DeleteConfirm | bms-ui/src/pages/Bookings.jsx:97-107 | sends exactly one delete for the target; success closes, clears the target and refreshes; failure shows the server's message or the fallback |
| BookingsPage.DeleteDialog.DeleteCancel | bms-ui/src/pages/Bookings.jsx:112-115 | closes the dialog and clears the target, sending nothing |
| Scenarios.StoreWithOneHoarding | bms-backend/routes/hoardings.js:38-53 | creating one available hoarding at 1000 a day in an empty store |
| Scenarios.DoubleBookingAdmitted | bms-backend/routes/bookings.js:81-109 | two intersecting bookings of one hoarding are both admitted by the handler as written |
| Scenarios.CheckedAdmissionRefusesOverlap | bms-backend/routes/bookings.js:8-33 | with the query consulted, an overlapping and a touching request are refused and a later one is admitted |
| Scenarios.BookingsArePricedPerStartedDay | bms-backend/models/Booking.js:81-84 | three days at 1000 are stored as 3000, and one millisecond is charged a full day |
| Scenarios.ApprovalBlocksAllDates | bms-backend/routes/bookings.js:127-129 | after a booking for days 10–13 is approved its hoarding is `booked`, and a request for days 100–101, far from that range, gets the 400 for an unavailable hoarding |

## Left out

- Concurrency: each handler is one atomic step. The race between the availability check and the insert is not modelled, and neither is the race between writing a status and flipping the hoarding.
- Mongoose is a foreign library. `populate`, ObjectId casting, `findByIdAndUpdate` and `remove()` are reduced to map operations. `isModified` is an explicit boolean input of `PreSave`.
- JavaScript `Date` parsing, time zones and `Number` doubles: dates are integer milliseconds and prices are integers.
- The trim setter removes only space, tab, newline and carriage return. JavaScript's `trim` also removes other Unicode white space.
- Authentication (`auth`, `adminAuth`) is not part of this model. Admin-only handlers model the handler body once the caller was admitted.
- Get-by-id of a booking whose user was deleted (`populate` yields null and the handler throws) is not modelled.
- Booking payment details, and the hoarding's optional `image` and `description`, are not modelled: no workflow in the core reads or writes them.
- A size object missing one of its sides is not modelled: a request either carries a whole size or none.
- A hoarding update without a body value is modelled as an empty string, which the `||` merge treats as falsy in the same way.
- Backend.Store.UpdateBookingStatus: a request without `status` is not modelled. The handler assigns `undefined` without testing it, and `status` is not `required`, so the source saves the booking with its status cleared and answers 200. The model's status is always a string: an empty string fails the enum with 500, as it does in the source. The cleared state would fall outside `Valid()`.
- The pre-save hook is assumed to run before validation, so a new booking is priced before the `required` check on `totalAmount`. Mongoose's documented order is the reverse: validation runs as a `pre('save')` hook registered ahead of user hooks. Under that order the booking built by `POST /bookings` has no `totalAmount` when it is validated, so every creation would end in the handler's 500. The model does not capture that outcome.
- ErrorMiddleware.HandleError: an error with code 11000 but no `keyValue` makes the handler itself throw. The model answers it as if `keyValue` were empty. Logging the stack is not modelled.
- Backend.Store.UpdateBookingStatus: does not re-run the `startDate > now` validator when a loaded booking is saved again. Only the clock-free constraints are re-checked. Mongoose by default re-validates every path of a loaded document on save, so changing the status of a booking whose start has passed answers 500 in the source and succeeds in the model.
- `fetchHoardings`, `fetchBookings`, loading flags and the details dialog of the bookings page are rendering and data loading. The delete dialog only counts its re-fetches.

## Findings

| source | as written | input that shows it | evidently intended | confidence | as-written member | corrected member |
|---|---|---|---|---|---|---|
| bms-backend/routes/hoardings.js:41-46 | the new hoarding is built without `createdBy`, which the schema requires, so the save always fails and the handler answers 500 | any body, for example location "MG Road", size 10×5, price 1000 | `createdBy` set to the calling admin, so a valid request is stored | not executed | Backend.Store.CreateHoarding | Backend.Store.CreateHoardingBy |
| bms-backend/routes/bookings.js:81-109 | `hasOverlappingBooking` is defined but admission never calls it, so clashing bookings of one hoarding are both stored | hoarding 0 available; a booking for days 10–13, then one for days 12–15, at now = 0 | refuse a clash with 400 before saving, keeping live bookings of a hoarding disjoint | not executed | Scenarios.DoubleBookingAdmitted | Backend.Store.CreateBookingChecked |
