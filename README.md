# Booking ledger of the vehicle rental server, in Dafny

This project models the booking ledger behind the vehicle rental server's HTTP API:

- the Booking, Payment and Review documents, with their required fields, enums and defaults;
- the TTL index that deletes a pending hold once its `expireAt` has passed;
- the handlers that read and write these collections:
  - a pending hold made before payment (`createPendingBooking` and `POST /bookings/create-pending`);
  - manual confirmation (`POST /bookings`);
  - owner cancellation;
  - the booked-dates calendar;
  - the Stripe checkout (`create-session`) and its webhook;
  - the older, unmounted webhook controller;
  - the vehicle search with `bookedDates`;
  - review creation.

Each collection is a class that holds its documents in insertion order, plus the next key to hand out. Each handler is one method that runs atomically on those objects. Its reply is a datatype with the HTTP status code.

The central property is the invariant `Ledger.NoDoubleBooking`: within one vehicle, no two pending or confirmed bookings overlap, where overlap is the half-open test `b.start < end && b.end > start`. The model proves the following about it:

- The guarded paths keep it: the hold service, manual confirmation, cancellation, the TTL sweep, and the promotion of a paid hold.
- The webhook's direct-create path can break it. `PaymentRoutes.DirectCreateIgnoresConflicts` shows how.
- The unmounted controller can break it too: it double-books on a replayed event (`WebhookController.ReplayDoubleBooks`).

Dates are integer milliseconds. A user or vehicle reference is its string form, and it casts to an ObjectId when it is 24 hexadecimal digits (`Common.IsObjectId`). Booking, payment and review `_id`s are natural-number keys. In a request, `""` or `None` stands for a missing value. The caller's `userId` comes from the verified token. The handlers that create documents from it (`CreatePending`, `ConfirmManually`, `CreateReview`) require it to be an ObjectId. `Cancel` instead answers 500 for a malformed one, and `create-session` only copies it into the metadata. In a request handler, a query that must cast an id that is not an ObjectId throws, and the handler answers 500 without writing anything. The mounted webhook is the exception. There, a malformed `bookingId` makes `findById` throw after the Payment is stored; the error is swallowed, the reply is 200 and the Payment stays.

## Model

| member | source | states |
|---|---|---|
| `BookingModel.Status.Name` | models/Booking.js:10-14 | the stored status is one of "pending", "confirmed", "cancelled", and never "expired" |
| `BookingModel.New` | models/Booking.js:3-25 | `Booking.create` succeeds exactly when user and vehicle cast to ObjectIds and both dates are given; it copies the given fields; the defaults are status pending, reminderSent false, reminderSentAt null and expireAt null unless given |
| `BookingModel.ExpiryIsPermanent` | models/Booking.js:23-29 | `ExpiredAt` is the TTL condition: once a booking is past its `expireAt` it stays expired at every later instant, and a booking with a null `expireAt` is never expired |
| `BookingModel.Unexpired` | models/Booking.js:28-29 | the TTL sweep keeps exactly the bookings whose `expireAt` is null or later than now, and it never adds one |
| `BookingModel.UnexpiredKeepsPairwise` | models/Booking.js:28-29 | the sweep only deletes and keeps the order, so any relation that held between every earlier/later pair still holds among the survivors |
| `BookingModel.UnexpiringSurvivesSweep` | models/Booking.js:23-29 | a booking with a null `expireAt` survives every sweep |
| `BookingModel.BookingCollection.Create` | models/Booking.js:3-25 | `Booking.create` appends the validated document under a fresh key, or stores nothing when validation fails |
| `BookingModel.BookingCollection.Save` | routes/bookingRoutes.js:148-149 | `booking.save()` replaces that one document and changes nothing else |
| `BookingModel.BookingCollection.ExpireHolds` | models/Booking.js:28-29 | one pass of the TTL monitor leaves exactly the unexpired bookings |
| `Ledger.HoldingIsNotCancelled` | utils/bookingService.js:10 | with a three-valued enum, `$in: [pending, confirmed]` and `$ne: cancelled` admit the same bookings |
| `Ledger.ReviewableIsConfirmed` | routes/reviewRoutes.js:24 | `$in: [confirmed, completed]` admits only confirmed bookings, because "completed" is no booking status |
| `Ledger.FindConflict` | utils/bookingService.js:8-13 | the overlap `findOne` finds nothing exactly when no booking of the vehicle with an admitted status overlaps the half-open window; anything it finds is such a booking |
| `Ledger.FiltersFindTheSame` | routes/bookingRoutes.js:55-60 | the routes' `$ne: cancelled` overlap query finds the same booking as the hold service's `$in` query |
| `Ledger.CancelledNeverBlock` | utils/bookingService.js:8-13 | the overlap query finds the same booking with or without the cancelled bookings in the collection |
| `Ledger.FirstIndex` | routes/bookingRoutes.js:135-138 | `findOne` gives the first document in natural order that satisfies the filter, or nothing when none does |
| `Ledger.KeyLookupUnchanged` | routes/paymentRoutes.js:151 | updating documents without changing their keys leaves every `findById` where it was |
| `Ledger.NoDoubleBooking` | utils/bookingService.js:8-13 | the invariant the overlap checks protect: no two pending or confirmed bookings of one vehicle have intersecting windows, whichever of the two comes first |
| `Ledger.AppendKeepsNoDoubleBooking` | utils/bookingService.js:8-35 | inserting a booking for which the overlap query found nothing keeps the no-double-booking invariant |
| `Ledger.ReplaceKeepsNoDoubleBooking` | routes/bookingRoutes.js:148-149 | replacing a booking by a cancelled one, or by one with the same vehicle and window, keeps the invariant |
| `Ledger.SweepKeepsNoDoubleBooking` | models/Booking.js:28-29 | the TTL sweep keeps the invariant |
| `Ledger.Active` | routes/vehicleRoutes.js:50 | `find({status: {$ne: "cancelled"}})` gives exactly the non-cancelled bookings |
| `Ledger.Ranges` | routes/vehicleRoutes.js:53-61 | a vehicle's list holds the window of every one of its bookings and nothing else |
| `Ledger.BookedWindows` | routes/bookingRoutes.js:191-194 | the booked dates of a vehicle are the windows of exactly its non-cancelled bookings |
| `Ledger.RangesOfAbsent` | routes/vehicleRoutes.js:66 | a vehicle with no booking gets no window |
| `Ledger.NoActiveBookingsNoDates` | routes/vehicleRoutes.js:66 | a vehicle whose bookings are all cancelled, or that has none, gets an empty `bookedDates` |
| `BookingService.HoldExpiry` | utils/bookingService.js:21 | a hold expires `ttlMinutes` after it is made: 1,800,000 ms for the default 30, and never in the past for a non-negative TTL |
| `BookingService.CreatePendingBooking` | utils/bookingService.js:4-45 | overlap iff a pending or confirmed booking of the vehicle overlaps, with no write; otherwise exactly one pending booking with the given user, vehicle and window, expiring at now + TTL; a cast error aborts with no write; the invariant is preserved |
| `BookingRoutes.CreatePending` | routes/bookingRoutes.js:14-40 | missing fields give 400 with no write; 409 iff a pending or confirmed booking of the vehicle overlaps; a hold is created iff the fields are present, the vehicle id is an ObjectId and nothing overlaps, and it is one pending booking expiring 30 minutes from now; the invariant is preserved |
| `BookingRoutes.ConfirmManually` | routes/bookingRoutes.js:46-109 | missing fields give 400; any overlapping non-cancelled booking gives 409 with no write; otherwise one confirmed booking with no `expireAt`; the invariant is preserved |
| `BookingRoutes.OwnedBooking` | routes/bookingRoutes.js:135-138 | `findOne({_id, user})` finds nothing iff no booking has that id and belongs to the caller; otherwise it finds the first that does |
| `BookingRoutes.Cancel` | routes/bookingRoutes.js:131-178 | a malformed booking id or caller id gives 500; otherwise 404 unless a booking with that id belongs to the caller; 400 if it is already cancelled; otherwise only its status becomes cancelled; no other change; the invariant is preserved |
| `BookingRoutes.BookedDates` | routes/bookingRoutes.js:183-201 | ids shorter than 10 UTF-16 code units give 400; other ids that are no ObjectId give 500; otherwise the windows of exactly the vehicle's non-cancelled bookings |
| `Text.Utf16Length` | routes/bookingRoutes.js:187 | `length` counts UTF-16 code units: between one and two per character, and one per character exactly when every character lies in the Basic Multilingual Plane |
| `PaymentModel.New` | models/Payment.js:3-12 | `Payment.create` succeeds exactly when user and vehicle are ObjectIds, the amount is given and the session id is non-empty; the defaults are currency "inr", status completed and createdAt now |
| `PaymentModel.PaymentCollection.Create` | models/Payment.js:3-12 | appends the validated payment under a fresh key, or stores nothing |
| `PaymentRoutes.CeilDiv` | routes/paymentRoutes.js:52-54 | `Math.ceil(n / d)` is the least q with n <= q * d |
| `PaymentRoutes.RentalDays` | routes/paymentRoutes.js:52-54 | the days charged are the whole days covering the window, rounded up, and at least one exactly when the window is non-empty |
| `PaymentRoutes.Amount` | routes/paymentRoutes.js:52-55 | for a positive price, the amount in paise covers the window's prorated price and exceeds it by less than one day's price |
| `PaymentRoutes.WholeDaysCharged` | routes/paymentRoutes.js:52-55 | a window of n whole days is charged n days, and the amount is pricePerDay * n * 100 paise |
| `PaymentRoutes.PartialDayRoundsUp` | routes/paymentRoutes.js:52-54 | one millisecond past n whole days is charged n + 1 days |
| `PaymentRoutes.OpenCheckout` | routes/paymentRoutes.js:49-93 | an unknown vehicle gives 404; otherwise the session carries the computed amount and the metadata (user, vehicle, dates, bookingId) |
| `PaymentRoutes.CreateSession` | routes/paymentRoutes.js:32-94 | a missing date or a malformed vehicle id gives 500; 409 iff a non-cancelled booking of the vehicle overlaps the window, checked before the vehicle lookup; 404 iff the vehicle id is absent or the catalogue has no such vehicle; a checkout opens iff there is no conflict, the vehicle exists and Stripe creates the session, with amount pricePerDay * days * 100 and the request's metadata |
| `PaymentRoutes.Competing` | routes/paymentRoutes.js:36-41 | the bookings other than the caller's own pending hold, that is, the pending booking of the caller that `bookingId` names |
| `PaymentRoutes.CreateSessionExcludingOwnHold` | routes/paymentRoutes.js:36-47 | the same handler with every reply characterised as above, but the caller's own pending hold is left out of the conflict check |
| `PaymentRoutes.OwnHoldBlocksSession` | routes/paymentRoutes.js:36-47 | as written, the hold that `create-pending` just stored for a non-empty window makes `create-session` for that window answer 409 |
| `PaymentRoutes.OwnHoldDoesNotBlockCorrectedSession` | routes/paymentRoutes.js:36-47 | with the own hold excluded, the holder's checkout for the window just held finds no conflict |
| `PaymentRoutes.CorrectedSessionSeesOthers` | routes/paymentRoutes.js:36-47 | the corrected check still refuses every overlapping non-cancelled booking that is not the caller's own pending hold, including another user's booking whose key the caller passes |
| `PaymentRoutes.PaymentDraft` | routes/paymentRoutes.js:130-147 | the webhook's payment uses the amount `amount_total` or 0, the currency or "inr", status completed and the session id; a reference that is no ObjectId becomes undefined |
| `PaymentRoutes.Promote` | routes/paymentRoutes.js:152-156 | a paid hold becomes confirmed, references the payment, no longer expires, and keeps its key, owner, vehicle and window |
| `PaymentRoutes.Reconcile` | routes/paymentRoutes.js:149-171 | a malformed `bookingId` changes nothing; keys are kept; an existing booking changes iff it is the pending booking `bookingId` finds, and then it is promoted; one booking is added iff no `bookingId` was sent or it names no booking, and the direct booking validates; the added booking is confirmed, paid and never expiring |
| `PaymentRoutes.CreateDirect` | routes/paymentRoutes.js:161-169 | one booking is appended iff the metadata validates: confirmed, paid by the payment, never expiring, with the metadata's user, vehicle and window, and nothing else changes |
| `PaymentRoutes.SweptHoldPaidLate` | routes/paymentRoutes.js:150-169 | a hold the TTL sweep deleted before its payment arrived is booked again: the late payment appends a new confirmed, paid booking for the metadata's window, with no overlap check |
| `PaymentRoutes.ReconcileWithoutCreateKeepsNoDoubleBooking` | routes/paymentRoutes.js:150-159 | promoting a hold, or leaving the ledger alone, keeps the invariant |
| `PaymentRoutes.PromotedSurvivesSweep` | routes/paymentRoutes.js:152-156 | a promoted booking is never removed by the TTL sweep |
| `PaymentRoutes.DuplicateDeliveryChangesNoBooking` | routes/paymentRoutes.js:150-161 | a second delivery for a hold still in the ledger changes no booking |
| `PaymentRoutes.DirectCreateIgnoresConflicts` | routes/paymentRoutes.js:161-169 | with no `bookingId`, a paid window that overlaps a pending or confirmed booking of the vehicle is booked anyway, and the invariant breaks |
| `PaymentRoutes.CancelledHoldPaidWithoutBooking` | routes/paymentRoutes.js:150-161 | a hold cancelled before its payment arrives stays cancelled and no booking is created |
| `PaymentRoutes.HandleWebhook` | routes/paymentRoutes.js:101-203 | events other than a completed checkout give 200 with no write; missing userId or vehicleId gives 400 with no write; otherwise 200, one payment if it validates, and the ledger reconciled against it; errors are swallowed |
| `WebhookController.PaidBooking` | controllers/webhookController.js:49-56 | the controller's booking is confirmed, references the payment, never expires, and takes user, vehicle and dates from the metadata |
| `WebhookController.HandleWebhook` | controllers/webhookController.js:8-66 | a missing userId, vehicleId, startDate or endDate gives 400; a payment that fails validation gives 500; otherwise exactly one payment and one confirmed booking referencing it, with no lookup and no overlap check; no write on 400 and 500 |
| `WebhookController.ReplayDoubleBooks` | controllers/webhookController.js:49-56 | delivering the same event twice stores two confirmed bookings that clash |
| `ReviewModel.New` | models/Review.js:3-32 | `Review.create` succeeds exactly when the references are ObjectIds, the rating is in 1..5 and the trimmed comment is non-empty; the comment is stored trimmed; approved is false and createdAt is now |
| `ReviewModel.ReviewCollection.Create` | models/Review.js:3-32 | appends the validated review under a fresh key, or stores nothing |
| `ReviewRoutes.QualifyingMeansConfirmed` | routes/reviewRoutes.js:21-31 | a qualifying booking is exactly a confirmed booking of that vehicle by that user; pending and cancelled bookings never qualify |
| `ReviewRoutes.CreateReview` | routes/reviewRoutes.js:11-52 | a missing rating or comment gives 400; no confirmed booking gives 403; an existing review of the vehicle by the user gives 400; a validation failure gives 500, all with no write; otherwise exactly one review with the given user, vehicle and rating and the trimmed comment, after which the duplicate query finds it; at most one review per user and vehicle is preserved |
| `ReviewRoutes.AppendKeepsOneReviewPerPair` | routes/reviewRoutes.js:34-45 | adding a review for a user and vehicle without one keeps at most one review per pair |
| `ReviewRoutes.SecondReviewRefused` | routes/reviewRoutes.js:34-37 | once a review is stored, the duplicate query finds it for its user and vehicle, so a second request for the pair is refused |
| `Text.Trim` | models/Review.js:20-24 | `trim` yields the slice of the input between a whitespace prefix and a whitespace suffix, and the slice neither starts nor ends with whitespace |
| `Text.TrimEmptyIffBlank` | models/Review.js:20-24 | a comment trims to empty exactly when it is all whitespace |
| `Text.TrimIdempotent` | models/Review.js:20-24 | a trimmed comment is its own trim, so stored comments stay trimmed |
| `VehicleModel.FindVehicle` | routes/paymentRoutes.js:49-50 | `Vehicle.findById` finds nothing exactly when no catalogue entry has that id; what it finds has that id |
| `VehicleRoutes.QueryMeansSelected` | routes/vehicleRoutes.js:14-43 | a filter object with the four conditions keeps exactly the vehicles the search describes |
| `VehicleRoutes.BuildQuery` | routes/vehicleRoutes.js:14-43 | the filter keeps a vehicle iff its type equals the trimmed type query ignoring case, its location contains the trimmed location, its price lies within the given bounds, and the trimmed keyword occurs in make, model or type; a blank parameter does not filter |
| `VehicleRoutes.Filter` | routes/vehicleRoutes.js:47 | `find` keeps exactly the vehicles the filter accepts, in catalogue order |
| `VehicleRoutes.FilterCongruent` | routes/vehicleRoutes.js:47 | two filters that accept the same vehicles give the same list |
| `VehicleRoutes.GroupBookedDates` | routes/vehicleRoutes.js:53-61 | after the `forEach`, each vehicle that has entries maps to the windows of its bookings in booking order; every other vehicle has none |
| `VehicleRoutes.ListVehicles` | routes/vehicleRoutes.js:11-74 | one listing per selected vehicle, in catalogue order; each carries the windows of exactly its non-cancelled bookings |

## Left out

- Express wiring, CORS, raw-body parsing and the Mongo connection: transport only.
- The JWT check behind `verifyToken` is not modelled. The caller's `userId` is an input; the handlers that create documents from it require it to be an ObjectId.
- Stripe calls are not modelled:
  - Whether `checkout.sessions.create` succeeds is a boolean parameter of `PaymentRoutes.CreateSession`, and its line items are reduced to the amount and metadata.
  - Webhook signature verification and its 400 reply are left out: the event is an already-verified input.
- Email is left out. `sendEmail` is fire-and-forget or awaited inside the handler's `try`, and it never changes the stored documents or the reply. The `User`/`Vehicle` lookups that only feed it are left out too.
- Mongo transactions and concurrency are not modelled: every handler is one atomic sequential method. Races between workers, and between the TTL monitor and the webhook, are not covered.
- Date strings are not parsed. Dates are integer milliseconds, and an unparsable date is not distinguished from a missing one. `createdAt`/`updatedAt` of Booking (`timestamps: true`) are not modelled.
- `PaymentRoutes.RentalDays`: it uses exact integer ceiling division, whereas the source divides two JavaScript numbers in floating point before `Math.ceil`.
- `pricePerDay`, `amount` and `rating` are integers. Fractional values, `NaN` from `Number(minPrice)`, and a rating sent as a string are not modelled.
- ObjectId validity is modelled as 24 hexadecimal digits. The 12-character strings that `isValid` also accepts, and the upper/lower-case canonicalisation of hex ids, are not modelled.
- `PaymentRoutes.CreateSession`: an absent `vehicleId` and an explicit empty string are both modelled as absent, which gives 404; the source would fail to cast an explicit empty string and answer 500.
- `VehicleRoutes.BuildQuery`: search parameters are matched as literal text. Regular-expression metacharacters are not modelled, and neither is PCRE's `$` matching before a final newline. Case folding covers ASCII letters only.
- `VehicleRoutes.ListVehicles`: the catalogue is given in the order MongoDB returns it. The handler sorts on `createdAt`, but the Vehicle schema has no such field and no timestamps, so the sort imposes no order.
- `WebhookController.HandleWebhook`: `mongoose.Types.ObjectId(userId)` without `new` is modelled as a cast that succeeds for a valid id and fails (500) otherwise. Whether the installed Mongoose accepts the call without `new` is not modelled.
- Mongoose's dropping of the Payment fields that are not in the schema (`startDate`, `endDate`) is not modelled: the Payment record simply has no such fields.
- Out of scope, with no model: `GET /bookings/my`, `GET /payments/my`, PDF invoices, admin routes, authentication routes, `seed.js`, `POST /vehicles` and `GET /reviews/vehicle/:vehicleId`. These are listings, rendering and catalogue administration with no effect on the ledger.

## Findings

| source | as written | input that shows it | evidently intended | confidence | as-written member | corrected member |
|---|---|---|---|---|---|---|
| routes/paymentRoutes.js:36-41 | the checkout's conflict query counts every non-cancelled overlapping booking, including the caller's own pending hold passed as `bookingId` | `create-pending` stores hold b for [s, e) with s < e; then `create-session` for the same vehicle and [s, e) with `bookingId` = b's id answers 409 | the hold named by `bookingId` is excluded from the conflict check, so the holder can pay for the slot it holds | not executed | `PaymentRoutes.OwnHoldBlocksSession` | `PaymentRoutes.OwnHoldDoesNotBlockCorrectedSession` |
