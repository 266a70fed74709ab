# QuickServe booking and payment core, in Dafny

QuickServe is a service marketplace. Customers book home services, workers confirm and carry out the
jobs, and moderators and admins oversee them. This project models the backend rules that decide what
gets stored and what each endpoint answers:

- **Bookings.** Booking creation prices each service line: unit price, subtotal, a night-shift surcharge
  and the total. Single and batch creation each run as one database transaction; any failure leaves no
  booking behind. Request validation covers the `user_id` to `customer_id` mapping.
- **Booking status.** The status state machine checks the transition, then role and ownership, and lets
  a worker claim an unassigned booking on confirmation. The worker's job list is filtered and sorted
  newest first.
- **Commission payments.** A worker owes a 30% commission, submitted either by hand or through the
  SSLCommerz gateway. At most one live commission (pending, approved or completed) may exist per booking.
- **Customer online payments.** Customers pay online. The gateway success, fail, cancel and IPN callbacks
  settle the pending transaction they match. An admin approves or rejects commissions and records payouts.
- **Reviews.** A paid booking gets at most one review. Review ratings are 1 to 5.
- **Worker profiles and access.** Bangladesh NID format and uniqueness checks, birth-year extraction and
  the age-consistency check. The password-reset token table is one token per email, with a 60-minute
  expiry and single use. The role middleware decides 401, 403 or pass.

Modules follow the program:

| module | file | models |
|---|---|---|
| `Wrappers`, `Auth`, `Digits` | `wrappers.dfy`, `auth.dfy`, `digits.dfy` | options, users and roles, PHP truthiness, digit strings and PHP's `(int)` cast |
| `Bookings` | `booking.dfy` | the booking record, its defaults and status predicates |
| `BookingStore` | `booking_table.dfy` | the booking table, a class with `rows` and the next auto-increment id |
| `BookingService` | `booking_service.dfy` | pricing and single and batch creation |
| `BookingRequests` | `booking_requests.dfy` | the validation rules and `validated()` of both booking requests |
| `BookingController` | `booking_controller.dfy` | create endpoints, status update, worker jobs |
| `TransactionStore` | `transaction_table.dfy` | the payment transaction table |
| `Payments` | `payments.dfy` | commission, customer payment, gateway callbacks, admin processing and payouts |
| `Reviews` | `reviews.dfy` | the review table, review creation, worker review listing |
| `NIDValidation` | `nid.dfy` | NID helpers |
| `PasswordReset` | `password_reset.dfy` | the reset token table |
| `RoleMiddleware` | `role_middleware.dfy` | the role guard |

Tables are classes whose methods change `rows` (a `seq`) and `nextId`. Each endpoint has two parts:

- a pure decision function, which gives the 4xx code, the 5xx code or the new record;
- a method that follows that function and updates the tables.

Properties are proved about the decision functions and kept as class invariants:
- one review per booking;
- at most one live commission per booking;
- one reset token per email;
- increasing ids.

The following are parameters, because they are I/O, the clock or randomness:
- the authenticated user and the already-resolved worker profile;
- the gateway's answers (configured, accepted, validated);
- the current time, the generated `tran_id` and reset token, and the new password hash;
- the e-mail syntax check, date parsing, and whether mail was sent.

## Model

| member | source | states |
|---|---|---|
| Bookings.ParseStatus | app/Models/Booking.php:79-96 | a status text parses iff it is one of the four status names, and the parsed status prints back to the same text |
| Bookings.StatusNameRoundTrip | app/Models/Booking.php:79-96 | every status survives printing then parsing |
| Bookings.CreateDefaults | app/Models/Booking.php:49-54 | a booking created without status, quantity, shift or surcharge is pending, quantity 1, day shift, 0% surcharge, with no payment method (it is not fillable) |
| Bookings.StatusPredicates | app/Models/Booking.php:79-96 | each of isPending/isPaid/isConfirmed/isCancelled holds exactly for its status, so exactly one holds |
| BookingStore.Find | database/migrations/2025_12_21_153940_create_booking_table.php:16-30 | a lookup by id returns a stored row with that id, or none exists |
| BookingStore.BookingTable.constructor | database/migrations/2025_12_21_153940_create_booking_table.php:16-30 | an empty table whose first id is 1 |
| BookingStore.BookingTable.Insert | app/Services/BookingService.php:143-159 | `Booking::create` appends the defaulted record with the next id and advances the counter, keeping ids increasing |
| BookingStore.BookingTable.Save | app/Http/Controllers/BookingController.php:329-330 | saving replaces the row with the same id and leaves the counter alone |
| BookingStore.BookingTable.Rollback | app/Services/BookingService.php:21 | a rolled-back transaction restores the earlier rows; the id counter is not rolled back |
| BookingService.NormalizeShift | app/Services/BookingService.php:36-42 | day and night are kept, flexible becomes day, anything else is an invalid shift; the result is never flexible |
| BookingService.PriceSubtotal | app/Services/BookingService.php:130-131 | unit price is the subcategory's base price, subtotal is unit price times quantity |
| BookingService.PriceDay | app/Services/BookingService.php:134-141 | a day shift has 0% surcharge and total equal to the subtotal |
| BookingService.PriceNight | app/Services/BookingService.php:134-141 | a night shift carries the configured percent and total = subtotal × (100 + percent) / 100 |
| BookingService.PriceNightDefault | app/Services/BookingService.php:134-141 | with the default 20% a night total is 6/5 of the subtotal (500 × 2 at night is 1200) |
| BookingService.PriceBounds | app/Services/BookingService.php:130-141 | with non-negative price and percent and quantity ≥ 1, 0 ≤ subtotal ≤ total |
| BookingService.FirstUnresolvable | app/Services/BookingService.php:128 | when some line's subcategory is missing, it finds the first such line (the one `findOrFail` throws on) |
| BookingService.PlannedBookingsShape | app/Services/BookingService.php:24-59 | a successful plan has one booking per service line, in order, with consecutive ids, the request's customer fields copied, the normalised shift, the request-level quantity, the line's price terms, pending, no worker |
| BookingService.PlannedBookingsLength | app/Services/BookingService.php:44-59 | a successful plan has exactly as many bookings as service lines |
| BookingService.PlannedBookingsFails | app/Services/BookingService.php:40-42 | creation fails iff the shift is invalid or some line's subcategory is missing; an invalid shift is reported as such |
| BookingService.CreateBooking | app/Services/BookingService.php:19-63 | the table gains exactly the planned bookings, or nothing when the plan fails (the transaction rolls back) |
| BookingService.PlannedBatchStep | app/Services/BookingService.php:76-79 | the batch plan extends payload by payload, and the first failing payload fails the whole batch |
| BookingService.PlannedBatchFailedPrefix | app/Services/BookingService.php:73-82 | once a prefix of the batch fails, the whole batch fails with the same error |
| BookingService.PlannedBatchLength | app/Services/BookingService.php:76-79 | a successful batch creates as many bookings as there are service lines across all payloads |
| BookingService.CreateBatchBooking | app/Services/BookingService.php:71-83 | the table gains all bookings of every payload, or none at all when any payload fails |
| BookingService.CreateNextPayload | app/Services/BookingService.php:76-79 | one step of the batch: on success the table gains the payload's bookings after those already made; on failure the table is rolled back to its state before the batch |
| BookingService.Summary | app/Services/BookingService.php:91-98 | the summary counts the bookings; an empty batch sums to 0 |
| BookingService.SummaryAppend | app/Services/BookingService.php:91-98 | count, quantity sum and amount sum are additive over concatenation |
| BookingService.SumQuantityOfPayload | app/Services/BookingService.php:32 | the bookings of one payload add up to quantity × number of lines (every line carries the request-level quantity) |
| BookingService.SumQuantityConstant | app/Services/BookingService.php:95 | bookings sharing one quantity sum to that quantity times their count |
| BookingRequests.IntegerValue | app/Http/Requests/BookingRequest.php:35 | the `integer` rule passes an integer within the 64-bit range, or text the integer filter accepts; for text the value read is PHP's `(int)` of it; anything else fails |
| BookingRequests.ValidatedEntry | app/Http/Requests/BookingRequest.php:37-38 | a validated service entry keeps only the two ruled keys, with their values |
| BookingRequests.ValidatedBooking | app/Http/Requests/BookingRequest.php:24-39 | validated data keeps exactly the ruled keys present in the input, with their values |
| BookingRequests.MapUserIdEffect | app/Http/Requests/BookingRequest.php:82-85 | when `user_id` is set, it is moved to `customer_id` and every other key is unchanged |
| BookingRequests.MapUserIdNoop | app/Http/Requests/BookingRequest.php:82-85 | without a non-null `user_id` nothing changes |
| BookingRequests.Validated | app/Http/Requests/BookingRequest.php:77-97 | the result is the ruled data with `user_id` renamed; the services loop changes nothing |
| BookingRequests.RenamedBookingKeys | app/Http/Requests/BookingRequest.php:24-39 | for input with a set `user_id` and a `services` list (as every input passing the rules has), the output has the ruled keys but `user_id`, plus `customer_id` and `services`, with the same values and as many services |
| BookingRequests.ValidatedBatch | app/Http/Requests/BatchBookingRequest.php:22-38 | validated batch data is only `bookings`, a list as long as the input's |
| BookingRequests.FieldKeysExclude | app/Http/Requests/BookingRequest.php:24-39 | `customer_id` and `services` are not among the keys ruled one by one, so the rename and the services rebuild never overwrite a ruled key |
| BookingRequests.MappedBatchAt | app/Http/Requests/BatchBookingRequest.php:44-59 | the mapped batch has as many bookings as the request, and booking i is booking i of the request validated and renamed |
| BookingRequests.RenameUserIds | app/Http/Requests/BatchBookingRequest.php:48-55 | the loop keeps the number of bookings and leaves each one with a set `user_id` moved to `customer_id`, the others unchanged |
| BookingRequests.BatchEntryRules | app/Http/Requests/BatchBookingRequest.php:24-38 | every booking of a batch that passed the rules is an object meeting the single-booking rules |
| BookingRequests.BatchValidated | app/Http/Requests/BatchBookingRequest.php:44-59 | every booking of the batch is validated and has `user_id` renamed, in order |
| BookingRequests.BatchValidatedBookings | app/Http/Requests/BatchBookingRequest.php:49-56 | each batch entry is the single-booking mapping of its input: `customer_id` is the input's `user_id` and `user_id` is gone |
| BookingRequests.IdOf | app/Http/Requests/BookingRequest.php:37-38 | an id that passed `exists` is in the referenced table |
| BookingRequests.ReadLine | app/Http/Requests/BookingRequest.php:37-38 | a validated service line names an existing service and subcategory |
| BookingRequests.ReadPayload | app/Http/Requests/BookingRequest.php:24-39 | data that passed the rules gives a payload with an existing customer, an accepted shift, quantity ≥ 1, one line per given entry and at least one, every subcategory existing, and the schedule text verbatim |
| BookingRequests.ValidPayloadShiftAccepted | app/Services/BookingService.php:40-42 | validated data never reaches the invalid-shift error |
| BookingController.CreateBookingEndpoint | app/Http/Controllers/BookingController.php:24-58 | 201 with the created bookings, their count and amount sum, or 500 with no booking stored |
| BookingController.BatchStoreEndpoint | app/Http/Controllers/BookingController.php:93-128 | 201 with bookings, count, amount sum and summary, or 500 with nothing stored |
| BookingController.BatchTotalsMatchSummary | app/Http/Controllers/BookingController.php:104-113 | the response totals agree with the batch summary |
| BookingController.RequestedStatus | app/Http/Controllers/BookingController.php:240-242 | only paid, confirmed or cancelled are accepted, never pending |
| BookingController.TransitionTable | app/Http/Controllers/BookingController.php:251-270 | a transition is allowed iff the booking is pending, or it is confirmed and becomes paid |
| BookingController.StatusUpdateAcceptedIff | app/Http/Controllers/BookingController.php:227-339 | an update is accepted iff authenticated, a valid status, an allowed transition and the actor may act on the booking |
| BookingController.StatusUpdateRequestErrors | app/Http/Controllers/BookingController.php:232-242 | 401 without a user, then 422 for a bad status |
| BookingController.InvalidTransitionIs400 | app/Http/Controllers/BookingController.php:251-270 | a well-formed request for a forbidden transition gets 400 whoever asks |
| BookingController.FinalStatuses | app/Http/Controllers/BookingController.php:251-270 | a paid or cancelled booking is never updated again |
| BookingController.WorkerRefusals | app/Http/Controllers/BookingController.php:281-320 | in the worker branch, 404 without a profile, 403 when assigned to another worker or the service is not offered |
| BookingController.UpdateChangesOnlyStatusAndWorker | app/Http/Controllers/BookingController.php:272-330 | an update changes only status and worker; a worker is only set when confirming an unassigned booking |
| BookingController.WorkerClaimsOnConfirm | app/Http/Controllers/BookingController.php:322-325 | a worker confirming an unassigned booking of a service it offers is assigned to it |
| BookingController.StaffWorkerAssignment | app/Http/Controllers/BookingController.php:272-280 | moderators and admins may update any booking, and a requested worker is assigned only when confirming an unassigned booking |
| BookingController.UpdateBookingStatus | app/Http/Controllers/BookingController.php:227-346 | 404 for an unknown booking; otherwise the decided code, the row saved only on success |
| BookingController.MatchingJobs | app/Http/Controllers/BookingController.php:209-213 | exactly the bookings of the worker's services assigned to it, newest first |
| BookingController.GetBookingsByWorker | app/Http/Controllers/BookingController.php:153-221 | 401 without a user; otherwise 200, empty without a profile or services, else the worker's jobs newest first |
| Digits.DigitsValue | app/Helpers/NIDValidator.php:95 | the value of a digit string ("0" is 0) |
| Digits.DigitsValueBound | app/Helpers/NIDValidator.php:95 | k digits have a value below 10^k |
| Digits.LeadingDigits | app/Helpers/NIDValidator.php:95 | the longest digit prefix, stopped by the first non-digit |
| Digits.LeadingDigitsAll | app/Helpers/NIDValidator.php:95 | the whole string is its digit prefix iff it is all digits |
| Digits.IntCastDigits | app/Helpers/NIDValidator.php:95 | a digit string whose value fits in 64 bits casts to that value |
| Digits.ReadNumeral | app/Helpers/NIDValidator.php:95 | a numeric prefix exists iff, after blanks and a sign, a digit or a point and a digit come next; its parts are digits and its sign is the text's |
| Digits.Cap | app/Helpers/NIDValidator.php:95 | a value inside the 64-bit range is kept, one outside saturates at the nearer bound |
| Digits.IntCast | app/Helpers/NIDValidator.php:95 | the cast lies in the 64-bit range and is 0 for text with no numeric prefix |
| Digits.IntCastOfSigned | app/Helpers/NIDValidator.php:95 | blanks, a sign and digits, then a blank or nothing, cast to the signed value of the digits |
| Digits.IntCastFourDigits | app/Helpers/NIDValidator.php:95 | four digits cast to their decimal value |
| Digits.ReadExponentExample | app/Helpers/NIDValidator.php:95 | "19e2" reads as the digits 19 with exponent 2 |
| Digits.IntCastExponent | app/Helpers/NIDValidator.php:95 | "19e2" casts to 1900, not 19 |
| Digits.FilterTrim | app/Http/Requests/BookingRequest.php:35 | the trimmed text neither starts nor ends with a filter blank |
| Digits.BlanklessTrim | app/Http/Requests/BookingRequest.php:35 | text without filter blanks is its own trim |
| Digits.FilterInt | app/Http/Requests/BookingRequest.php:35 | an accepted integer lies in the 64-bit range |
| Digits.IntegerTextDigits | app/Http/Requests/BookingRequest.php:35 | digits without a leading zero, within range, are accepted as their value |
| Digits.NotIntegerText | app/Http/Requests/BookingRequest.php:35 | text with a character that is neither a digit nor a leading sign is refused |
| Digits.FilterIntIsCast | app/Http/Requests/BookingRequest.php:35 | the integer the filter accepts equals PHP's `(int)` of the same text |
| Digits.SignedZeroIsInteger | app/Http/Requests/BookingRequest.php:35 | "+0" and "-0" pass the integer filter, as 0 |
| Digits.LetterCastsToZero | app/Http/Controllers/PasswordResetController.php:92-94 | text that starts with a letter has no leading number and reads as 0 |
| TransactionStore.FindTx | database/migrations/2026_01_30_000001_create_payment_transactions_table.php:16-27 | a lookup by id returns a stored row with that id, or none exists |
| TransactionStore.WithoutTx | app/Http/Controllers/PaymentController.php:320 | deleting by id keeps exactly the other rows |
| TransactionStore.WithoutLastInserted | app/Http/Controllers/PaymentController.php:320 | deleting the row just inserted restores the table |
| TransactionStore.TransactionTable.constructor | database/migrations/2026_01_30_000001_create_payment_transactions_table.php:16-27 | an empty table whose first id is 1 |
| TransactionStore.TransactionTable.Insert | app/Http/Controllers/PaymentController.php:102-109 | a create appends the row with the next id |
| TransactionStore.TransactionTable.Save | app/Http/Controllers/PaymentController.php:548-551 | an update replaces the row with the same id |
| TransactionStore.TransactionTable.Delete | app/Http/Controllers/PaymentController.php:320 | a delete removes the row; the counter stays |
| TransactionStore.WithoutKeepsOrder | database/migrations/2026_01_30_000001_create_payment_transactions_table.php:17 | deleting keeps ids increasing and below the counter |
| Payments.CommissionAmount | app/Http/Controllers/PaymentController.php:86 | the commission is 30% of the total: non-negative, never above it, below it for a positive total |
| Payments.ComposeNotes | app/Http/Controllers/PaymentController.php:108 | with notes, they lead and the proof closes the text; without notes, the transaction id alone, else the proof alone, else null |
| Payments.ComposeNotesIdAfterNotes | app/Http/Controllers/PaymentController.php:108 | with notes and a transaction id, the id line follows the notes directly |
| Payments.AppendAdminNotes | app/Http/Controllers/PaymentController.php:915-925 | admin notes are appended as "Admin: …" on a new line, or alone when there were no notes; absent admin notes change nothing |
| Payments.AppendNote | app/Http/Controllers/PaymentController.php:550 | a settlement line is appended after the existing notes |
| Payments.AppendKeepsOneLive | app/Http/Controllers/PaymentController.php:88-99 | inserting a live commission for a booking without one keeps one live commission per booking |
| Payments.ReplaceKeepsOneLive | app/Http/Controllers/PaymentController.php:910-928 | replacing a row with one no more live keeps one live commission per booking |
| Payments.CommissionGuard | app/Http/Controllers/PaymentController.php:20-99 | a commission may be submitted only for an existing paid booking assigned to the acting worker, with no live commission |
| Payments.CommissionGuardIff | app/Http/Controllers/PaymentController.php:20-99 | both directions of the above, given an authenticated user and valid fields |
| Payments.RejectedCommissionAllowsResubmission | app/Http/Controllers/PaymentController.php:89-92 | rejected commissions do not block a new submission |
| Payments.SubmitCommissionPayment | app/Http/Controllers/PaymentController.php:20-131 | the refused code with nothing stored, or 201 with a pending commission of 30% with the composed notes |
| Payments.InitiateSslCommerzPayment | app/Http/Controllers/PaymentController.php:136-338 | a pending commission is inserted first; it stays on 500 (no gateway config) and 200, and is deleted on a gateway refusal (400) |
| Payments.CustomerPaymentGuard | app/Http/Controllers/PaymentController.php:343-392 | a customer payment needs an existing booking with a worker and no pending or completed online payment |
| Payments.CustomerPaymentGuardIff | app/Http/Controllers/PaymentController.php:343-392 | the payment goes ahead exactly when the user, booking, no-live-payment and worker checks all pass; 500 exactly when only the worker is missing |
| Payments.InitiateCustomerSslCommerzPayment | app/Http/Controllers/PaymentController.php:343-501 | a pending online payment of the booking total is inserted, kept on 500 and 200, deleted on 400 |
| Payments.StalePendingBlocksInitiation | app/Http/Controllers/PaymentController.php:378-390 | a pending online payment that was never settled blocks every new initiation with 400 |
| Payments.FindPending | app/Http/Controllers/PaymentController.php:520-522 | callbacks act on a pending row whose notes contain the tran id, or on none when no pending row matches |
| Payments.NullTranIdMatchesAnyNoted | app/Http/Controllers/PaymentController.php:520-522 | without a tran id the pattern is '%%', which matches any pending row that has notes |
| Payments.MarkPaidOnline | app/Http/Controllers/PaymentController.php:553-566 | marking a booking paid leaves every other booking unchanged |
| Payments.MarkPaidOnlineEffect | app/Http/Controllers/PaymentController.php:553-566 | the booking becomes paid with payment method online, unless it was already paid |
| Payments.Settle | app/Http/Controllers/PaymentController.php:546-551 | settling sets the status and appends the line, keeping id, booking, type and amount |
| Payments.SettleKeepsOneLive | app/Http/Controllers/PaymentController.php:546-551 | settling a pending row keeps one live commission per booking |
| Payments.SslCommerzSuccess | app/Http/Controllers/PaymentController.php:506-623 | a validated match becomes completed (and a customer payment marks its booking paid online); an unvalidated match becomes rejected; no match changes nothing |
| Payments.RejectPending | app/Http/Controllers/PaymentController.php:640-646 | the matched pending row becomes rejected with the line appended |
| Payments.SslCommerzFail | app/Http/Controllers/PaymentController.php:628-663 | the matched pending row is rejected with the failure reason and time |
| Payments.SslCommerzCancel | app/Http/Controllers/PaymentController.php:668-703 | the matched pending row is rejected as cancelled |
| Payments.SslCommerzIpn | app/Http/Controllers/PaymentController.php:708-774 | 400 without a tran id, 404 without a match, 200 and completed when validated, else 400 with nothing changed |
| Payments.SettledNeverMatchedAgain | app/Http/Controllers/PaymentController.php:520-522 | a settled row is never matched by a later callback |
| Payments.ProcessCommissionEffect | app/Http/Controllers/PaymentController.php:870-952 | processing succeeds iff admin, a valid action and notes, a pending commission; approve completes, reject rejects, processor, time and admin notes recorded, nothing else changed |
| Payments.ProcessCommissionOnce | app/Http/Controllers/PaymentController.php:896-907 | a processed commission cannot be processed again (400) |
| Payments.ProcessCommissionPayment | app/Http/Controllers/PaymentController.php:870-952 | 404 for an unknown transaction, else the decided code, the row saved only on success |
| Payments.SendOnlinePaymentGuard | app/Http/Controllers/PaymentController.php:999-1048 | a payout needs an admin, a paid online booking with a worker and no completed online payment |
| Payments.SendOnlinePaymentGuardIff | app/Http/Controllers/PaymentController.php:999-1048 | the payout goes ahead exactly when the admin, field, paid-online, no-completed-payment and worker checks all pass; 500 exactly when only the worker is missing |
| Payments.SendOnlinePayment | app/Http/Controllers/PaymentController.php:999-1083 | the refused code with nothing stored, or 201 with a completed online payment of the booking total processed now by the admin |
| Payments.CustomerPaymentBlocksPayout | app/Http/Controllers/PaymentController.php:1035-1045 | a completed customer online payment for the booking blocks the admin payout with 400 |
| Reviews.ReviewTable.constructor | database/migrations/2026_02_02_000001_create_reviews_table.php:14-24 | an empty review table |
| Reviews.ReviewTable.Insert | database/migrations/2026_02_02_000001_create_reviews_table.php:24 | inserting keeps one review per booking and ratings 1 to 5 |
| Reviews.ReviewGuard | app/Http/Controllers/ReviewController.php:18-85 | a review is accepted only from the booking's customer, for a paid, unreviewed booking with a worker, with a rating the `integer` rule reads (an integer or integer text) as 1 to 5 |
| Reviews.UnreadableRatingRefused | app/Http/Controllers/ReviewController.php:38-50 | a customer's request whose rating is missing or not an integer gets 422 |
| Reviews.RatingTextFour | app/Http/Controllers/ReviewController.php:40 | the text "4" is read as the rating 4 |
| Reviews.RatingTextNotInteger | app/Http/Controllers/ReviewController.php:40 | the texts "4.5" and "abc" are no rating |
| Reviews.OnlyCustomersReview | app/Http/Controllers/ReviewController.php:31-36 | any other role gets 403 |
| Reviews.ReviewGuardOrder | app/Http/Controllers/ReviewController.php:53-85 | ownership 403, then not paid 400, already reviewed 400, no worker 400, then acceptance |
| Reviews.ReviewedBookingRefused | app/Http/Controllers/ReviewController.php:72-77 | a reviewed booking never gets a second review |
| Reviews.CreateReview | app/Http/Controllers/ReviewController.php:18-111 | the refused code with nothing stored, or 201 with the review stored for the booking's worker |
| Reviews.WorkerReviewList | app/Http/Controllers/ReviewController.php:121-124 | exactly the worker's reviews, newest first |
| Reviews.SumRatingsBounds | app/Http/Controllers/ReviewController.php:126 | ratings 1 to 5 sum to between n and 5n |
| Reviews.AverageRatingBounds | app/Http/Controllers/ReviewController.php:126-133 | the average is 0 without reviews and between 1 and 5 otherwise |
| Reviews.GetWorkerReviews | app/Http/Controllers/ReviewController.php:116-145 | 500 for an unknown worker; else 200 with the worker's reviews, their count and their average |
| Reviews.WorkerReviewsOfValidTable | app/Http/Controllers/ReviewController.php:116-137 | over a valid table the list is newest first and the average within 1 to 5 |
| NIDValidation.Clean | app/Helpers/NIDValidator.php:28 | the cleaned text has no whitespace and is no longer than the input |
| NIDValidation.CleanAppend | app/Helpers/NIDValidator.php:28 | cleaning distributes over concatenation |
| NIDValidation.CleanNoSpace | app/Helpers/NIDValidator.php:28 | text without whitespace is already clean |
| NIDValidation.CleanIdempotent | app/Helpers/NIDValidator.php:28 | cleaning twice is cleaning once |
| NIDValidation.Validate | app/Helpers/NIDValidator.php:16-60 | valid iff not empty, all digits after cleaning and 10, 13 or 17 long; required only for empty input; old type for 10 digits, new otherwise; a bad length reports the length |
| NIDValidation.WhitespaceOnlyFailsDigits | app/Helpers/NIDValidator.php:18-38 | whitespace-only input passes the required check and fails on digits |
| NIDValidation.WhitespaceIgnored | app/Helpers/NIDValidator.php:28-59 | inserting whitespace into a non-empty NID does not change the verdict |
| NIDValidation.NoOtherHolder | app/Helpers/NIDValidator.php:73-79 | no row matches the query: every holder of the NID is the excluded worker |
| NIDValidation.IsUnique | app/Helpers/NIDValidator.php:69-80 | unique iff every worker holding the cleaned NID is the excluded one; null or 0 excludes nobody |
| NIDValidation.UniqueUpToWhitespace | app/Helpers/NIDValidator.php:71 | a NID and its cleaned form are equally unique |
| NIDValidation.ExtractBirthYear | app/Helpers/NIDValidator.php:88-104 | a birth year exists iff the cleaned NID is 13 or 17 long and PHP's `(int)` of its first four characters lies in 1900..current year, and it is that cast; four leading digits cast to their decimal value; 10-digit NIDs have none |
| NIDValidation.ExponentPrefixBirthYear | app/Helpers/NIDValidator.php:88-100 | "19e2123456789" yields the birth year 1900, so in 2026 a stated age of 30 fails against the calculated 126 |
| NIDValidation.ValidateAgeConsistency | app/Helpers/NIDValidator.php:114-159 | without a birth year every age passes; otherwise valid iff the age is within year difference − 1 − tolerance .. year difference + tolerance |
| NIDValidation.DefaultToleranceWindow | app/Helpers/NIDValidator.php:114 | with the default tolerance 2 the window is three below to two above the year difference |
| NIDValidation.MismatchReportsRejectedAgeInRange | app/Helpers/NIDValidator.php:140-152 | as written, a rejected age can lie inside the range the message reports |
| NIDValidation.BirthYearOfCleanNid | app/Helpers/NIDValidator.php:90-100 | a clean 13-character NID yields the cast of its first four characters when that is a plausible year |
| NIDValidation.ValidateAgeConsistencyCorrected | app/Helpers/NIDValidator.php:114-159 | the same verdict and calculated age, with the checked range reported |
| NIDValidation.CorrectedRangeIsAcceptedRange | app/Helpers/NIDValidator.php:132-152 | the corrected message's range is exactly the accepted ages, so it never contains the rejected one |
| PasswordReset.TokenAgeMinutes | app/Http/Controllers/PasswordResetController.php:68 | whole minutes between issue and now, either way round |
| PasswordReset.ExpiryWindow | app/Http/Controllers/PasswordResetController.php:68-70 | a token expires once 61 whole minutes (3660 s) have passed |
| PasswordReset.Keep | app/Http/Controllers/PasswordResetController.php:23-25 | a filtered delete keeps exactly the rows not matched, and never adds rows |
| PasswordReset.WithoutEmail | app/Http/Controllers/PasswordResetController.php:23-25 | deleting by email keeps exactly the other emails' tokens |
| PasswordReset.WithoutToken | app/Http/Controllers/PasswordResetController.php:71 | deleting by token keeps exactly the other tokens |
| PasswordReset.FirstWithToken | app/Http/Controllers/PasswordResetController.php:56-58 | a lookup finds a row with the token, or none has it |
| PasswordReset.KeepKeepsOneToken | app/Http/Controllers/PasswordResetController.php:23-25 | deletions keep one token per email |
| PasswordReset.ReissueKeepsOneToken | app/Http/Controllers/PasswordResetController.php:23-33 | delete-then-insert keeps one token per email |
| PasswordReset.TokenRecord | app/Http/Controllers/PasswordResetController.php:92-94 | the record found is stored and holds the request's text token; none is found iff the token is not text or no stored token equals it |
| PasswordReset.FirstMatchingAsWritten | app/Http/Controllers/PasswordResetController.php:92-94 | the first stored token the as-written comparison matches, or none matches |
| PasswordReset.TokenRecordAsWritten | app/Http/Controllers/PasswordResetController.php:92-94 | as written, the record found matches the request value (text equal, or a number equal to the stored token's numeric reading); none iff no token or no match |
| PasswordReset.TextTokenLookupsAgree | app/Http/Controllers/PasswordResetController.php:92-94 | for a text token the as-written and the corrected lookups find the same record |
| PasswordReset.NumericTokenFindsLetterToken | app/Http/Controllers/PasswordResetController.php:86-94 | as written, `{"token": 0}` finds a record whenever a stored token starts with a letter; the corrected lookup finds none |
| PasswordReset.ResetTokenTable.constructor | app/Http/Controllers/PasswordResetController.php:29-33 | an empty token table beside the users' hashes |
| PasswordReset.ResetTokenTable.ForgotPassword | app/Http/Controllers/PasswordResetController.php:19-52 | 422 for an invalid or unknown email; else the email's tokens are replaced by the new one, which stays even when mail fails (500) |
| PasswordReset.ResetTokenTable.VerifyToken | app/Http/Controllers/PasswordResetController.php:54-82 | 404 unknown, 410 and deleted when expired, else 200 with its email |
| PasswordReset.ResetTokenTable.ResetPassword | app/Http/Controllers/PasswordResetController.php:84-132 | 422, 404, 410 with deletion, 404 with the token kept when the user is gone; else the hash replaced and the token deleted |
| PasswordReset.ResetTokenSingleUse | app/Http/Controllers/PasswordResetController.php:126 | after a reset the token is not found again |
| PasswordReset.ReissuedTokenIsFound | app/Http/Controllers/PasswordResetController.php:23-33 | after reissuing, the email's only token is the new one |
| RoleMiddleware.RoleNameInjective | app/Http/Controllers/AuthController.php:22 | distinct roles are distinct strings |
| RoleMiddleware.Handle | app/Http/Middleware/RoleMiddleware.php:17-34 | 401 iff no user; with a user, pass with the same user iff its role is listed, else 403 |
| RoleMiddleware.EmptyRolesDenyAll | app/Http/Middleware/RoleMiddleware.php:26 | an empty role list denies every authenticated user |
| RoleMiddleware.MoreRolesAdmitMore | app/Http/Middleware/RoleMiddleware.php:26 | listing more roles never turns a passing user away |
| RoleMiddleware.RoleStringsDecide | app/Http/Middleware/RoleMiddleware.php:26 | a list naming every role admits all, one naming none admits nobody |

## Left out

- Hashing, token generation, `tran_id` generation, mail sending, the SSLCommerz HTTP calls and redirect pages, logging and JSON shaping: their results are parameters or not modelled.
- JWT parsing and the worker-profile lookup by user id then email, with its self-healing write of `user_id`: the resolved user and profile are inputs.
- Money is exact (`real`): PHP floats, `decimal(10,2)` storage rounding, `round(…, 2)` in responses and `number_format` for the gateway are not modelled; the 30% commission is exactly 3/10.
- Request values: booleans, floats and JSON objects where a list is expected are not modelled, nor PHP array key order; `date` and `after:now` are a parse-function parameter and a timestamp.
- BookingRequests.ExistsIn: `exists` is modelled as an integer, or text the integer filter accepts, naming a row. MySQL's numeric matching of other strings is not modelled: `"05"`, `"5.0"` and `"5abc"` all match id 5 there, but are refused with 422 here. The later storing of such a string into an integer column is not modelled either.
- MySQL's case-insensitive collation is not modelled: LIKE matching of `tran_id`, token lookups and NID equality are case-sensitive here. LIKE wildcards inside a `tran_id` are not modelled.
- `now()` is a text parameter in callback notes; the format Laravel prints is not modelled.
- `Carbon::diffInMinutes`: PasswordReset.TokenAgeMinutes follows the absolute, truncated minute count, not a signed fractional one.
- NIDValidation: `strlen` counts characters, not bytes (only ASCII digits pass), and the unused `$difference` is not computed. The year comes from a `currentYear` parameter standing for `date('Y')`.
- Digits.IntCast: PHP 8 on a 64-bit build. The numeral's exact value is truncated toward zero, so the rounding of numerals with more than about 15 significant digits to a double is not modelled, and text whose double overflows to infinity (from about 1.8e308), which PHP casts to 0, saturates here.
- PasswordReset.ResetTokenTable.ResetPassword: uses the corrected lookup `TokenRecord` of the finding below. A token that is not text finds no record there. The as-written numeric lookup is `TokenRecordAsWritten`, and its deletions (`where('token', 0)->delete()` removes every letter-led token) are not modelled.
- PasswordReset.TokenMatchesAsWritten: MySQL reads a stored string as a double; PHP's `(int)` stands for that reading. They agree on letter-and-digit text whose leading number fits in 64 bits, which covers the `Str::random` tokens.
- Payments.InitiateCustomerSslCommerzPayment: the 404 for a missing booking after `exists` validation cannot be reached and is not modelled. The customer is not checked to own the booking, as in the code.
- Concurrency is not modelled: two requests checking "no live commission" or "no review" at the same time are not. The reviews table's unique index is the class invariant.
- Read-only listings other than the worker's jobs and reviews (all bookings, customer bookings, pending commissions, pending online payments, all transactions, single booking and review lookups) are not modelled.
- The model follows the code as written:
  - a missing subcategory is a 500, not a 404;
  - `scheduled_at` is stored as given;
  - line quantities are ignored in favour of the request's;
  - `payment_method` is not fillable, so bookings are created without it.

## Findings

| source | as written | input that shows it | evidently intended | confidence | as-written member | corrected member |
|---|---|---|---|---|---|---|
| app/Helpers/NIDValidator.php:140-152 | the mismatch message reports `minAge - tolerance` to `maxAge + tolerance`, widening the checked range by the tolerance a second time | NID 1996123456789, age 33, tolerance 2, year 2026: accepted is 27..32, so 33 is rejected, yet the message says 25-34 | report the checked range `minAge`..`maxAge` | high (not executed) | NIDValidation.MismatchReportsRejectedAgeInRange | NIDValidation.CorrectedRangeIsAcceptedRange |
| app/Http/Controllers/PasswordResetController.php:86-94 | `token` is only `required`, and `where('token', $request->token)` compares a JSON number with the varchar column numerically | a table holding a live token "abc…" for some email and the request `{"token": 0, "password": …}`: the stored token reads as 0 and is found, so the password of that token's holder is reset | look the token up as text only, so that a non-text token finds nothing | medium (not executed) | PasswordReset.NumericTokenFindsLetterToken | PasswordReset.TokenRecord |
