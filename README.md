# GOAT box-cricket booking: a Dafny model of the booking core

This project models the booking core of a Django web application for box-cricket grounds.
Users book a court of a venue for a time slot on a date, through an HTML form or a REST API.
Staff manage bookings, sponsorship advertisements and tournaments through the admin site.

The model covers:

- the records (`Models`): venues, courts, bookings, reviews, advertisements and tournaments, with their field defaults, the price calculation, a venue's average rating, and the booking table's uniqueness constraint;
- the booking table as a mutable store (`Store.BookingTable`): rows, the next primary key, and the slot constraint it enforces on every write;
- the booking form (`Forms`): the player-count bounds and `BookingForm.clean`, which checks time order, duration (30 minutes to 4 hours), court capacity and overlap with confirmed bookings, and reports every failing check together; also the advertisement form's mobile-number check;
- the HTML views (`Views`): booking creation with the view's own overlap re-check, the booking list and detail pages, and the tournament list;
- the REST views (`ApiViews`): the upcoming and past booking lists, cancellation, and a venue's per-court availability for a date;
- the REST serializers (`Serializers`): booking creation (priced, but not validated), a venue's court count and average rating;
- the admin site (`Admin`): the nine bulk status actions over selected bookings, advertisements and tournaments, and the time-slot and tournament-summary display helpers;
- the user app (`UserViews`, `UserSerializers`): signup error messages, the post-login redirect, the profile page with its price backfill, registration validation and user creation, and the booking count.

Support modules:

- `Text`: digits, decimal rendering, `join`;
- `Clock`: times of day as seconds since midnight, "HH:MM" rendering and its round trip;
- `Query`: `filter` and `order_by` on a sequence of rows.

Units:

- a date is a day number;
- a time is the number of seconds since midnight, `0 <= t < 86400`;
- money is an integer number of paise;
- a computed price is an exact real.

The main invariant is `Forms.SlotsDisjoint`: confirmed bookings on the same court and date never overlap. It holds after any sequence of HTML form submissions (`Views.CreatesKeepSlotsDisjoint`). Cancelling keeps it, through the API (`ApiViews.CancelKeepsSlotsDisjoint`) and through the admin site (`Admin.CancelKeepsSlotsDisjoint`). Some paths skip the form's checks, and the model shows that these can break it:

- creation through the API (`Serializers.ApiCreateSkipsChecks`);
- the admin's bulk confirm (`Admin.ConfirmMayOverlap`).

The uniqueness constraint alone does not rule out overlaps either (`Models.UniqueTogetherAllowsOverlap`).

The cancel endpoint differs from what a reader of the endpoint alone might expect. `get_object()` looks the booking up through `get_queryset()`, which keeps only the requester's own bookings. Someone else's booking therefore answers 404, and the 403 "Not authorized" branch can never be reached. The model follows the code (`ApiViews.CancelByNonOwner`, `ApiViews.CancelNeverForbidden`).

## Model

| member | source | states |
|---|---|---|
| Text.NatToString | myproject/booking/forms.py:45 | a count renders as decimal digits with no leading zero |
| Text.NatToStringRoundTrip | myproject/booking/forms.py:45 | the rendered count reads back as the same number |
| Text.Join | myproject/booking/forms.py:64 | joining no ranges gives "", joining one gives that range |
| Text.JoinAppend | myproject/booking/forms.py:64 | joining two non-empty lists one after the other is joining each, with one separator between them; with `Text.JoinTwo`, two ranges become `x + ", " + y` |
| Clock.HhMm | myproject/booking/forms.py:61 | `strftime('%H:%M')` is five characters with ':' in the middle |
| Clock.HhMmRoundTrip | myproject/booking/forms.py:61 | "HH:MM" reads back as the time truncated to the minute |
| Clock.HhMmSs | myproject/booking/api_views.py:50 | for a time with no fractional seconds, `str(time)` is "HH:MM:SS": its first five characters are "HH:MM" and its last two digits are the seconds |
| Clock.HhMmSsRoundTrip | myproject/booking/api_views.py:50 | reading the "HH:MM:SS" text back gives the time itself, seconds included |
| Clock.TimeSlot | myproject/booking/forms.py:61 | "HH:MM - HH:MM" is thirteen characters: start, " - ", end |
| Clock.TimeSlotRoundTrip | myproject/booking/admin.py:146 | both ends of a slot label read back to the minute |
| Query.Filter | myproject/booking/api_views.py:73 | `filter` keeps exactly the rows the test accepts, each as often as in the table |
| Query.FilterAppend | myproject/booking/api_views.py:73 | filtering keeps table order: the passing rows of two tables in turn are those of the first, then those of the second |
| Query.FilterFilter | myproject/user/views.py:73 | filtering a filtered queryset is filtering by both tests |
| Query.FilterCountPermutation | myproject/user/views.py:73 | rearranging the rows (`order_by`) does not change how many pass a filter |
| Query.FilterSplit | myproject/booking/serializers.py:43-44 | the rows a test accepts split into those a second test accepts and those it rejects |
| Query.SortBy | myproject/booking/views.py:12 | `order_by` returns the rows sorted by the key, as a permutation |
| Query.SortByMembers | myproject/booking/views.py:12 | sorting keeps exactly the same rows |
| Models.NewCourt | myproject/booking/models.py:30-36 | a new court gets capacity 8, rate 500.00 (50000 paise) and is active |
| Models.NewBooking | myproject/booking/models.py:53-61 | a booking built from the form's fields defaults to confirmed, price 0 and no notes |
| Models.CalculatePrice | myproject/booking/models.py:72-78 | sets only `total_price`, to rate x (end - start) / 3600 s; every other field is unchanged |
| Models.PriceOfHours | myproject/booking/models.py:72-78 | a booking of h whole hours costs h times the hourly rate |
| Models.PriceLinear | myproject/booking/models.py:72-78 | one hour costs the hourly rate; two hours cost twice one hour |
| Models.PriceSign | myproject/booking/models.py:72-78 | an empty slot is free; a slot that ends before it starts gets a negative price, since nothing guards it |
| Models.CalculatePriceIdempotent | myproject/booking/models.py:72-78 | recomputing the price gives the same booking |
| Models.VenueReviews | myproject/booking/models.py:24 | exactly the reviews of the venue |
| Models.AverageRating | myproject/booking/models.py:23-27 | no reviews gives the stored rating; otherwise the mean of the venue's review ratings |
| Models.Mean | myproject/booking/models.py:26 | the mean taken as many times as there are ratings makes up their sum |
| Models.MeanBounds | myproject/booking/models.py:26 | a mean of n values whose sum lies between n and 5n lies in 1..5 |
| Models.AverageRatingBounds | myproject/booking/models.py:23-27 | with ratings in 1..5 (models.py:84), a venue with reviews has an average in 1..5 |
| Models.SumRatingsBounds | myproject/booking/models.py:84 | the sum of n valid ratings lies between n and 5n |
| Models.BookingsOf | myproject/booking/api_views.py:72-73 | `filter(user=...)`: exactly the user's rows, with their multiplicities |
| Models.IsUpcoming | myproject/booking/models.py:159-161 | a tournament is upcoming if and only if it does not start before today; today counts |
| Models.UniqueTogether | myproject/booking/models.py:67 | the constraint as written: no two rows share court, date, start time and status |
| Models.ConfirmedSlotsUnique | myproject/booking/models.py:67 | the corrected constraint the table keeps: no two confirmed rows share court, date and start time |
| Models.UniqueTogetherAllowsOverlap | myproject/booking/models.py:67 | two confirmed, overlapping bookings of one court and date can satisfy both uniqueness constraints |
| Store.BookingTable.Insert | myproject/booking/models.py:67 | a new row gets the next key and is appended, unless the slot constraint refuses it, in which case nothing changes |
| Store.BookingTable.Save | myproject/booking/models.py:67 | an existing row is replaced if the result keeps the slot constraint, otherwise nothing changes |
| Store.BookingTable.Update | myproject/booking/models.py:67 | a bulk update is applied as a whole or, if it breaks the constraint, refused as a whole |
| Forms.PlayersField | myproject/booking/forms.py:8 | a player count is accepted if and only if it lies in 1..12, and is then kept |
| Forms.Candidates | myproject/booking/forms.py:50-54 | exactly the confirmed bookings on the court and date, other than the one being edited (a falsy pk excludes nothing) |
| Forms.CandidatesInQueryOrder | myproject/booking/models.py:66 | the candidates are the competing rows, each as often as in the table, in `Meta.ordering` order, which on one date is ascending start time |
| Forms.Errors | myproject/booking/forms.py:19-70 | every failing check's messages, in check order: time order and duration, then capacity, then conflicts |
| Forms.Clean | myproject/booking/forms.py:19-70 | accepts if and only if no check fails, and then returns the data unchanged; otherwise returns every failing check's message |
| Forms.CollectConflicts | myproject/booking/forms.py:57-61 | the loop collects the "HH:MM - HH:MM" range of each overlapping candidate, in query order |
| Forms.TimeErrorsCases | myproject/booking/forms.py:30-40 | end not after start, and too short or too long: each error appears exactly when its condition holds |
| Forms.ConflictRangesEmpty | myproject/booking/forms.py:58-63 | no range is reported if and only if no candidate overlaps the slot |
| Forms.ConflictRangesListOverlaps | myproject/booking/forms.py:58-61 | the reported ranges are exactly the ranges of the overlapping candidates, in order |
| Forms.CleanAcceptsIff | myproject/booking/forms.py:19-70 | a complete form passes if and only if the times are ordered, the duration is in 30 min..4 h, the players fit and no confirmed booking on the court and date overlaps |
| Forms.AllChecksAccumulate | myproject/booking/forms.py:27-68 | all four kinds of error are reported together, in check order, with the capacity and range texts |
| Forms.CheckTimes | myproject/booking/forms.py:30-40 | the time-order and duration checks report exactly the time errors |
| Forms.CheckCapacity | myproject/booking/forms.py:43-45 | the capacity check reports exactly the capacity error; a player count of 0 skips it |
| Forms.CheckConflicts | myproject/booking/forms.py:48-65 | the overlap check reports exactly the conflict message, and only when court, date and both times are present |
| Forms.CandidatesOfOne | myproject/booking/forms.py:50-54 | among a single row, the candidates are that row if it competes, otherwise none |
| Forms.TouchingSlotPasses | myproject/booking/forms.py:60 | a slot that starts when an existing booking ends passes every check |
| Forms.OverlappingSlotRefused | myproject/booking/forms.py:60-65 | an overlapping slot is refused, and the message names the booked range |
| Forms.OneConflictReported | myproject/booking/forms.py:48-65 | a slot overlapping the table's one competing booking gets one message naming that booking's range |
| Forms.TwoConflictsReported | myproject/booking/forms.py:48-65 | a slot overlapping two competing bookings gets one message naming both ranges, the earlier start first, whatever the table order |
| Forms.TwoConflictsListedInStartOrder | myproject/booking/forms.py:48-65 | example: bookings stored 12:00 then 10:00, a 10:30-12:30 request is refused with "10:00 - 11:00" then "12:00 - 13:00" |
| Forms.ConflictMessageOfTwo | myproject/booking/forms.py:63-65 | the message for two ranges is the fixed text with the two ranges joined by ", " |
| Forms.CleanAsWritten | myproject/booking/forms.py:19-70 | a TypeError is raised exactly when both times are cleaned but the date is not; otherwise the errors are those of `Clean` |
| Forms.InvalidDateCrashesCleanAsWritten | myproject/booking/forms.py:36 | a form with a bad date and two valid times raises instead of reporting errors |
| Forms.MobileError | myproject/booking/forms.py:86-96 | a missing or empty number passes; otherwise non-digits are reported first, then a length other than 10 |
| Views.Overlapping | myproject/booking/views.py:24-30 | exactly the confirmed bookings on the court and date whose times overlap the slot |
| Views.OverlapTestsAgree | myproject/booking/views.py:24-30 | the view's `start_time__lt`/`end_time__gt` test and the form's overlap test agree on every booking |
| Views.RecheckFindsNothing | myproject/booking/views.py:20-31 | once `clean` has passed for a new booking, the view's re-check on the same table finds nothing |
| Views.CreateEffect | myproject/booking/views.py:17-39 | the outcome of a submission: form errors when a field is missing or `clean` fails, "slot already booked" when the re-check finds an overlap, an integrity error when the slot constraint refuses, otherwise the new confirmed booking appended and a redirect |
| Views.BookingCreate | myproject/booking/views.py:17-39 | the page shown and the table afterwards are those of `CreateEffect`: form errors, "slot already booked", an integrity error, or the saved booking and a redirect |
| Views.CreatedBookingIsUnpriced | myproject/booking/views.py:21-35 | a booking saved from the form is appended confirmed, for the requester, with total price 0 and a player count in 1..12 |
| Views.CreateKeepsSlotsDisjoint | myproject/booking/views.py:17-39 | a form submission never makes two confirmed bookings overlap |
| Views.CreatesKeepSlotsDisjoint | myproject/booking/views.py:17-39 | any sequence of form submissions keeps confirmed bookings pairwise disjoint |
| Views.BookingList | myproject/booking/views.py:11-13 | exactly the user's bookings, as a permutation, latest date first and earliest start first within a day |
| Views.BookingDetail | myproject/booking/views.py:43-45 | found if and only if a booking has that key and belongs to the user; otherwise 404 |
| Views.TournamentList | myproject/booking/views.py:75-77 | exactly the tournaments that are upcoming today, as a permutation, in ascending start date |
| ApiViews.Upcoming | myproject/booking/api_views.py:79-84 | exactly the user's confirmed bookings from today on, each as often as in the table, by date and then start time |
| ApiViews.Past | myproject/booking/api_views.py:87-92 | exactly the user's bookings of any status before today, each as often as in the table, latest date and start first |
| ApiViews.UpcomingPastPartition | myproject/booking/api_views.py:79-92 | each confirmed booking of the user is in exactly one of the two lists |
| ApiViews.FindOwn | myproject/booking/api_views.py:72-73 | `get_object()` finds a row only when its key matches and it belongs to the requester |
| ApiViews.CancelEffect | myproject/booking/api_views.py:95-104 | the outcome of `cancel`: 404 unless the requester owns a booking with the key, the owner check's 403, 400 if it is already cancelled, otherwise that row cancelled and "Booking cancelled", or 500 with no change if the slot constraint refuses the save |
| ApiViews.Cancel | myproject/booking/api_views.py:95-104 | the response and the table afterwards are those of `CancelEffect` |
| ApiViews.CancelByNonOwner | myproject/booking/api_views.py:72-73 | someone else's booking answers 404 and changes nothing |
| ApiViews.CancelNeverForbidden | myproject/booking/api_views.py:97-99 | the 403 "Not authorized" response is never produced |
| ApiViews.CancelAlreadyCancelled | myproject/booking/api_views.py:100-101 | a cancelled own booking answers 400 "Already cancelled" and changes nothing |
| ApiViews.CancelSucceeds | myproject/booking/api_views.py:102-104 | an own booking that is not cancelled, completed ones included, is cancelled; only that row changes |
| ApiViews.CancelKeepsSlotsDisjoint | myproject/booking/api_views.py:95-104 | cancelling never brings confirmed bookings into overlap |
| ApiViews.SecondCancelRefusedAsWritten | myproject/booking/models.py:67 | as written, re-cancelling a re-booked slot breaks `unique_together`; under the corrected constraint it succeeds |
| ApiViews.BookedSlots | myproject/booking/api_views.py:46-50 | one (start, end) pair per confirmed booking on the court and date, as "HH:MM:SS", in query order (start ascending, by `Forms.CandidatesInQueryOrder`) |
| ApiViews.Availability | myproject/booking/api_views.py:29-53 | a missing date answers "date parameter required" and an unparsable one the format error; a present date that parses, and only that, yields the map, whose keys are exactly the active courts' ids, each mapped to its name and booked slots |
| ApiViews.CollectAvailability | myproject/booking/api_views.py:42-51 | the loop fills one entry per active court |
| Serializers.Validated | myproject/booking/serializers.py:52-55 | the read-only fields are dropped; court, date and times are carried; a given players count, status and notes are carried, and a missing one takes the model default (8 players, confirmed, empty notes, models.py:58-61) |
| Serializers.ApiDefaultsAgreeWithForm | myproject/booking/models.py:58-61 | a payload leaving out every defaulted field creates the booking the form would create with 8 players, except that it is priced |
| Serializers.ApiBooking | myproject/booking/serializers.py:57-61 | the created booking is priced by `calculate_price` and carries the writable fields and the requester |
| Serializers.ApiCreate | myproject/booking/serializers.py:57-61 | the priced booking is appended with the next key, unless the table's constraint refuses it |
| Serializers.ReadOnlyFieldsIgnored | myproject/booking/serializers.py:55 | client values for total price, timestamps and user email change nothing in the created booking |
| Serializers.ApiCreateSkipsChecks | myproject/booking/serializers.py:57-61 | a slot the booking form refuses is accepted through the API, and confirmed bookings then overlap |
| Serializers.CourtsCount | myproject/booking/serializers.py:43-44 | the number of the venue's courts, inactive ones included: the active courts plus the inactive courts |
| Serializers.VenueListItemOf | myproject/booking/serializers.py:36-44 | the list item carries the venue's id and stored rating and its courts count |
| Serializers.VenueDetailOf | myproject/booking/serializers.py:23-33 | `average_rating` equals `Venue.average_rating()`; the courts are exactly the venue's courts; the rating is the stored one |
| Admin.UpdateWhere | myproject/booking/admin.py:186 | each row the test accepts is changed, every other row is kept, and the count is the number of accepted rows |
| Admin.ConfirmBookings | myproject/booking/admin.py:185-187 | only selected pending bookings become confirmed; the count is the number of selected pending bookings |
| Admin.CancelBookings | myproject/booking/admin.py:190-192 | every selected booking that is not completed becomes cancelled and counts, already-cancelled ones included; completed ones are never touched |
| Admin.CompleteBookings | myproject/booking/admin.py:195-197 | only selected confirmed bookings become completed; the count is the number of them |
| Admin.UpdateWhereSettles | myproject/booking/admin.py:186 | an update whose changed rows no longer match does nothing when run again |
| Admin.ConfirmSettles | myproject/booking/admin.py:185-187 | confirming the same selection twice: the second run updates nothing |
| Admin.CompleteSettles | myproject/booking/admin.py:195-197 | completing the same selection twice: the second run updates nothing |
| Admin.CancelCountsCancelled | myproject/booking/admin.py:190-192 | re-cancelling a cancelled booking counts it again and changes nothing |
| Admin.CancelKeepsSlotsDisjoint | myproject/booking/admin.py:190-192 | the bulk cancel never makes confirmed bookings overlap |
| Admin.CompleteKeepsSlotsDisjoint | myproject/booking/admin.py:195-197 | the bulk complete never makes confirmed bookings overlap |
| Admin.LeavingConfirmedKeepsSlotsDisjoint | myproject/booking/admin.py:190-197 | rows that only leave the confirmed state keep confirmed slots disjoint |
| Admin.LeavingConfirmedKeepsSlotsUnique | myproject/booking/admin.py:190-197 | rows that only leave the confirmed state keep the table's slot constraint, so cancelling and completing are never refused |
| Admin.ConfirmMayOverlap | myproject/booking/admin.py:185-187 | the bulk confirm runs no form check: a pending booking overlapping a confirmed one is confirmed beside it |
| Admin.ApplyBookingUpdate | myproject/booking/admin.py:186-196 | the update is applied and its count returned, or refused by the table with nothing changed |
| Admin.ConfirmBooking | myproject/booking/admin.py:185-187 | the table afterwards is `ConfirmBookings` of the old rows, or unchanged if the database refuses |
| Admin.CancelBooking | myproject/booking/admin.py:190-192 | the action always succeeds: the table afterwards is `CancelBookings` of the old rows and its count is returned, since the slot constraint never refuses rows that only leave the confirmed state |
| Admin.MarkBookingsCompleted | myproject/booking/admin.py:195-197 | the action always succeeds: the table afterwards is `CompleteBookings` of the old rows and its count is returned |
| Admin.CancelCollidesAsWritten | myproject/booking/admin.py:190-192 | as written, cancelling a booking whose slot already holds a cancelled booking breaks `unique_together`; under the corrected constraint the action counts one row |
| Admin.CompleteCollidesAsWritten | myproject/booking/admin.py:195-197 | the same collision for marking a booking completed beside a completed booking of the slot |
| Admin.Records.Apply | myproject/booking/admin.py:309 | the rows afterwards and the count are those of `UpdateWhere` |
| Admin.ApproveAds | myproject/booking/admin.py:308-310 | only selected pending ads become approved; the count is the number of them |
| Admin.RejectAds | myproject/booking/admin.py:313-315 | only selected pending ads become rejected; the count is the number of them |
| Admin.MarkAdsActive | myproject/booking/admin.py:318-320 | only selected approved ads become active; the count is the number of them |
| Admin.ApprovedNotRejected | myproject/booking/admin.py:308-315 | after approving, rejecting the same selection updates nothing |
| Admin.RejectedNotApproved | myproject/booking/admin.py:308-315 | after rejecting, approving the same selection updates nothing |
| Admin.ApproveAdsAction | myproject/booking/admin.py:308-310 | the ad table afterwards is `ApproveAds` of the old rows |
| Admin.RejectAdsAction | myproject/booking/admin.py:313-315 | the ad table afterwards is `RejectAds` of the old rows |
| Admin.MarkAdsActiveAction | myproject/booking/admin.py:318-320 | the ad table afterwards is `MarkAdsActive` of the old rows |
| Admin.MarkOngoing | myproject/booking/admin.py:402-404 | only selected upcoming tournaments become ongoing; the count is the number of them |
| Admin.MarkTournamentsCompleted | myproject/booking/admin.py:407-409 | only selected ongoing tournaments become completed; the count is the number of them |
| Admin.CancelTournaments | myproject/booking/admin.py:412-414 | every selected tournament, completed ones included, becomes cancelled, and all of them count |
| Admin.OngoingThenCompleted | myproject/booking/admin.py:402-409 | marking ongoing and then completed takes every selected upcoming tournament to completed |
| Admin.MarkOngoingAction | myproject/booking/admin.py:402-404 | the tournament table afterwards is `MarkOngoing` of the old rows |
| Admin.MarkTournamentsCompletedAction | myproject/booking/admin.py:407-409 | the tournament table afterwards is `MarkTournamentsCompleted` of the old rows |
| Admin.CancelTournamentsAction | myproject/booking/admin.py:412-414 | the tournament table afterwards is `CancelTournaments` of the old rows |
| Admin.BookingTimeSlot | myproject/booking/admin.py:145-146 | "HH:MM - HH:MM"; both halves read back as the booking's start and end to the minute |
| Admin.TournamentDaysCountsBothEnds | myproject/booking/admin.py:383 | the day count is the number of dates from start to end, both included |
| Admin.DateRange | myproject/booking/admin.py:383 | exactly the dates from the first to the last, both included |
| Admin.DateRangeSize | myproject/booking/admin.py:383 | a range of dates has last - first + 1 members |
| Admin.RulesShown | myproject/booking/admin.py:398 | rules of at most 100 characters are shown as they are; longer rules as their first 100 characters followed by "..." |
| Admin.EntryFeeShown | myproject/booking/admin.py:396 | "Free" if and only if the fee is not positive; otherwise the fee |
| Admin.PrizePoolShown | myproject/booking/admin.py:397 | "TBD" for an empty prize pool, otherwise the prize pool |
| Admin.TournamentSummary | myproject/booking/admin.py:382-399 | the day count is end minus start plus one: the number of dates when the start is not after the end, zero or less otherwise; fee, prize and rules are shown as above |
| UserSerializers.PasswordFieldError | myproject/user/serializers.py:12-13 | a password field passes if and only if it has at least 8 characters; an empty one gets the blank error and one of 1 to 7 characters the minimum-length error |
| UserSerializers.FieldErrors | myproject/user/serializers.py:12-13 | no field error if and only if both password fields are long enough |
| UserSerializers.Validate | myproject/user/serializers.py:19-22 | valid if and only if both fields are long enough and equal; different passwords fail under "password" with "Passwords must match"; success returns the data unchanged |
| UserSerializers.MatchingPasswordsAccepted | myproject/user/serializers.py:19-22 | equal passwords of 8 or more characters pass, whatever the other fields hold |
| UserSerializers.CreateUser | myproject/user/serializers.py:24-30 | the user carries the payload's other fields; the stored credential is `set_password`'s result, never the password itself |
| UserSerializers.ConfirmationNotStored | myproject/user/serializers.py:25 | `password2` has no effect on the user created |
| UserSerializers.Output | myproject/user/serializers.py:15-17 | the output carries email, names and phone |
| UserSerializers.PasswordsNeverOutput | myproject/user/serializers.py:12-13 | the output depends on neither password nor on the hash |
| UserSerializers.BookingsCount | myproject/user/serializers.py:41-42 | the number of the user's bookings: at most the number of rows, and 0 exactly when the user has no booking |
| UserViews.FieldMessages | myproject/user/views.py:19-20 | one "field: error" message per error of the field, in order |
| UserViews.ExpandErrorsCovers | myproject/user/views.py:18-20 | every (field, error) pair yields its "field: error" message |
| UserViews.ExpandErrorsNamesFields | myproject/user/views.py:18-20 | every message is "field: error" for some pair of the form's errors |
| UserViews.SignupMessages | myproject/user/views.py:18-20 | the nested loop emits exactly `ExpandErrors` of the form's errors |
| UserViews.SuccessUrl | myproject/user/views.py:39-45 | "/admin/" if and only if the user is staff or superuser, "/" otherwise |
| UserViews.RegisteredUserGoesHome | myproject/user/views.py:39-45 | a user created by registration is sent to "/" |
| UserViews.Backfilled | myproject/user/views.py:65-68 | the user's zero-priced rows get the computed price with nothing else changed; every other row stays |
| UserViews.BackfillIdempotent | myproject/user/views.py:65-68 | running the backfill twice gives the same table as running it once |
| UserViews.BackfillLeavesOthersAlone | myproject/user/views.py:65-68 | other users' rows are never touched |
| UserViews.ProfileLeavesNoneUnpriced | myproject/user/views.py:65-68 | after the backfill, a booking of the user still at 0 is one whose computed price is 0 |
| UserViews.RepricingKeepsConstraints | myproject/user/views.py:67-68 | saving a new price keeps both the slot constraint and the slot invariant, so the save cannot fail |
| UserViews.ProfileOf | myproject/user/views.py:62-74 | a permutation of the user's bookings, latest date and start first; the total equals the bookings count; confirmed <= total |
| UserViews.ProfileConfirmedCount | myproject/user/views.py:73 | the confirmed count of the ordered list is the number of the user's confirmed rows in the table |
| UserViews.ProfileView | myproject/user/views.py:60-75 | the table afterwards is the backfilled table, and the page shows `ProfileOf` it |
| UserViews.PriceRow | myproject/user/views.py:66-68 | one loop step prices and saves the row if it is the user's and unpriced |

## Left out

- Floating point and decimals: `float(...)` in `calculate_price`, `DecimalField` quantisation to 2 places, `FloatField` ratings and the `duration_display` formatting are modelled with exact reals and integer paise. Nothing is rounded.
- Sub-second times: the model keeps times in whole seconds, but the form's and the API's time fields also accept fractional seconds. Two behaviours are dropped. The duration test near 1800 s and 14400 s cannot see a fraction: an end of 10:29:59.5 after a start of 10:00 is too short in the source and has no model input. The availability text of such a time carries a ".ffffff" suffix that `Clock.HhMmSs` does not produce. For whole-second times, comparing seconds against 1800 and 14400 is the same test as the hours comparison.
- `isdigit` is modelled for ASCII digits only; other Unicode digits are not.
- Date and time text: `strptime` parsing of the availability date is a parameter (`parsed`). `strftime` dates in the admin (`%d %b %Y`) are left out; dates are day numbers.
- Timestamps (`created_at`, `updated_at`, `date_joined`), `timezone.now()` and `date.today()` are left out or taken as a `today` parameter.
- The availability response is a map; the key order of the JSON dictionary is left out.
- Database behaviour: the table enforces the corrected slot constraint (see Findings). `Store.BookingTable.Update` refuses a bulk update that would break it; how a real database would report that is not modelled. Equal sort keys are left in the insertion sort's order; the database leaves their order open.
- DRF's generated unique-together validator on `BookingSerializer` is not modelled. `Serializers.ApiCreate`'s only refusal is the table's.
- DRF field-level behaviour: whitespace trimming, "required" errors and the model-derived validators (email format and uniqueness, phone length) are left out. `UserSerializers.PasswordFieldError` models only the blank check and `min_length=8`.
- `UserViews.ProfileView` visits the table in table order, not in the profile's sort order. Each step saves a different row, so the final table is the same.
- Authentication, sessions and password hashing (`login`, `logout`, `authenticate`, `set_password`): `set_password` is a function parameter of `UserSerializers.CreateUser`. `signup_view`'s success path (`form.save`, login), the login and logout messages, `home_view` and the welcome text are left out.
- HTML rendering, `format_html` badges and colours, admin fieldsets, inlines, list filters and search, `messages` text from the admin actions, and `court_count`/`booking_count` display columns are left out.
- The venue list and detail pages, `advertise_page` and the viewsets' search and ordering back-ends are thin framework wrappers and are left out; the advertisement form's only logic is `Forms.MobileError`.
- `CourtSerializer` names a `created_at` field that `Court` lacks; that is framework metadata and is not modelled.
- The review table's `unique_together = (venue, user)` (models.py:90) and the tournament defaults (models.py:142) are not modelled: no modelled operation creates reviews or tournaments.
- `Views.CreateEffect`, `Views.BookingCreate` and the lemmas about them take drafts whose player count passed the field's bounds (`Forms.FieldsValid`). A count outside 1..12 makes `is_valid()` fail with a field error that is not modelled.
- Serializers.VenueDetailOf: the nested courts and reviews are in table order. Courts are ordered by name in the source, and string collation is not modelled. Reviews are ordered by `created_at`, which is left out.
- ApiViews.Availability: the venue's courts are given. The 404 that `get_object()` answers for an unknown venue, before the date is read, is not modelled.
- `Models.SumRatingsBounds` and `Models.AverageRatingBounds` assume ratings in 1..5, as the review validators ensure; stored ratings outside that range are not considered.

## Findings

| source | as written | input that shows it | evidently intended | confidence | as-written member | corrected member |
|---|---|---|---|---|---|---|
| myproject/booking/models.py:67 | `unique_together = (court, date, start_time, status)` also makes two cancelled bookings of one slot collide | book a slot, cancel it, book the same slot again, cancel again: the second cancellation breaks the constraint and the endpoint fails | only confirmed bookings of a slot must be unique; cancelled history must not block a cancellation | high, not executed | ApiViews.SecondCancelRefusedAsWritten | ApiViews.CancelSucceeds |
| myproject/booking/models.py:67 | the same constraint applies to the admin action `cancel_booking` (admin.py:190-192) | a cancelled booking and a confirmed booking of one slot: cancelling the confirmed one makes the two rows collide and the `UPDATE` fails | the action cancels the booking and counts it | high, not executed | Admin.CancelCollidesAsWritten | Admin.CancelBooking |
| myproject/booking/models.py:67 | the same constraint applies to the admin action `mark_completed` (admin.py:195-197) | a completed booking and a confirmed booking of one slot: completing the confirmed one makes the two rows collide and the `UPDATE` fails | the action completes the booking and counts it | high, not executed | Admin.CompleteCollidesAsWritten | Admin.MarkBookingsCompleted |
| myproject/booking/forms.py:36 | the duration is computed with `datetime.combine(date, ...)` even when the date field failed to clean, so `date` is `None` | a form with an invalid date and valid start and end times: `combine(None, t)` raises a TypeError instead of reporting the date error | the duration depends only on the two times; the check should run without the date | high, not executed | Forms.InvalidDateCrashesCleanAsWritten | Forms.Clean |
