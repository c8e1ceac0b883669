# A verified model of the leasing platform

The platform lets property companies rent out spaces: tenants and marketplaces book them, staff walk
bookings through their lifecycle, invoices are issued and paid, and dashboards report on all of it. This
project models the parts that hold state (tables become maps and sequences inside classes, each service
call is a method that changes them) and proves what those parts are for. Every method is tied to a
function of the old state, and the laws about runs are lemmas about those functions.

Conventions: ids are serial numbers, instants are integer milliseconds in UTC with 24-hour days, money
is integer cents, rows the database would refuse are refusals of the call.

## What is proved

- **Sessions** (`AuthSessions.dfy`, `SessionProtocol.dfy`, `SessionOutcomes.dfy`, `SessionRaces.dfy`). Over every
  server run a verified refresh token is accepted if and only if it is the newest token of a live session of its user,
  or that user's unmigrated legacy token; what is replaced, logged out or revoked stays refused for ever. Together
  with any number of browser tabs, whose 401s, refresh requests, replies and retries interleave freely, a tab has at
  most one refresh in flight, re-sends a request at most once, and is never refused while its session lives and the
  token is unexpired. A granted token is what the tab then stores; a tab stays logged in exactly until it is signed
  out or sees a refused refresh outside restoring; a request is re-sent exactly if its refresh brought a token, and
  none is ever stuck. Where refreshes outside the single slot are admitted, a live session loses an unexpired one
  exactly when its token was exchanged first, and a restored tab that writes its old token back falls behind exactly
  when that happened.
- **Bookings** (`BookingLedger.dfy`, `BookingLaws.dfy`, `Quotes.dfy`, `Deliveries.dfy`, `Markers.dfy`,
  `BookingAnswers.dfy`, `BookingService.dfy`). A run never double-books a space exactly when the two unguarded steps
  (accepting an application, rescheduling one end) land clear; every other step preserves it. For every call it is
  proved in terms of the rows it found when exactly it goes through and what it leaves behind:
  a slot is refused only for a standing booking that shares an instant with it, and an accepted lease costs the
  monthly rate times its months plus its add-ons. A booking changes status at most four times, and one opened by an
  application becomes active only after call, visit and finalisation with a contract on file. Each booking is invoiced
  at most once, and for what it was quoted exactly when its add-ons cost as much at invoicing as at the opening. A
  marketplace inquiry delivered again leads to its first booking exactly until that booking is deleted, rejected or
  refused; its raw marker, searched in the notes' JSON text, stands for the id exactly when the id needs no escaping.
- **Views of the ledger** (`Availability.dfy`, `OccupancyLaws.dfy`, `Heatmap.dfy`). The published calendar is exactly
  the set of free working hours of the window, in order, by the Gregorian calendar, and the 400-slot cut never removes
  one. Bookings asked for, confirmed or used stay apart over every run, acceptances included, exactly when one-sided
  reschedules of them land clear, and those the heatmap counts exactly when approvals land clear as well; then booked
  time fits the window and the heatmap's clamp never changes a value. Booked time is exactly the sum of the clipped
  confirmed, checked-in and completed stays.
- **Billing** (`Billing.dfy`, `BillingAnswers.dfy`, `BillingLaws.dfy`, `RefundsAndRevivals.dfy`). When each call goes
  through and where it leaves the invoice. The exact relation between status, completed payments and total over every
  run; exactly which calls leave a paid invoice without cover or revive a cancelled one; and the reminder tiers as an
  exact prefix of 1, 7, 14, from the due date through the sweep to the reminder.
- **Portfolios** (`Portfolio.dfy`, `JointBooks.dfy`). Whatever is summed, the landlords' portfolios add up to the
  platform less exactly the invoices linked to no booking, at every moment of a joint run of the booking and the
  billing ledger; booking counts add up exactly when no landlord rents from another.
- **Reports** (`Calendar.dfy`, `Trends.dfy`, `Forecast.dfy`). Daily, weekly and monthly bars conserve the selected
  rows; the forecast counts each lease's rent once per timeline month it meets.
- **Promotion codes** (`Promotion.dfy`). Under any interleaving the counter is exact, and it stays within the limit in
  force exactly when no edit goes below it and no increment passes on a limit that was lowered meanwhile.
- **CSV** (`Csv.dfy`). A parser for section 2 of RFC 4180 inverts the printer exactly where inversion is possible. The
  parser departs from the RFC twice, both times because of what the printer emits: it takes more characters unquoted,
  and a final line break opens one more record, since a row of one empty cell prints as nothing
  (`Csv.FinalBreakIsRow`).
- **Maintenance** (`Maintenance.dfy`) and **slugs** (`Slugs.dfy`). The ticket machine's invariants; termination,
  freshness and form of generated slugs, which are the words of the name joined by hyphens and cut.

## Where the code and its documentation differ

- The comment above the calendar builder promises about 60 weekdays; the code walks 60 calendar days, which hold
  40 to 44 weekdays. The model follows the code.
- A message shown for promotion codes calls every lost race "fully used"; the model shows that the code was
  either exhausted or switched off.
- The presentation says the three portfolios add up to exactly the platform total. Portfolio lists and summaries fall
  short of it by exactly the invoices linked to no booking. Dashboards, which also filter by tenant, exceed it by the
  linked invoices of landlords renting from others and fall short by the unlinked invoices of everybody else.

## Results that say where the code falls short

- `BookingLaws.AcceptingCanDoubleBook`, `BookingLaws.OneSidedRescheduleCanDoubleBook`: accepting an application and
  moving only one end of a booking do not look at the calendar. Exact condition: `BookingLaws.NoDoubleBookingIff`.
- `Heatmap.OneSidedRescheduleOverfillsWindow`: such a move can book 35 units of time in a window of 30. Exact conditions:
  `Heatmap.BookedFitsIff` for one state and `OccupancyLaws.TrackApartIff` for the runs it rests on.
- `RefundsAndRevivals.RefundedInvoiceStaysPaid`: a fully refunded invoice stays PAID. Exact condition:
  `RefundsAndRevivals.CoveredIff`.
- `RefundsAndRevivals.CancelledInvoiceIsRevived`: confirming a pending payment turns a cancelled invoice into a paid
  one. Exact condition: `RefundsAndRevivals.CancelledIsFinalIff`.
- `Promotion.LoweredLimitCanBePassed`: a redeemer that checked the code before its limit was lowered still consumes.
  Exact condition: `Promotion.WithinLimitIff`.
- `Deliveries.RejectedInquiryBooksAgain`: rejecting overwrites the notes and with them the marker, so the same inquiry
  books again. Exact condition: `Deliveries.RedeliveryIff`.
- `Markers.OwnNotesFoundIff`: an inquiry whose id has a quote, a backslash or a control character is never recognised
  when it is delivered again. Exact condition: `Markers.SearchComparesIff`.
- `Quotes.EditedBookingCostsMore`: a pending booking quoted 100 that is given an add-on and then approved is invoiced
  120. Exact condition: `Quotes.QuoteEqualsInvoiceIff`.
- `Portfolio.RecordedInvoiceIsInNoPortfolio`: the platform counts an invoice recorded by hand, no landlord does. Exact
  condition: `Portfolio.InvoiceCountsAddUpIff`.
- `SessionRaces.DirectRefreshLosesTheOther`: of two refreshes with one token the second is refused though the session
  lives. Exact condition: `SessionRaces.RacedRefreshIff`; for the token a restored tab writes back,
  `SessionRaces.WriteBackFallsBehindIff`.
- `SessionOutcomes.LateReplyLogsInAgain`: signing out does not stop a refresh under way, whose reply then logs the tab
  in again. Exact condition: `SessionOutcomes.HoldsAfterIff`.
- `Slugs.CutLeavesHyphen`: a name cut behind a word ends in a hyphen, and gets a double hyphen with its suffix. Exact
  condition: `Slugs.SlugEndsInHyphenIff` and `Slugs.SuffixedIsWellFormed`.
- `Forecast.LastOfJanuaryOverflows`: a timeline covers the current month and as many more as asked for, and late in a
  long month one more still. Exact condition: `Forecast.ShiftedMonth`.
- `Forecast.LateStarterIsMissed`: the timeline's last month misses leases that start after the horizon's last instant.
  Exact amount: `Forecast.FilterMissesLateStarters`.

## Model

| member | source | states |
|---|---|---|
| AuthSessions.AuthService.GenerateTokens | backend/src/auth/auth.service.ts:36-51 | the token is new and names its user and session |
| AuthSessions.AuthService.CreateUserSession | backend/src/auth/auth.service.ts:54-62 | a new row under an unused id; no other row changes |
| AuthSessions.AuthService.RotateUserSession | backend/src/auth/auth.service.ts:64-72 | the row's token is replaced, its user and all other rows stay |
| AuthSessions.AuthService.IssueSessionTokens | backend/src/auth/auth.service.ts:81-94 | a login's whole effect on rows, tokens and reply |
| AuthSessions.AuthService.RefreshToken | backend/src/auth/auth.service.ts:267-333 | all three lookup branches, the migration of a legacy token, every refusal |
| AuthSessions.AuthService.Logout | backend/src/auth/auth.service.ts:335-353 | every row and legacy column holding the token is cleared, if the token verifies |
| AuthSessions.AuthService.RevokeSession | backend/src/auth/auth.service.ts:466-484 | only the user's own other session is deleted; the refusals |
| AuthSessions.AuthService.RevokeOtherSessions | backend/src/auth/auth.service.ts:486-498 | all the user's sessions but the current one are deleted |
| AuthSessions.AuthService.IssuePasswordResetToken | backend/src/auth/auth.service.ts:378-393 | the reset token is signed like a refresh token and stored with the user, but in no session |
| AuthSessions.StepKeepsValid | backend/src/auth/auth.service.ts:64-94 | every call keeps stored tokens distinct, issued, and their sessions' newest |
| AuthSessions.RunKeepsValid | backend/src/auth/auth.service.ts:267-352 | the invariant holds after every run |
| AuthSessions.RowHoldsNewest | backend/src/auth/auth.service.ts:64-72 | a row stores a token iff it is the newest issued for that session |
| AuthSessions.AcceptedIffCurrent | backend/src/auth/auth.service.ts:283-312 | a refresh succeeds iff the token verifies and is the newest of a live session or the unmigrated legacy token |
| AuthSessions.AcceptedIffCurrentInRuns | backend/src/auth/auth.service.ts:267-333 | the same after every server run |
| AuthSessions.RefreshActsOnCurrent | backend/src/auth/auth.service.ts:294-319 | a refresh retires exactly the presented token and adds exactly the new one |
| AuthSessions.LogoutActsOnCurrent | backend/src/auth/auth.service.ts:335-352 | logout retires exactly the presented token |
| AuthSessions.LoginActsOnCurrent | backend/src/auth/auth.service.ts:81-94 | a login retires nothing and adds one token |
| AuthSessions.CallActsOnCurrent | backend/src/auth/auth.service.ts:466-498 | for every call, exactly which tokens are still accepted afterwards |
| AuthSessions.StepKeepsOtherRows | backend/src/auth/auth.service.ts:314-319 | a surviving row changes only when its own token is refreshed |
| AuthSessions.RetiredForever | backend/src/auth/auth.service.ts:74-78 | an issued token that is refused once is refused after every further run |
| AuthSessions.ReplayIsRefused | backend/src/auth/auth.service.ts:283-293 | a token that was refreshed is refused in every later state; its successor is current |
| AuthSessions.RevokeDoneIff | backend/src/auth/auth.service.ts:466-498 | a user ends exactly the sessions of its own that it names, and never the current one |
| AuthSessions.ResetTokenNeverRefreshes | backend/src/auth/auth.service.ts:378-393 | a password reset token is kept with its user and refused as a refresh token in every later state |
| SessionProtocol.ApiClient.RefreshAccessToken | frontend/src/api/client.ts:46-75 | callers join the refresh in flight, start one from the stored token, or get nothing |
| SessionProtocol.ApiClient.OnRefreshReply | frontend/src/api/client.ts:53-71 | a reply's token is stored and the slot is freed in every case |
| SessionProtocol.ApiClient.OnRefreshFailed | frontend/src/api/client.ts:100-103 | storage is cleared unless the session is being restored |
| SessionProtocol.ActionKeepsInv | frontend/src/api/client.ts:45-104 | every step of tabs, network and server keeps the protocol invariant |
| SessionProtocol.ExecutionKeepsInv | frontend/src/api/client.ts:45-104 | the invariant holds in every reachable state |
| SessionProtocol.OneRefreshInFlight | frontend/src/api/client.ts:45-51 | a tab never has two refresh messages under way |
| SessionProtocol.RetriedAtMostOnce | frontend/src/api/client.ts:92-98 | a request is sent at most twice, the second time only after its one retry |
| SessionProtocol.LiveSessionIsNeverRejected | backend/src/auth/auth.service.ts:283-293 | a refresh under way is granted iff its token is unexpired and its session still exists |
| SessionProtocol.TabKeepsUp | frontend/src/api/client.ts:55-65 | a tab's stored token is the one the server holds, or that one is in the reply under way to the tab |
| SessionRaces.RacedRefreshIff | frontend/src/store/authStore.ts:137-167 | with direct refreshes admitted, a refresh under way is granted iff its token is unexpired, its session still exists and nobody exchanged the token first |
| SessionRaces.SecondRefreshIff | frontend/src/store/authStore.ts:160-161 | of two refreshes with one token the second succeeds iff the first came too late and the session still lives |
| SessionRaces.DirectRefreshLosesTheOther | frontend/src/store/authStore.ts:160-161 | a live session with two refreshes under way, of which the second is refused |
| SessionRaces.WriteBackFallsBehindIff | frontend/src/store/authStore.ts:176-180 | the token a restored tab read at its start and writes back at the end is behind the server iff the session lives and somebody exchanged that token meanwhile |
| SessionRaces.CurrentAfterRunIff | backend/src/auth/auth.service.ts:283-319 | over every run a session's token stays the accepted one exactly while the session lives and no call exchanged it |
| SessionProtocol.TabsNeverShareSessions | backend/src/auth/auth.service.ts:81-94 | tokens held by different tabs belong to different sessions |
| SessionOutcomes.ServedIff | backend/src/auth/auth.service.ts:267-333 | over every execution a refresh is answered with a token iff the presented one is unexpired and its session lives; that token is the session's row from then on, signed for its user and expiry |
| SessionOutcomes.DeliveryStores | frontend/src/api/client.ts:53-71 | a granted reply is what the tab stores, a refusal leaves the stored token as it was; the slot is freed, other tabs are untouched |
| SessionOutcomes.LoginStores | backend/src/auth/auth.service.ts:81-94 | a login opens a session unknown before and leaves the tab with the token of its row |
| SessionOutcomes.HoldsAfterIff | frontend/src/api/client.ts:53-103 | after any step a tab holds a token iff the step brought one, or it held one and the step was neither a sign-out nor a refused refresh outside restoring |
| SessionOutcomes.StaysLoggedInIff | frontend/src/api/client.ts:92-103 | over every execution a tab stays logged in from one moment to another iff nothing of the kind happened between |
| SessionOutcomes.LoggedInTabKeepsSession | frontend/src/api/client.ts:53-71 | from its login on such a tab stores the token the server holds, or that one is in the reply under way to it, unless the session ended |
| SessionOutcomes.LateReplyLogsInAgain | frontend/src/api/client.ts:61-63 | a tab signed out while its refresh was under way stores the token the late reply brings |
| SessionOutcomes.First401Outcome | frontend/src/api/client.ts:46-103 | a first 401 waits for the refresh under way or for a new one carrying the stored token, and ends the request iff there is neither; a second 401 ends it |
| SessionOutcomes.ResumeOutcome | frontend/src/api/client.ts:94-103 | a waiting request is sent again iff its refresh brought a token; otherwise it ends and storage is cleared outside restoring |
| SessionOutcomes.RetriedIffRefreshed | frontend/src/api/client.ts:92-103 | over every execution: from the 401 through the delivered reply to the wake-up, the request is sent twice iff that reply carried a token |
| SessionOutcomes.SlotTakenIffUnderWay | frontend/src/api/client.ts:46-75 | a tab's slot is taken exactly while a refresh of it is under way |
| SessionOutcomes.WaitingCanGoOn | frontend/src/api/client.ts:66-75 | in every reachable state a waiting request can wake up, or its refresh can be served or delivered |
| SessionOutcomes.PlainStepsOutcome | frontend/src/api/client.ts:77-87 | a new request goes out once, and any answer but a 401 ends one |
| BookingService.GenerateInvoice | backend/src/billing/billing.service.ts:88-132 | the loop's invoice is rent plus quantity times price of each add-on, one line each |
| BookingService.CopyAddons | backend/src/booking-application/booking-application.service.ts:655-664 | the application's add-ons are copied under new ids with quantities and prices kept |
| BookingService.BookingDesk.CheckAvailability | backend/src/booking/booking.service.ts:211-240 | free iff no live booking of the space meets the closed interval |
| BookingService.BookingDesk.ResolveBookingAddons | backend/src/booking/booking.service.ts:134-193 | refused iff some wanted service is not offered; otherwise priced for the lease |
| BookingService.BookingDesk.IssueBookingInvoice | backend/src/booking/booking.service.ts:195-208 | a billed booking is left alone; otherwise one invoice is added and linked |
| BookingService.BookingDesk.Create | backend/src/booking/booking.service.ts:322-407 | all refusals, the opening status by role, the quote, the invoice when confirmed at once |
| BookingService.BookingDesk.HandleInquiry | backend/src/marketplace/marketplace-webhook.service.ts:147-221 | signature, duplicate delivery, range and conflict checks, and the pending booking |
| BookingService.BookingDesk.FindOneForUser | backend/src/booking/booking.service.ts:560-571 | a booking is returned iff the caller may read it and it exists; a forbidden one is refused as such whether or not it exists |
| BookingService.BookingDesk.Update | backend/src/booking/booking.service.ts:574-604 | new times; availability is checked only when both are given |
| BookingService.BookingDesk.Approve | backend/src/booking/booking.service.ts:607-673 | pending becomes confirmed and billed; a confirmed booking is left alone |
| BookingService.BookingDesk.Reject | backend/src/booking/booking.service.ts:675-716 | pending becomes cancelled, and the overwritten notes lose the inquiry marker |
| BookingService.BookingDesk.Cancel | backend/src/booking/booking.service.ts:751-783 | any status but cancelled becomes cancelled |
| BookingService.BookingDesk.CheckIn | backend/src/booking/booking.service.ts:786-797 | only a confirmed booking is checked in |
| BookingService.BookingDesk.CheckOut | backend/src/booking/booking.service.ts:800-811 | only a checked-in booking is completed |
| BookingService.BookingDesk.AddAddon | backend/src/booking/booking.service.ts:814-829 | the add-on row is added; the quote is not touched |
| BookingService.BookingDesk.RemoveAddon | backend/src/booking/booking.service.ts:832-837 | the add-on of that id is deleted wherever it belongs |
| BookingService.BookingDesk.Remove | backend/src/booking/booking.service.ts:840-843 | the booking row disappears, its invoice stays |
| BookingService.BookingDesk.ConfirmPhoneCall | backend/src/booking/booking.service.ts:846-872 | call confirmed by the assigned receptionist or other staff |
| BookingService.BookingDesk.MarkPhoneUnreachable | backend/src/booking/booking.service.ts:894-922 | the booking is refused and its space released |
| BookingService.BookingDesk.MarkDocumentsPending | backend/src/booking/booking.service.ts:940-956 | after the visit, documents are awaited |
| BookingService.BookingDesk.AddDocument | backend/src/booking/booking.service.ts:958-994 | at most five documents |
| BookingService.BookingDesk.RemoveDocument | backend/src/booking/booking.service.ts:996-1013 | one document is removed, the others keep their order |
| BookingService.BookingDesk.FinalizeBooking | backend/src/booking/booking.service.ts:1015-1057 | active only with a contract on file; the space is reserved and unpublished |
| BookingService.BookingDesk.AcceptApplication | backend/src/booking-application/booking-application.service.ts:602-727 | who may accept, the booking opened, add-ons, space, application and invoice |
| BookingService.UnavailableStays | backend/src/booking/booking.service.ts:175-181 | one unavailable add-on refuses the whole list |
| BookingAnswers.CreateDoneIff | backend/src/booking/booking.service.ts:211-360 | a booking is made iff the caller may book for the tenant, the space exists, no booking of it that is not cancelled, missed or refused shares an instant, and all services are on offer; which error names which obstacle |
| BookingAnswers.CreatedRow | backend/src/booking/booking.service.ts:354-407 | the row a creation leaves: tenant, user, slot, status by role and space, price, quote with add-ons, and the invoice for the quote iff it opens confirmed |
| BookingAnswers.MonthsAreThirtyDays | backend/src/booking/booking.service.ts:129-132 | a lease lasts n months iff n - 1 times 30 days are too short and n times are not |
| BookingAnswers.ResolvedIffAllOffered | backend/src/booking/booking.service.ts:134-193 | add-ons are resolved iff each service is active and linked or the landlord's; each at the price for the lease's cycle and months |
| BookingAnswers.RescheduleDoneIff | backend/src/booking/booking.service.ts:574-604 | new times are taken iff, both being given, no other standing booking shares an instant with them; an end not given stays |
| BookingAnswers.CancellingMakesRoom | backend/src/booking/booking.service.ts:211-240 | a creation refused for a conflict is accepted once the only booking in its way is cancelled, iff its services are on offer |
| BookingAnswers.CancelledSlotIsBooked | backend/src/booking/booking.service.ts:211-240 | the same as three calls of a run |
| BookingAnswers.InquireDoneIff | backend/src/marketplace/marketplace-webhook.service.ts:147-199 | an inquiry is booked iff signed, new, for a known space, with a user, a proper interval and no overlap with a booking neither cancelled nor missed |
| BookingAnswers.InquiredRow | backend/src/marketplace/marketplace-webhook.service.ts:201-221 | the pending booking it opens |
| BookingAnswers.AcceptDoneIff | backend/src/booking-application/booking-application.service.ts:602-612 | who may accept which application |
| BookingAnswers.AcceptedRow | backend/src/booking-application/booking-application.service.ts:614-727 | the applicant's booking at rate times months with its end, the invoice for it and the application's add-ons, the application closed on it, the space reserved, nothing else changed |
| BookingAnswers.MoveDoneIff | backend/src/booking/booking.service.ts:607-1057 | every lifecycle step goes through exactly for its roles, visible bookings and statuses, with its extra guard; it sets the target status and touches no other booking |
| BookingAnswers.MovesAndSpaces | backend/src/booking/booking.service.ts:894-1057 | which steps release or reserve the space |
| BookingAnswers.MovesAndInvoices | backend/src/booking/booking.service.ts:607-673 | only an approval issues an invoice, once, for price and add-ons |
| BookingAnswers.AddDocumentDoneIff | backend/src/booking/booking.service.ts:958-994 | a document is filed iff fewer than five are on file |
| BookingAnswers.RemoveDocumentDoneIff | backend/src/booking/booking.service.ts:996-1013 | one document is taken out, the others keep their order |
| BookingAnswers.FilesFitInRuns | backend/src/booking/booking.service.ts:958-994 | over every run no booking has more than five documents |
| BookingAnswers.AddAddonDoneIff | backend/src/booking/booking.service.ts:814-829 | an add-on of a known service is appended as given; the quote stays |
| BookingAnswers.RemoveAddonDoneIff | backend/src/booking/booking.service.ts:832-837 | the add-on disappears wherever it is, all others stay as often as they were there |
| BookingAnswers.AddonsNumberedInRuns | backend/src/booking/booking.service.ts:832-837 | over every run no two add-on rows share a number |
| BookingAnswers.RemoveDoneIff | backend/src/booking/booking.service.ts:840-843 | a deletion takes away the booking and nothing else |
| BookingAnswers.RecordedInvoice | backend/src/billing/billing.service.ts:161-234 | an invoice recorded by hand is appended as given |
| BookingLaws.CheckedStepKeepsNoOverlap | backend/src/booking/booking.service.ts:211-240 | every call but acceptance and a one-sided reschedule keeps live bookings of a space apart |
| BookingLaws.DoneIffGoesThrough | backend/src/booking-application/booking-application.service.ts:602-631 | exactly when the two unguarded calls are not refused, guard by guard |
| BookingLaws.UncheckedStepIff | backend/src/booking/booking.service.ts:574-604 | the two unguarded calls keep bookings apart iff the new interval lands clear |
| BookingLaws.NoDoubleBookingIff | backend/src/marketplace/marketplace-webhook.service.ts:189-221 | a run has no double booking at any moment iff each unguarded call in it landed clear |
| BookingLaws.AcceptingCanDoubleBook | backend/src/booking-application/booking-application.service.ts:602-653 | two acceptances that double-book one space |
| BookingLaws.OneSidedRescheduleCanDoubleBook | backend/src/booking/booking.service.ts:577-597 | a reschedule with one end that double-books |
| BookingLaws.StatusMovesAlongEdges | backend/src/booking/booking.service.ts:607-811 | a status changes only along the lifecycle's edges, by a call on that booking, and its rank rises |
| BookingLaws.AtMostFourStatusChanges | backend/src/booking/booking.service.ts:846-1057 | over every run a booking changes status at most four times |
| BookingLaws.FourStatusChangesHappen | backend/src/booking/booking.service.ts:607-811 | four changes do occur, so the bound is exact |
| BookingLaws.PresentThroughout | backend/src/booking/booking.service.ts:840-843 | a deleted booking never comes back |
| BookingLaws.ActivationPath | backend/src/booking/booking.service.ts:846-1057 | an active booking that awaited its call was called, then visited, then finalised with a contract on file |
| BookingLaws.LinesAddUp | backend/src/billing/billing.service.ts:88-114 | rent line plus add-on lines sum to rent plus add-on total |
| BookingLaws.StepKeepsBillsMatch | backend/src/booking/booking.service.ts:195-208 | every call keeps invoices and bookings pointing at each other, one to one |
| BookingLaws.RunKeepsBillsMatch | backend/src/booking/booking.service.ts:195-208 | the same over every run |
| BookingLaws.InvoicedAtMostOnce | backend/src/booking/booking.service.ts:195-208 | over every run a booking has at most one generated invoice, and its total is the sum of its lines |
| Quotes.QuoteEqualsInvoiceIff | backend/src/booking/booking.service.ts:354-407 | over every run an invoice asks for exactly the quoted amount iff the add-ons cost as much at invoicing as at the opening of the booking; later edits do not matter |
| Quotes.QuoteEqualsInvoice | backend/src/booking/booking.service.ts:354-407 | a booking whose add-ons nobody edited is invoiced for exactly its quote |
| Quotes.EditedBookingCostsMore | backend/src/booking/booking.service.ts:814-829 | a run in which a booking quoted 100 is invoiced 120 |
| Quotes.RunKeepsMoney | backend/src/booking/booking.service.ts:814-837 | over every run a booking keeps its quote and its invoice, and invoices are never rewritten |
| Deliveries.RunKeepsMarkersUnique | backend/src/marketplace/marketplace-webhook.service.ts:169-175 | over every run no two bookings carry the same inquiry |
| Deliveries.StepCarriesIff | backend/src/booking/booking.service.ts:692-701 | a booking keeps its inquiry in every call but a deletion, rejection or refusal of that booking |
| Deliveries.RedeliveryIff | backend/src/marketplace/marketplace-webhook.service.ts:169-175 | after any run, delivering a booked inquiry again changes nothing and names the first booking iff no call since deleted, rejected or refused it |
| Deliveries.RejectedInquiryBooksAgain | backend/src/booking/booking.service.ts:692-701 | a run in which a rejected inquiry is booked a second time |
| Markers.MarkerFoundIff | backend/src/marketplace/marketplace-webhook.service.ts:169-205 | a marker is found in a booking's notes only at the member of its inquiry, whatever the guest's e-mail and name, and iff the raw id and a quote begin the escaped text there |
| Markers.OwnNotesFoundIff | backend/src/marketplace/marketplace-webhook.service.ts:169-205 | an inquiry is recognised by its own notes iff its id has no quote, backslash or control character |
| Markers.SearchComparesIff | backend/src/marketplace/marketplace-webhook.service.ts:169-175 | searching the marker is comparing the ids, for all notes, iff the id needs no escaping |
| Markers.ContainsIff | backend/src/marketplace/marketplace-webhook.service.ts:170-172 | the search finds the marker iff it stands at some position |
| Markers.ReadInverse | backend/src/marketplace/marketplace-webhook.service.ts:201-207 | reading JSON text gives back the string that was written |
| Availability.WindowHasAtMost44Workdays | backend/src/marketplace/marketplace-sync.service.ts:23-41 | 60 days hold between 40 and 44 weekdays, whatever day they start on |
| Availability.ListDay | backend/src/marketplace/marketplace-sync.service.ts:42-53 | one day adds its free hours, in order, and at most eight |
| Availability.BuildAvailabilityCalendar | backend/src/marketplace/marketplace-sync.service.ts:20-58 | listed iff a free working hour of the window; ascending and disjoint; at most 352, so the cut at 400 removes nothing |
| Availability.FreeIffOffered | backend/src/marketplace/marketplace-sync.service.ts:20-58 | the builder's grid is, by dates, the whole hours from 9 to 17 of Mondays to Fridays among 60 days that no booking neither cancelled nor missed meets |
| Calendar.WeekdayIsGregorian | backend/src/marketplace/marketplace-sync.service.ts:40-41 | counting days agrees with the Gregorian rule for the day of the week of a date |
| Availability.PrefilterLosesNothing | backend/src/marketplace/marketplace-sync.service.ts:28-35 | the query's date filter loses no booking that meets a slot |
| Availability.ListedIffInquiryBooks | backend/src/marketplace/marketplace-webhook.service.ts:189-221 | a slot is listed iff an inquiry for it is booked, and booking it removes exactly that slot |
| OccupancyLaws.StepTrackIff | backend/src/booking/booking.service.ts:574-604 | bookings asked for, confirmed or used stay apart in every call iff a one-sided reschedule of one of them lands clear |
| OccupancyLaws.TrackApartIff | backend/src/booking/booking.service.ts:607-811 | the same over every run, acceptances included |
| OccupancyLaws.StepCountedIff | backend/src/booking/booking.service.ts:607-673 | confirmed, checked-in or completed bookings stay apart in a call iff an approval or a one-sided reschedule lands clear of them |
| OccupancyLaws.CountedApartIff | backend/src/analytics/analytics.service.ts:573-580 | over every run the bookings the heatmap counts never overlap iff each approval and each one-sided reschedule of one of them landed clear of the others |
| Heatmap.CoveredAtMostOnce | backend/src/analytics/analytics.service.ts:573-597 | each instant is covered by at most one counted booking |
| Heatmap.BookedFitsWindow | backend/src/analytics/analytics.service.ts:582-597 | clipped bookings of a space add up to no more than the window |
| Heatmap.BookedFitsIff | backend/src/analytics/analytics.service.ts:582-597 | booked time fits every window iff no two counted bookings of the space share an instant |
| Heatmap.GuardsKeepCountedApart | backend/src/analytics/analytics.service.ts:573-580 | what the booking guards keep is what the bound needs |
| Heatmap.BookedFitsInRuns | backend/src/analytics/analytics.service.ts:582-603 | at every moment of every run, acceptances included, booked time fits every window if one-sided reschedules landed clear |
| Heatmap.OneSidedRescheduleOverfillsWindow | backend/src/booking/booking.service.ts:577-597 | a one-sided reschedule after which booked time exceeds the window |
| Heatmap.BookedBySpace | backend/src/analytics/analytics.service.ts:593-597 | the accumulated time per space is the sum of clipped overlaps |
| Heatmap.GetOccupancyHeatmap | backend/src/analytics/analytics.service.ts:546-628 | capacity, booked and potential time, clamped utilisation, all rounded as displayed, and the heat band |
| Heatmap.DisplayIsFaithful | backend/src/analytics/analytics.service.ts:599-619 | displayed figures lie within half a unit of the exact ones and between 0 and 100 percent; the clamp changes nothing when bookings do not overlap |
| Heatmap.EachStayAdds | backend/src/analytics/analytics.service.ts:573-597 | each confirmed, checked-in or completed booking of the space adds exactly the part of its stay within the window, every other booking nothing |
| Heatmap.StayingKeepsBookedTime | backend/src/analytics/analytics.service.ts:573-580 | checking in or out changes no booked time |
| Heatmap.ApprovalAddsStay | backend/src/analytics/analytics.service.ts:573-597 | an approval adds exactly the clipped stay to its space |
| Heatmap.CancellationTakesStay | backend/src/analytics/analytics.service.ts:573-597 | a cancellation takes away exactly what the booking had booked |
| Heatmap.DeskShows | backend/src/analytics/analytics.service.ts:599-619 | the displayed figures and the heat band in whole numbers, from booked time, window and capacity |
| Csv.Join | backend/src/export/export.service.ts:113-115 | parts separated, none before the first or after the last |
| Csv.ToCSV | backend/src/export/export.service.ts:106-116 | the printed text of header and rows |
| Csv.PrintedBareIff | backend/src/export/export.service.ts:107-112 | a cell is printed without quotes iff it has no comma, quote or line feed |
| Csv.TextInverse | backend/src/export/export.service.ts:106-116 | the parser returns every printed table of non-empty rows |
| Csv.RoundTrip | backend/src/export/export.service.ts:106-116 | parsing what was printed returns the header and the rows |
| Csv.PrintingIsInjective | backend/src/export/export.service.ts:106-116 | different printable tables print differently |
| Csv.RoundTripIff | backend/src/export/export.service.ts:106-116 | the round trip holds exactly for tables without an empty header or row |
| Csv.FinalBreakIsRow | backend/src/export/export.service.ts:113-115 | a final line break is read as a row of one empty cell, which is what such a row prints as |
| Billing.BillingService.UpdateInvoiceStatus | backend/src/billing/billing.service.ts:352-395 | the status the completed payments imply, with the reminder reset when paid |
| Billing.BillingService.SendInvoice | backend/src/billing/billing.service.ts:291-306 | only drafts and issued invoices are sent |
| Billing.BillingService.CancelInvoice | backend/src/billing/billing.service.ts:338-350 | paid and cancelled invoices stay |
| Billing.BillingService.CreatePayment | backend/src/billing/billing.service.ts:647-723 | who may pay, one pending payment per tenant, and recomputation of completed ones |
| Billing.BillingService.ConfirmPayment | backend/src/billing/billing.service.ts:725-756 | a pending payment completes and the invoice is recomputed |
| Billing.BillingService.RefundPayment | backend/src/billing/billing.service.ts:873-890 | a completed payment is refunded and the invoice is recomputed |
| Billing.BillingService.GetOverdueInvoices | backend/src/billing/billing.service.ts:397-420 | exactly the due, unsettled invoices in scope are returned and marked overdue |
| Billing.BillingService.SendOverdueReminders | backend/src/billing/billing.service.ts:422-483 | one sweep over all overdue invoices, at most one tier each |
| BillingAnswers.PayDoneIff | backend/src/billing/billing.service.ts:647-723 | when exactly a payment is taken, whether it waits, and where it leaves the invoice |
| BillingAnswers.SettlementDoneIff | backend/src/billing/billing.service.ts:725-890 | when exactly payments are confirmed and refunded, and where that leaves the invoice |
| BillingAnswers.StatusCallDoneIff | backend/src/billing/billing.service.ts:291-350 | when exactly invoices are sent and cancelled |
| BillingAnswers.RecomputedStandsAt | backend/src/billing/billing.service.ts:352-381 | paid iff covered or already paid without money, partly paid while partly covered, unchanged without money |
| BillingAnswers.SweepMarksIff | backend/src/billing/billing.service.ts:397-420 | after a sweep an invoice is overdue iff it was, or it is listed, past due and neither paid nor cancelled |
| BillingAnswers.LateInvoiceIsReminded | backend/src/billing/billing.service.ts:397-483 | sweep and reminder run send a late, reachable invoice its next reminder after 1, 7 and 14 days |
| BillingLaws.StepKeepsMatch | backend/src/billing/billing.service.ts:352-381 | every call keeps status, completed sum and total in an allowed combination |
| BillingLaws.PaymentInvariant | backend/src/billing/billing.service.ts:647-756 | over every run: fully covered means PAID, partly covered means PARTIALLY_PAID, OVERDUE or CANCELLED, PAID means covered or fully refunded |
| BillingLaws.EveryAllowedCombinationOccurs | backend/src/billing/billing.service.ts:365-371 | each allowed combination is reached by a run, so the invariant cannot be strengthened |
| RefundsAndRevivals.RefundLeavesPaidIff | backend/src/billing/billing.service.ts:365-371 | a refund leaves an invoice paid without cover iff it was paid and the refunded payment was all there was |
| RefundsAndRevivals.ConfirmationRevivesIff | backend/src/billing/billing.service.ts:725-756 | a confirmation takes an invoice out of cancellation iff completed payments are then positive or nothing is asked |
| RefundsAndRevivals.RefundRevivesIff | backend/src/billing/billing.service.ts:873-890 | a refund does so iff another completed payment remains or nothing is asked |
| RefundsAndRevivals.CoveredIff | backend/src/billing/billing.service.ts:358-371 | over every run paid invoices are covered at every moment iff none is opened as paid and no refund takes back the only completed payment of a paid one |
| RefundsAndRevivals.CancelledIsFinalIff | backend/src/billing/billing.service.ts:352-381 | over every run cancelled invoices stay cancelled iff no confirmation or refund revives one |
| RefundsAndRevivals.RefundedInvoiceStaysPaid | backend/src/billing/billing.service.ts:369-371 | a reachable paid invoice with nothing received |
| RefundsAndRevivals.CancelledInvoiceIsRevived | backend/src/billing/billing.service.ts:725-753 | a reachable cancelled invoice that a confirmation turns into a paid one |
| BillingLaws.ChosenIsNext | backend/src/billing/billing.service.ts:441-450 | the tier loop picks the tier after those sent, if it is due |
| BillingLaws.ReminderInvariant | backend/src/billing/billing.service.ts:422-483 | over every run the tiers sent since the last reset are a prefix of 1, 7, 14 and none was early |
| BillingLaws.SweepSendsNextTierOnly | backend/src/billing/billing.service.ts:434-482 | a sweep sends exactly the next tier when it is due and nothing otherwise |
| Portfolio.LinkedIffBookingPresent | backend/src/billing/billing.service.ts:563-575 | an invoice is linked iff it was generated from a booking that is still there |
| Portfolio.PortfoliosAreDisjoint | backend/src/billing/billing.service.ts:563-575 | no invoice is in two portfolios |
| Portfolio.PortfoliosPartition | docs/generate-presentation-content.py:578-592 | whatever is summed, the portfolios add up to the platform less exactly the unlinked invoices |
| Portfolio.PortfoliosPartitionInRuns | docs/generate-presentation-content.py:578-592 | the same at every moment of every run of the booking ledger |
| Portfolio.InvoiceCountsAddUpIff | docs/generate-presentation-content.py:578-592 | the portfolios' invoice counts add up to the platform's iff every invoice is linked |
| Portfolio.RecordedInvoiceIsInNoPortfolio | docs/generate-presentation-content.py:578-592 | a ledger with one invoice recorded by hand, which is in no portfolio |
| Portfolio.StepKeepsSpacesKnown | backend/src/booking/booking.service.ts:340-345 | every call keeps each booking's space in the table |
| Portfolio.DashboardInvoicesAddUp | backend/src/analytics/analytics.service.ts:480-496 | dashboards that also filter by tenant exceed the platform by landlords' own rentals and miss unlinked invoices of others |
| Portfolio.BookingCountsAddUpIff | backend/src/analytics/analytics.service.ts:468-478 | booking counts add up iff no booking's tenant is a landlord other than the owner; otherwise by how many they exceed |
| Portfolio.ReadableIffListed | backend/src/billing/billing.service.ts:577-618 | a single invoice can be opened iff the unfiltered list shows it |
| Portfolio.GetFinancialSummary | backend/src/billing/billing.service.ts:892-921 | refused only to a tenant asking for another; otherwise all five figures over exactly the listed invoices |
| Portfolio.ListedIffShown | backend/src/billing/billing.service.ts:577-645 | who is shown which invoices, alone and asking for one tenant |
| Portfolio.EachInvoiceAdds | backend/src/billing/billing.service.ts:892-921 | what each shown invoice adds to each of the five figures |
| Portfolio.SummariesAddUp | backend/src/billing/billing.service.ts:892-921 | every figure of the landlords' summaries plus the unlinked invoices makes up the platform owner's summary |
| JointBooks.RunKeepsInStep | backend/src/billing/billing.service.ts:116-132 | over every joint run both ledgers keep their invariants and agree on tenant and total of every invoice |
| JointBooks.StartsInStep | backend/src/billing/billing.service.ts:116-132 | a platform without bookings and invoices meets the invariant, whatever its spaces and services |
| JointBooks.BookingIsBilledOnce | backend/src/billing/billing.service.ts:116-132 | a new invoice in billing is the one its booking row names: for that booking's tenant, its price and its add-ons, issued, unpaid, due in 30 days |
| JointBooks.SummariesAddUpInRuns | backend/src/billing/billing.service.ts:892-921 | at every moment of every joint run the landlords' summaries and the unlinked invoices make up the platform owner's summary |
| Calendar.MonthOfDay | backend/src/analytics/analytics.service.ts:178-179 | a day lies within the bounds of its month |
| Calendar.MonthOfAtLeast | backend/src/analytics/analytics.service.ts:183-190 | comparing month numbers is comparing instants with month starts |
| Trends.BucketsConserve | backend/src/analytics/analytics.service.ts:177-191 | distinct buckets that cover all rows add up to the total |
| Trends.SelectedExactly | backend/src/analytics/analytics.service.ts:202-209 | the query keeps exactly the rows in scope and range, each as often as stored |
| Trends.EachRowAdds | backend/src/analytics/analytics.service.ts:202-215 | a row adds its amount to the bucket of its instant iff it is in scope and range |
| Trends.WeekIsSundayToSaturday | backend/src/analytics/analytics.service.ts:224-233 | two instants share a week iff they lie between the same Sunday and the next |
| Trends.DailyUpToSixtyDays | backend/src/analytics/analytics.service.ts:217-224 | bars are daily iff the range has at most sixty days |
| Trends.GroupBy | backend/src/analytics/analytics.service.ts:211-215 | each group is the sum of its rows, and groups exist iff a row falls there |
| Trends.RegroupByWeek | backend/src/analytics/analytics.service.ts:224-233 | pouring days into weeks in any order gives each week the sum of its rows |
| Trends.SortedBars | backend/src/analytics/analytics.service.ts:234-236 | every group once, ascending |
| Trends.DailyTrendConserves | backend/src/analytics/analytics.service.ts:239-244 | consecutive daily bars, no repeats, nothing lost |
| Trends.WeeklyTrendConserves | backend/src/analytics/analytics.service.ts:224-236 | one bar per occurring week, nothing lost |
| Trends.GetBookingsTrend | backend/src/analytics/analytics.service.ts:195-246 | daily bars up to 60 days and weekly ones above, each adding up to the selected bookings without a repeated bucket |
| Trends.RawRevenueConserves | backend/src/analytics/analytics.service.ts:177-191 | monthly sums before rounding add up to the selected invoices |
| Trends.RevenueTrendConserves | backend/src/analytics/analytics.service.ts:183-192 | rounding moves the printed sum by at most half a unit per month |
| Trends.GetRevenueTrend | backend/src/analytics/analytics.service.ts:160-193 | one bar per month of the range, the rounded sum of the month's invoices, with the bound on the drift |
| Forecast.ShiftedMonth | backend/src/analytics/analytics.service.ts:638-641 | adding months to a date overflows into one month more iff the target month is too short |
| Forecast.LastOfJanuaryOverflows | backend/src/analytics/analytics.service.ts:638-641 | one month after 31 January lies in March |
| Forecast.MonthsMetGrow | backend/src/analytics/analytics.service.ts:697-703 | the months a lease meets, counted from its dates alone, are those the report's test selects |
| Forecast.ForecastConserves | backend/src/analytics/analytics.service.ts:673-712 | over any timeline active rent is rent times months met, expiring rent counts each ending lease once |
| Forecast.EachLeaseAdds | backend/src/analytics/analytics.service.ts:643-712 | what each lease adds to a month's active and expiring rent and to the current rent, by its status and dates |
| Forecast.HorizonIs | backend/src/analytics/analytics.service.ts:636-641 | the horizon is clamped to 1 to 36 months |
| Forecast.FilterMissesLateStarters | backend/src/analytics/analytics.service.ts:643-649 | the query's dates change only the last month, by exactly the leases starting after the horizon |
| Forecast.LateStarterIsMissed | backend/src/analytics/analytics.service.ts:643-649 | a lease that meets the last month and is missing there |
| Forecast.EndingSoonExactly | backend/src/analytics/analytics.service.ts:714-738 | exactly the chosen leases ending within 120 days are named, and the 90-day count is taken among them |
| Forecast.TimelineConserves | backend/src/analytics/analytics.service.ts:706-710 | the printed months keep these sums up to half a unit each |
| Forecast.MonthTotals | backend/src/analytics/analytics.service.ts:693-705 | the inner loop's sums of active and expiring rent |
| Forecast.BuildTimeline | backend/src/analytics/analytics.service.ts:673-712 | consecutive months from the current one to that of the horizon's end |
| Forecast.GetRevenueForecast | backend/src/analytics/analytics.service.ts:631-740 | current rent, a timeline whose exact length depends on today's day of the month, and the leases ending soon |
| Promotion.PromotionCodeService.Validate | backend/src/promotion-code/promotion-code.service.ts:174-194 | usable iff inside its dates and an increment made at once would succeed; otherwise which obstacle is named |
| Promotion.UsableFromTo | backend/src/promotion-code/promotion-code.service.ts:178-190 | usable from the first instant to the last, both included, each date bounding only if set |
| Promotion.UsableWhileUsesLeft | backend/src/promotion-code/promotion-code.service.ts:174-194 | usable while active and used less often than the limit allows |
| Promotion.PromotionCodeService.Consume | backend/src/promotion-code/promotion-code.service.ts:209-218 | one conditional increment against the limit read earlier |
| Promotion.PromotionCodeService.Apply | backend/src/promotion-code/promotion-code.service.ts:202-222 | uninterrupted, a valid code is consumed exactly once |
| Promotion.NeverOverRedeemed | backend/src/promotion-code/promotion-code.service.ts:196-218 | under any interleaving the counter never passes the largest limit ever set |
| Promotion.WithinLimitIff | backend/src/promotion-code/promotion-code.service.ts:131-218 | under any interleaving the counter stays within the limit in force iff no edit goes below it and no increment passes on a limit that now forbids it |
| Promotion.LoweredLimitCanBePassed | backend/src/promotion-code/promotion-code.service.ts:131-166 | a limit lowered between check and increment can be passed |
| Promotion.FixedLimitHolds | backend/src/promotion-code/promotion-code.service.ts:196-218 | while no edit changes the limit the counter never passes it |
| Promotion.CounterIsExact | backend/src/promotion-code/promotion-code.service.ts:209-218 | the counter is the initial count plus the redeemers that consumed |
| Promotion.EditTakesForce | backend/src/promotion-code/promotion-code.service.ts:131-166 | an edit decides the later checks and consumptions and touches neither count nor progress |
| Promotion.BeatenIffExhaustedOrInactive | backend/src/promotion-code/promotion-code.service.ts:220-222 | a checked redeemer fails iff the code is exhausted or inactive at that moment |
| Promotion.NoUseIsWasted | backend/src/promotion-code/promotion-code.service.ts:196-222 | while the code stays active somebody is beaten only when all uses are gone |
| Maintenance.MaintenanceService.Create | backend/src/maintenance/maintenance.service.ts:277-297 | open, or assigned if an assignee was given |
| Maintenance.MaintenanceService.Assign | backend/src/maintenance/maintenance.service.ts:699-734 | finished tickets and tickets of another technician are refused |
| Maintenance.MaintenanceService.Accept | backend/src/maintenance/maintenance.service.ts:737-779 | self-claim, with every refusal and the legacy branch |
| Maintenance.MaintenanceService.StartProgress | backend/src/maintenance/maintenance.service.ts:806-826 | only assigned tickets start |
| Maintenance.MaintenanceService.Resolve | backend/src/maintenance/maintenance.service.ts:829-859 | resolution with its time, and its cost if one is given |
| Maintenance.MaintenanceService.Close | backend/src/maintenance/maintenance.service.ts:862-882 | only resolved tickets close |
| Maintenance.MaintenanceService.Cancel | backend/src/maintenance/maintenance.service.ts:885-905 | renters cancel only their own tickets |
| Maintenance.CreatedTicket | backend/src/maintenance/maintenance.service.ts:277-297 | the new ticket and its status by assignee |
| Maintenance.AssignDoneIff | backend/src/maintenance/maintenance.service.ts:699-734 | assigned iff unfinished and nobody else's |
| Maintenance.ClaimDoneIff | backend/src/maintenance/maintenance.service.ts:737-779 | when exactly a claim succeeds and what the ticket then is |
| Maintenance.TicketCallsDoneIff | backend/src/maintenance/maintenance.service.ts:806-905 | when exactly tickets start, are resolved, closed and cancelled, and what they then are |
| Maintenance.RunKeepsSound | backend/src/maintenance/maintenance.service.ts:699-905 | over every run: assignees never change, resolved tickets have a time, closed and cancelled are final |
| Maintenance.LegacyBranchIsDead | backend/src/maintenance/maintenance.service.ts:772-778 | the legacy claim branch is never taken, and exactly when a claim succeeds |
| Slugs.ToSlugIsWellFormed | backend/src/space/space.service.ts:21-30 | non-empty, only a-z, 0-9 and hyphen, no leading or double hyphen, within the cap |
| Slugs.UncutJoinsWords | backend/src/building/building.service.ts:16-25 | before the cut a slug is the words of the name joined by single hyphens |
| Slugs.SlugEndsInHyphenIff | backend/src/space/space.service.ts:21-30 | a slug ends in a hyphen iff some of the name's words, but not all, fill the cap but for one character |
| Slugs.CutLeavesHyphen | backend/src/booking-application/booking-application.service.ts:546-556 | at every cap a name whose slug ends in a hyphen and whose suffixed slugs have a double one |
| Slugs.SlugSpellsTheName | backend/src/building/building.service.ts:16-25 | the slug keeps the name's letters and digits in order, all of them below the cap |
| Slugs.FallbacksAreWellFormed | backend/src/space/space.service.ts:28-29 | the fallback slugs are well formed too |
| Slugs.CandidatesDiffer | backend/src/space/space.service.ts:46-47 | no two candidates coincide |
| Slugs.CandidateIs | backend/src/space/space.service.ts:37-48 | the first probe is the base, the others end in 2, 3, 4 and so on |
| Slugs.Pigeonhole | backend/src/space/space.service.ts:39-48 | there are no more refused candidates than slugs |
| Slugs.BuildUniqueSlug | backend/src/space/space.service.ts:32-50 | stops within one probe more than there are slugs, with the first candidate that is free |
| Slugs.SuffixedIsWellFormed | backend/src/building/building.service.ts:39-42 | a suffixed slug has a double hyphen iff the base ends in a hyphen |
| Slugs.Registry.Create | backend/src/booking-application/booking-application.service.ts:546-565 | slugs stay pairwise distinct; the new row gets the first free candidate |
| Slugs.Registry.Rename | backend/src/space/space.service.ts:39-44 | a row's own slug does not stand in its way; slugs stay distinct |

## Left out

- SessionProtocol.LiveSessionIsNeverRejected: no refresh reply is lost, and nobody else presents a token a tab holds; `SessionRaces.RacedRefreshIff` drops the second assumption.
- SessionRaces.WriteBackFallsBehindIff: the write of a restored session is stated for the token it read and the server's calls in between; the other writes in frontend/src/store/authStore.ts:108-204, of users and access tokens, are not modelled.
- Deliveries.RedeliveryIff: inquiries are compared as values, which `Markers.SearchComparesIff` justifies for ids that need no escaping; the notes of other bookings and the wildcards of the database's pattern matching are not modelled.
- BookingService.BookingDesk.FindOneForUser: the access policy's verdict is an input.
- AuthSessions.AuthService.GenerateTokens: the access token is not modelled, and refresh tokens are unique by construction, while two JWTs signed for one session in the same second could coincide.
- BookingService.BookingDesk.Update: only times are modelled; other fields, a status above all, would bypass the lifecycle.
- BookingService.BookingDesk.HandleInquiry: presence checks on the body are folded into absent parameters, and the marker is compared as a value (see `Markers`).
- BookingService.BookingDesk.Cancel: notes are not modelled beyond the inquiry marker, so text written by users cannot forge or break a marker.
- BookingService.BookingDesk.AcceptApplication: finding or creating the applicant's account is one input; the slug search inside it is `Slugs.Registry.Create`.
- BookingService.BookingDesk.RemoveDocument: a document is named by its position instead of an id.
- BookingService.GenerateInvoice: status and due date are added where the invoice enters the billing ledger, in `JointBooks.BookingIsBilledOnce`.
- Billing.BillingService.SendOverdueReminders: the mail and the update after it are assumed to succeed; in the code a failed mail leaves the tier unsent.
- Billing.BillingService.GetOverdueInvoices: the order by due date is not modelled, and which invoices the caller may list is an input.
- BillingLaws.PaymentInvariant: invoice edits, deletions and line editing are not among the calls.
- Trends.GetRevenueTrend: amounts are exact cents, while the code adds binary floating-point numbers.
- Forecast.GetRevenueForecast: the order of the leases by end date is not modelled.
- Slugs.ToSlugIsWellFormed: lower-casing is an input and white space is blank, tab, line feed and carriage return.
- Promotion.PromotionCodeService.Apply: the amount, its check and the floating-point discount are not modelled.
- Csv.RoundTrip: values are strings already; the conversion of dates and numbers is not modelled.
- Maintenance.MaintenanceService.Create: the space put under maintenance by urgent tickets is not modelled.
- Billing cycles of add-ons are a closed set of names; their upper-casing is not modelled.
- Free status writes on bookings, tickets, invoices and contracts bypass the machines.
- Access policy is an abstract verdict per call; password hashing and signatures are abstract.
- Mail, notifications, uploads, marketplace and AI calls, websockets and logging are foreign I/O.
- Local time zones and daylight saving: all instants are UTC.
- Search, pagination, top lists, percentages, predictive maintenance and PDF generation have no comparable property.
