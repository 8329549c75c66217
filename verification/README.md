# VoxSlot core: a verified model

VoxSlot is a multi-tenant appointment backend: it searches free slots, books and holds them, collects deposits,
offers freed slots to a waitlist, answers phone calls with a keypad menu, and talks to SMS and calendar providers
through a Redis job queue. This project models the parts of it that carry state or arithmetic and proves what they
guarantee, for every input, every run and every interleaving.

`dafny verify dfyconfig.toml` checks the whole project.

| files | what they model |
|---|---|
| `Domain` | rows and queries shared by the other modules |
| `Windows`, `Availability`, `AvailabilityLaws` | the availability engine: interval algebra, slot packing, filtering, and the minute-by-minute specification it must equal |
| `Bookings`, `BookingLaws`, `BookingEffects`, `BookingService`, `Admission` | bookings, holds, payments: interleaved lock / read / write / commit steps; what each call promises; the service run serially; search and admission together |
| `Waitlist`, `WaitlistLaws`, `WaitlistService` | waitlist offers under `SKIP LOCKED`, buffered writes and commits |
| `JobQueue`, `Workers`, `WorkerLaws`, `SingleWorker`, `WorkerService` | the Redis queue at single-command granularity, any number of workers, and the worker loop |
| `Outbox`, `OutboxLaws`, `OutboxService` | notification and calendar rows, the providers behind them, the handlers and sweeps |
| `Ivr`, `IvrLaws`, `IvrService`, `IvrOverlap` | the voice menu, with the committed row kept apart from the row in memory; requests on one call that overlap |
| `EmailSearch`, `Pagination`, `PaginationLaws`, `UserListCache`, `UserService` | the user list: search pattern, keyset pages, version-keyed cache |
| `Webhooks`, `WebhookService` | idempotent webhook intake: stored responses, expiring lock, event table |

A file named `...Laws` holds theorems about the model before it; a file named `...Service` holds the imperative code,
proved against the same functions. Times are integers (minutes or seconds). Clocks, provider answers, lookups and
the choices of the database are parameters, so a theorem holds for all of them.

Where the code does less than its comments say, the code is modelled and the difference is proved:

- A key press is said to reset the counter of consecutive silences (`app/services/ivr_service.py:150-151`). The reset
  is not committed when the caller has no upcoming booking, or when the press raises before a commit:
  `PressResetsSilence` gives the exact condition, `SilencesAddUpAcrossKeys` a call that ends although no two silences
  were consecutive.
- `create_booking` means to answer a lost race with a conflict (`app/services/booking_service.py:126-130`), but its
  flush at line 105 lies outside that block. `FlushRefusedIffRival`: after a passed check, whatever others do, the
  flush is refused exactly when a rival booking was committed in between, and for `create_booking` the refusal is a
  raw integrity error. `RaceTripsConstraint` is such a run.
- Only a succeeded payment is meant to be refunded (`app/services/booking_service.py:451-452`), but the payment is read
  without a lock. `RefundAdmittedIff`: a refund is admitted exactly when no refund has been committed before it begins;
  `OverlappingRefundsBothSucceed`: two that begin before either commits both succeed and are both on record.
- A second worker can reclaim a job between the pop and the stamp of the first, since an unstamped job counts as
  stale: `TwoWorkersCanDuplicate`. `ExactIffOneWorker`: jobs exist exactly once in all runs exactly when at most one
  process runs worker tasks; producers and operators who requeue failed jobs do no harm.
- A failed lookup of the cache version is read as version 0 (`app/core/cache.py:53-61`). `StaleIffLookupFailed`: a read
  returns a list that lacks a mutation invalidated before it began exactly when its own lookup failed, the GET after
  it succeeds, and the list cached under version 0 is older than the mutation. `FailedLookupReadsStale` is such a run.
- A finished call is meant to be final (`app/services/ivr_service.py:121-145`). That holds when its requests follow one
  another (`FinishedCallsStay`); nothing locks the row, though. `FinishedStaysIff`: a finished call stays finished
  exactly when no request that loaded it while it was live is about to move it to another live step.
  `OverlapReopens` is a press committed after the sweep.
- The order of recurring blocks is irrelevant, and windows stay disjoint, only because the schemas refuse a block
  that ends before it starts: `InvertedBlockOverlaps`, `InvertedBlockOrderMatters`.

## Model

| member | source | states |
|---|---|---|
| Windows.IntersectTimeWindows | app/services/availability_service.py:54-68 | the nested loops compute `Intersect`, whose set of minutes `IntersectDenotes` gives |
| Windows.IntersectDenotes | app/services/availability_service.py:57-68 | a minute is in the intersection iff it is in a staff window and in a salon window |
| Windows.IntersectPairwiseApart | app/services/availability_service.py:61-68 | pairwise disjoint inputs give pairwise disjoint windows |
| Windows.CarveBlock | app/services/availability_service.py:81-90 | one pass of the inner loop cuts one block out of every window |
| Windows.SubtractTimeWindows | app/services/availability_service.py:71-91 | the loop computes `Subtract`, whose set of minutes `SubtractDenotes` gives |
| Windows.SubtractDenotes | app/services/availability_service.py:74-91 | a minute is left iff it is in a base window and in no block, for all lists of windows and blocks |
| Windows.CarveCommutes | app/services/availability_service.py:80-90 | carving two well-formed blocks gives the same list in either order |
| Windows.BlockOrderIrrelevant | app/services/availability_service.py:80-91 | any two permutations of the same well-formed blocks leave the same list of windows |
| Windows.InvertedBlockOverlaps | app/services/availability_service.py:83-89 | a block that ends before it starts yields overlapping windows |
| Windows.InvertedBlockOrderMatters | app/services/availability_service.py:80-90 | with such a block the number of windows depends on the order of the blocks |
| Windows.SubtractPairwiseApart | app/services/availability_service.py:79-91 | disjoint base windows stay disjoint under well-formed blocks |
| Windows.SlotsInWindow | app/services/availability_service.py:35-51 | a window yields exactly floor(length / duration) slots, the multiples of the duration that fit whole |
| Windows.SlotsApart | app/services/availability_service.py:46-51 | two slots of one window, or of disjoint windows, never overlap |
| Availability.WindowsFor | app/services/availability_service.py:193-283 | schedule, fallback, intersection, closures, special hours and blocks in the order of the code, with its early exits |
| Availability.CandidateStarts | app/services/availability_service.py:285-289 | the candidates are exactly the grid starts of the windows |
| Availability.PrefilterKeepsConflicts | app/services/availability_service.py:295-308 | the day range on the bookings query drops no booking that conflicts with a slot of the day |
| Availability.FilterFree | app/services/availability_service.py:313-324 | exactly the candidates after now that no fetched booking overlaps, in ascending order |
| Availability.OfferedInDay | app/services/availability_service.py:285-297 | every slot on the grid lies inside the local day |
| Availability.WeekdaysCycle | app/services/availability_service.py:163-163 | ordinal 1 is a Monday, weekdays follow one another modulo seven, and two dates share one iff they are whole weeks apart |
| Availability.AnswerExact | app/services/availability_service.py:291-324 | the specification is strictly ascending and holds exactly the grid slots after now that overlap no active booking in scope |
| Availability.GetAvailableSlotsForDuration | app/services/availability_service.py:152-324 | windows, packing, sorting, prefilter and loop together return exactly the specification, for every schedule, exception, block, booking and clock |
| AvailabilityLaws.EffectiveDenotes | app/services/availability_service.py:193-283 | a minute is in the effective windows iff the precedence rules, read off the rows, leave it open |
| AvailabilityLaws.OfferedSlotIsOpen | app/services/availability_service.py:42-51 | every minute of an offered slot is open, and by the local clock the whole slot is on the date asked for |
| AvailabilityLaws.OfferedIffFree | app/services/availability_service.py:299-324 | a grid slot after now is offered iff nobody asked for has a booking or hold at any of its minutes |
| Domain.OverlapsIffSharedMinute | app/services/availability_service.py:318-321 | the overlap test holds iff the two half-open intervals share a minute; intervals that merely touch do not overlap |
| AvailabilityLaws.NoBaseNoSlots | app/services/availability_service.py:218-219 | an empty base schedule gives no slots, even under special hours |
| AvailabilityLaws.OffersDisjoint | app/services/availability_service.py:285-324 | disjoint schedules give offers that do not overlap one another |
| AvailabilityLaws.AdmissionExactly | app/services/booking_service.py:42-58 | an offered slot is refused by the double-booking check iff a booking of that staff and business under another tenant overlaps it |
| AvailabilityLaws.OfferedSlotIsAdmitted | app/services/booking_service.py:33-58 | with one tenant per business an offered slot passes the check in the same state |
| AvailabilityLaws.SearchAfterBooking | app/services/availability_service.py:299-324 | searching again after a booking in scope returns the old list without exactly the overlapping slots |
| AvailabilityLaws.GetAvailableSlots | app/services/availability_service.py:94-120 | not found iff the business, the service or the staff member does not belong together; otherwise the specified answer |
| AvailabilityLaws.FindSlots | app/services/ivr_service.py:994-1016 | with tables, offset and clock of their own for every day: a day whose lookups fail raises unless enough was collected before; otherwise stopping early equals keeping the first slots of all days before it |
| AvailabilityLaws.HorizonAscending | app/services/ivr_service.py:1003-1013 | when every day closes by the next midnight, the concatenated daily answers are strictly ascending |
| AvailabilityLaws.ConstantOffsetInOrder | app/services/ivr_service.py:1003-1012 | with one offset for all days every day closes by the next midnight |
| AvailabilityLaws.FinderOffersEarliest | app/services/ivr_service.py:1001-1016 | every slot left out starts after every slot offered |
| BookingLaws.RunKeepsInv | app/services/booking_service.py:61-464 | every interleaving of creates, holds, confirmations, expiries, cancellations, reschedules and refunds keeps the invariant of bookings, payments and transactions |
| BookingLaws.NeverDoubleBooked | app/services/booking_service.py:33-58 | in every interleaving the active bookings of a staff member are pairwise disjoint half-open intervals |
| BookingLaws.CheckMatchesConstraint | alembic/versions/p3008_add_pending_payment_state.py:64-77 | on every database the service can reach, the application check finds a conflict iff the exclusion constraint would fire |
| BookingLaws.SerialInsertNeverRefused | app/services/booking_service.py:83-105 | undisturbed, an insert that passed the check is never refused |
| BookingLaws.FlushRefusedIffRival | app/services/booking_service.py:85-130 | after a passed check and any steps of others, the flush is refused iff a rival booking was committed in between; a conflict iff moreover a hold, a raw integrity error iff not |
| BookingLaws.BookingAndPaymentAgree | app/services/booking_service.py:138-156 | pending payment iff a pending payment row; failed implies cancelled; succeeded or refunded excludes pending |
| BookingLaws.CancelledIsAbsorbing | app/services/booking_service.py:645-667 | a cancelled booking stays cancelled whatever runs afterwards |
| BookingLaws.NeverPaidAndExpired | app/services/booking_service.py:338-353 | no hold is both paid and expired, at whatever two moments of a run |
| BookingLaws.AnnouncedIffEverConfirmed | app/services/booking_service.py:115-135 | one calendar event and one confirmation batch if the booking was ever confirmed, none otherwise, under any redelivery |
| BookingLaws.RescheduleSparesHolds | app/services/booking_service.py:749-752 | the cancelling half of a reschedule never releases a payment hold |
| BookingLaws.RaceTripsConstraint | app/services/booking_service.py:104-130 | a run of two transactions that both pass the check: the second is refused, a hold with a conflict, `create_booking` with a raw error |
| BookingLaws.RescheduleCanLoseBooking | app/services/booking_service.py:752-763 | between its two transactions a reschedule has cancelled the old booking and added none |
| BookingEffects.CheckFindsBusyMinute | app/services/booking_service.py:33-58 | the double-booking check finds a conflict iff the staff member has a booking or hold of that business at some minute asked for |
| BookingEffects.CallRunsAlone | app/services/booking_service.py:61-772 | from every state with the invariant, each call of the interleaved machine that nobody disturbs ends and does exactly what its promise says: outcome, rows, payment, announcements and audit entry |
| BookingEffects.StrangersFindNothing | app/services/booking_service.py:510-560 | a call that names the wrong tenant or business, or no booking, is not found and changes nothing |
| BookingEffects.RescheduleMovesBooking | app/services/booking_service.py:749-763 | among any other transactions: a reschedule that succeeded has cancelled the old booking and booked the same customer, service and staff at the new time for the duration of the service; its check is a conflict iff the staff member is then busy during the new time |
| BookingEffects.RefundsAreRecorded | app/services/booking_service.py:454-464 | in every run one audit entry per committed refund, and a payment is refunded iff one was committed |
| BookingEffects.RefundedOnlyOnce | app/services/booking_service.py:451-454 | run one after the other, a second refund is a conflict and changes nothing |
| BookingEffects.RefundAdmittedIff | app/services/booking_service.py:440-452 | whatever ran since a payment succeeded, a refund is admitted iff none has been committed, else a conflict |
| BookingEffects.OverlappingRefundsBothSucceed | app/services/booking_service.py:440-464 | two refunds that begin before either commits both succeed and are recorded twice |
| BookingService.Service.Create | app/services/booking_service.py:61-245 | blank override, business, customer, service, deposit, staff and conflict in this order: exactly the admissible requests at a free time succeed, each error exactly in its case; the new row, payment, announcements and audit entry, and nothing else, are as requested; the constraint never fires after the check |
| BookingService.Service.ConfirmBookingPayment | app/services/booking_service.py:272-325 | succeeds iff on hold or already paid; a hold becomes confirmed and paid, is announced once and audited; a redelivery changes nothing |
| BookingService.Service.ExpirePendingPaymentHold | app/services/booking_service.py:338-353 | succeeds iff on hold; cancels that booking, fails its payment, leaves one audit entry, and touches no other booking |
| BookingService.Service.CancelBooking | app/services/booking_service.py:645-667 | succeeds iff active; cancels that booking, a pending payment fails with it, and no other booking is touched |
| BookingService.Service.RefundBookingPayment | app/services/booking_service.py:440-464 | succeeds iff the payment succeeded; it is refunded then, with one audit entry, and bookings and other payments are untouched |
| BookingService.Service.RescheduleBooking | app/services/booking_service.py:749-772 | a confirmed booking is cancelled in any case; a conflict iff somebody else has the new time, otherwise there is a new booking that differs from the old one in id and time alone and is announced once |
| BookingService.Service.ExpireStalePaymentHolds | app/services/booking_service.py:412-419 | over an outdated snapshot the loop releases and counts exactly the candidates still on hold |
| Admission.OfferedSlotCanBeBooked | app/services/booking_service.py:83-105 | in every reachable state a slot offered for a staff member can be booked or held, and searching the table as it is then returns the old answer without exactly the overlapping slots |
| WaitlistLaws.RunKeepsInv | app/services/waitlist_service.py:94-230 | every interleaving of joins, cancellations, sweeps, commits and rollbacks keeps the waitlist invariant |
| WaitlistLaws.OfferedAtMostOnce | app/services/notification_service.py:127-150 | an entry has exactly one offer notification iff it left the waiting status, and was offered a slot it accepts |
| WaitlistLaws.OffersNeverExceedFreed | app/services/booking_service.py:355-377 | outstanding offers of a slot never exceed the bookings freed for it |
| WaitlistLaws.SweepNeverGrows | app/services/waitlist_service.py:183-196 | a committed sweep never increases the outstanding offers of any slot, however many it expired |
| WaitlistLaws.EscalateTxnOk | app/services/waitlist_service.py:199-230 | an escalation inside a sweep never picks an entry the sweep has already touched, and keeps the balance of expired and new offers |
| WaitlistService.FindOldest | app/services/waitlist_service.py:126-142 | an entry that waits for the slot, with its staff member or any, and nobody who would take it has waited longer; none iff nobody waits for it |
| WaitlistService.Tables.OfferFreedSlot | app/services/booking_service.py:355-377 | the freed slot goes to a longest-waiting entry that would take it, with one notification; nothing else changes, and nothing at all when nobody would |
| WaitlistService.Tables.ExpireStaleOffers | app/services/waitlist_service.py:172-230 | every stale offer expires and is handed on to a longest-waiting entry that would take it, with one notification, or to nobody when nobody is left who would; no other entry changes; a slot keeps its number of offers while anybody waits for it, and never gains any |
| JobQueue.RetryDelayGrows | app/core/job_queue.py:143-148 | delays never shrink, start at the base and stop at the cap |
| JobQueue.RetryDelayDoubles | app/core/job_queue.py:143-148 | the first delay is the base, and every later one is twice the one before, up to the cap |
| WorkerLaws.NoJobIsLost | app/core/job_queue.py:151-353 | in every interleaving of any number of processes, every enqueued job is acknowledged, in Redis, or held between two commands |
| WorkerLaws.ContinueLosesNothing | app/core/job_queue.py:179-353 | no single command loses an id, except an acknowledgement |
| WorkerLaws.AttemptsBounded | app/worker.py:191-213 | no copy of a job, in Redis or in any process, ever has more attempts than `worker_max_retries` |
| WorkerLaws.HandlersAreRegistered | app/worker.py:163-190 | every queue holds its own type only, so no run calls the handler with an unknown type |
| SingleWorker.ContinueCounts | app/core/job_queue.py:179-353 | with one worker a command changes the number of copies of an id by an acknowledgement only |
| SingleWorker.ExactlyOnce | app/worker.py:336-343 | with one worker, free producers and operators, between two tasks of the worker nothing is in processing, and an unacknowledged id exists exactly once, in Redis or held by a requeueing operator |
| SingleWorker.TwoWorkersCanDuplicate | app/core/job_queue.py:265-275 | for any two workers, a run that leaves one job queued and in processing at once |
| SingleWorker.ExactIffOneWorker | app/worker_failed_jobs.py:30-32 | every unacknowledged job exists exactly once at every point of every run iff at most one process runs worker tasks, whatever producers and operators do |
| WorkerService.Worker.EnqueueJob | app/core/job_queue.py:151-169 | the new job, with no attempts, is the youngest in the queue of its type |
| WorkerService.Worker.DequeueJob | app/core/job_queue.py:172-191 | the oldest job leaves its queue, and the processing list gains exactly the stamped job, whether or not the stamp changed it |
| WorkerService.Worker.AckJob | app/core/job_queue.py:194-200 | one occurrence nearest the head leaves the processing list, and the id is on record as acknowledged |
| WorkerService.Worker.ScheduleRetry | app/core/job_queue.py:203-220 | the same job with one more attempt, no stamp and the first 500 characters of the error, due after the delay of the new attempt |
| WorkerService.Worker.MoveJobToFailedQueue | app/core/job_queue.py:293-311 | the same job with the failure time and the first 500 characters of the given error, or else of the last one, at the head of the failed list |
| WorkerService.Worker.DueJobs | app/core/job_queue.py:231-232 | exactly the delayed jobs that are due, each once, earliest first |
| WorkerService.Worker.PromoteDelayedJobs | app/core/job_queue.py:223-244 | the first due jobs up to the limit, and no others, leave the delayed set and line up in the queues of their types in this order |
| WorkerService.Worker.ReclaimStaleProcessingJobs | app/core/job_queue.py:247-277 | exactly the jobs unstamped or stamped longer ago than the visibility timeout leave the processing list and line up, unstamped, in their queues; the others keep their order |
| WorkerService.Worker.RequeueFailedJobs | app/core/job_queue.py:333-353 | the jobs that failed first, up to the limit, leave the failed list and line up in the queues of their types in the order they failed |
| WorkerService.Worker.ProcessNextJob | app/worker.py:161-220 | one job of the first non-empty queue runs once and ends acknowledged, delayed with one more attempt and its delay, or failed; nothing happens when all queues are empty |
| WorkerService.Worker.MaybeRunQueueMaintenance | app/worker.py:299-312 | at most once per interval: the exact store after reclaiming and promoting, whatever was in processing; one copy of every live job is kept |
| WorkerService.Worker.RunWorker | app/worker.py:336-343 | over any number of passes every live job keeps exactly one copy, and the jobs that stop being live are exactly those acknowledged, each once |
| WorkerService.PushAllLines | app/core/job_queue.py:134-169 | pushed jobs stand in front of the queue of their type, in the order of pushing from the polled end |
| WorkerService.PromotionKeepsOnce | app/core/job_queue.py:235-242 | promoting any number of due jobs keeps one copy of every live job |
| WorkerService.ReclaimKeepsOnce | app/core/job_queue.py:258-275 | reclaiming any number of stale jobs keeps one copy of every live job |
| WorkerService.PassIsARun | app/worker.py:161-220 | an undisturbed pass is a run of the interleaved machine with the same effect as the loop body |
| WorkerService.PromotionIsARun | app/core/job_queue.py:235-242 | the promotion loop is a run of the interleaved machine |
| WorkerService.ReclaimIsARun | app/core/job_queue.py:258-275 | the reclaim loop is a run of the interleaved machine |
| WorkerService.RequeueIsARun | app/core/job_queue.py:342-351 | the requeue loop is a run of the interleaved machine |
| Outbox.HandleKeeps | app/worker.py:95-158 | every handler call keeps the invariant of rows and providers and never moves a row backwards |
| Outbox.ThrowIsPaidFor | app/services/notification_service.py:278-284 | a handler throws for a provider failure only after recording an attempt, and only below the limit of the row |
| Outbox.SendOutcome | app/services/notification_service.py:247-284 | a pending notification is requested once more; sent and delivered iff accepted, failed iff that was the third rejection, thrown back otherwise; every other row untouched |
| Outbox.SyncOutcome | app/services/calendar_service.py:121-175 | a pending or failed event of the same tenant is tried once more; synced and present once at the provider iff accepted, failed iff the attempts are used up, thrown back otherwise |
| Outbox.CancelOutcome | app/services/calendar_service.py:191-235 | a never synced event is cancelled at once, a synced one iff the provider accepts, with nothing left there; a rejection is counted, and settles the event as cancel_failed iff the attempts are used up |
| OutboxLaws.WorldAlwaysOk | app/services/notification_service.py:247-284 | in every run of any number of workers rows, provider requests and provider events agree |
| OutboxLaws.SentAtMostThreeTimes | app/services/notification_service.py:259-284 | a notification is requested at most three times and delivered at most once, iff its row says sent |
| OutboxLaws.LiveEventsMatchRows | app/services/calendar_service.py:121-235 | a provider event is alive iff its row is synced or cancel_failed; at most one per booking; cancel attempts at most max(1, `worker_max_retries`) |
| OutboxLaws.SettledRowsStay | app/services/calendar_service.py:199-203 | cancelled and cancel_failed events, and sent or failed notifications, never change again |
| OutboxLaws.CancelIsForGood | app/services/calendar_service.py:191-235 | once a cancel job has returned, nothing in the rest of any run brings the event back: cancelled with nothing at the provider, unless it refused to the last attempt |
| OutboxLaws.SendIsForGood | app/services/notification_service.py:247-284 | once a send job of a pending row has returned, the row is sent and delivered once iff the provider accepted, else failed after three requests, for the rest of any run |
| OutboxLaws.SyncedUnlessCancelled | app/services/calendar_service.py:154-160 | after an accepted sync the event exists at the provider for the rest of any run unless it was cancelled |
| OutboxLaws.DeliveryFailuresFailNoJob | app/worker.py:191-213 | if the row gives up no later than one attempt after the job may, provider failures alone never put the job in the failed list |
| OutboxLaws.CalendarJobsNeverFail | app/services/calendar_service.py:169-175 | calendar jobs never reach the failed list through provider failures, for every `worker_max_retries` |
| OutboxLaws.NotificationJobsNeverFail | app/services/notification_service.py:28-284 | provider failures alone never put a notification job in the failed list iff `worker_max_retries` is at least two |
| OutboxLaws.RejectionsFailTheJob | app/worker.py:192-213 | for a smaller setting, a run of rejections that puts the job in the failed list |
| OutboxService.Tables.SendNotificationInWorker | app/services/notification_service.py:247-284 | the statements have the outcome that `SendOutcome` states, and the invariant is kept |
| OutboxService.Tables.SyncCalendarEventInWorker | app/services/calendar_service.py:121-175 | the statements have the outcome that `SyncOutcome` states, and the invariant is kept |
| OutboxService.Tables.CancelCalendarEventInWorker | app/services/calendar_service.py:191-235 | the statements have the outcome that `CancelOutcome` states, and the invariant is kept |
| OutboxService.Tables.ReconcileStaleNotifications | app/services/reconciliation_service.py:36-61 | exactly the stale pending rows get one fresh job each and are not stale again for a whole window |
| OutboxService.Tables.ReconcileStaleCalendarEvents | app/services/reconciliation_service.py:75-100 | the same for pending and failed calendar rows |
| OutboxService.Tables.EnqueueDueReminders | app/services/notification_service.py:191-244 | a booking gets a reminder iff it wants one and has none: one new row to send and one job for it; no booking ever has two |
| IvrLaws.CallsStayOk | app/services/ivr_service.py:106-177 | in every call: menus imply a service, one to `ivr_max_slots` candidates, a managed booking; a transfer a usable number; a confirmation a booking at a stored candidate; counters below their limits |
| IvrLaws.DispatchKeeps | app/services/ivr_service.py:150-172 | every key press on a live call keeps the expiry, counts exactly the invalid keys, clears the silences iff it commits, and keeps the call sound |
| IvrLaws.PressKeepsCall | app/services/ivr_service.py:106-177 | the line is dropped or transferred exactly when the call is finished, and no booking is lost |
| IvrLaws.DestinationIsNotBlank | app/services/ivr_service.py:641-651 | under every policy a transfer destination is not blank |
| IvrLaws.FinishedCallsStay | app/services/ivr_service.py:121-145 | when requests follow one another, the expiry is fixed, and a finished call is never touched again by any press or sweep |
| IvrOverlap.FinishedStaysIff | app/services/ivr_service.py:113-201 | when requests overlap, a finished call stays finished under everything to come iff no pending request moves a live call to another live step |
| IvrOverlap.ExpiryNeverMoves | app/services/ivr_service.py:130-137 | however requests overlap, the expiry is never moved |
| IvrOverlap.OverlapReopens | app/services/ivr_service.py:180-201 | a press loaded before the expiry and committed after the sweep makes the call live again |
| IvrOverlap.CommitsWhatChanged | app/services/ivr_service.py:113-177 | undisturbed, a commit stores the whole changed row; a request that changed nothing overwrites nothing |
| IvrLaws.LateEventsEndTheCall | app/services/ivr_service.py:130-201 | any press or sweep at or after the expiry finds the call finished or expires it, and a sweep before the expiry does nothing |
| IvrLaws.ThreeSilencesEndTheCall | app/services/ivr_service.py:228-236 | three silences in a row end every call |
| IvrLaws.CounterCountsInvalid | app/services/ivr_service.py:212-225 | the stored counter is the number of presses that selected nothing in a live menu |
| IvrLaws.FiveInvalidKeysEndTheCall | app/services/ivr_service.py:212-225 | five invalid keys in total, anywhere in the call, end it |
| IvrLaws.PressResetsSilence | app/services/ivr_service.py:150-177 | a press clears the stored silence counter iff its statements commit; otherwise the whole row stays |
| IvrLaws.SilencesAddUpAcrossKeys | app/services/ivr_service.py:483-494 | a call ended by three silences with a key press between each two |
| IvrLaws.RaisingKeepsTheStep | app/services/ivr_service.py:496-499 | a press that raises changes the step iff it stored the booking to manage before the lookup of its service failed |
| IvrLaws.MenuIsPermutation | app/services/ivr_service.py:761-773 | the staff menu is the same staff, with the last-used member first when still schedulable |
| IvrLaws.MenuIsAnnounced | app/services/ivr_service.py:761-773 | the menu is the last-used member first when still schedulable, then the other staff in their order |
| IvrService.VoiceCall.HandleKeypress | app/services/ivr_service.py:106-177 | the stored row changes exactly as `Press` says; finished calls stay, late presses expire, silences count, "*" repeats the menu; what holds of every call is kept, and the line is dropped iff the call is finished |
| IvrService.VoiceCall.HandleInvalidKey | app/services/ivr_service.py:212-225 | one more invalid key is committed and nothing else but the step; the call ends iff it was the fifth; a sound live call stays sound |
| IvrService.VoiceCall.HandleNoInput | app/services/ivr_service.py:228-246 | one more silence is committed and nothing else but the step; the third ends the call, before that the menu is read again, which raises iff a row it speaks of is gone; a sound live call stays sound |
| IvrService.VoiceCall.HandleIncoming | app/services/ivr_service.py:352-408 | keeps books and call; where "1", "2" and "3" lead and what they store; any other key is invalid; a press that raises changes nothing unless it stored the booking to manage |
| IvrService.VoiceCall.HandleTransferRequest | app/services/ivr_service.py:411-446 | transferred iff enabled and the policy names a number: the business's own, or that of the first staff member who has one |
| IvrService.VoiceCall.HandleManageRequest | app/services/ivr_service.py:465-499 | with an upcoming booking the manage menu is committed for it; without one nothing is committed, whatever is pending in memory |
| IvrService.VoiceCall.HandleManageBooking | app/services/ivr_service.py:522-571 | keeps books, call and managed booking; "1" cancels, "2" offers the slots found for the booked service, "3" leads to the main menu, any other key is invalid; a press that raises changes nothing |
| IvrService.VoiceCall.HandleServiceSelection | app/services/ivr_service.py:654-704 | keeps books and call; the key selects among the first nine services; two or more staff lead to the staff menu, a lone one is selected and searched for; a press that raises changes nothing |
| IvrService.VoiceCall.HandleStaffSelection | app/services/ivr_service.py:707-736 | keeps books and call; "0" searches for anybody, any other key for the staff member it names in the announced menu; a press that raises changes nothing |
| IvrService.VoiceCall.ProceedToSlotSearch | app/services/ivr_service.py:813-846 | the menu is reached iff slots were found for this service and staff member, with the first of them up to `ivr_max_slots`; a failed search discards the selections in memory |
| IvrService.VoiceCall.HandleSlotSelection | app/services/ivr_service.py:849-918 | keeps books and call; a valid key confirms a booking at the selected candidate and changes no other iff the booking succeeds; a failure keeps the step and every booking; any other key is invalid |
| IvrService.VoiceCall.HandleTransferUnavailable | app/services/ivr_service.py:449-462 | keeps books and call; back to the main menu iff "1" and the business is found |
| IvrService.ExpireStaleSessions | app/services/ivr_service.py:180-201 | exactly the live rows past their expiry become expired, and are counted |
| EmailSearch.EscapedMatchesItself | app/services/user_service.py:35-40 | an escaped text at the front of a pattern matches itself and nothing else |
| EmailSearch.LowerFoldsCase | app/services/user_service.py:43-49 | capital and small letters fold to the same small letter, other characters to themselves |
| EmailSearch.SearchFindsTheText | app/services/user_service.py:43-49 | the filter finds exactly the addresses that start with, or contain, the text up to case, wildcards and backslashes included |
| Pagination.OrderBySorts | app/services/user_service.py:206-252 | the ordered query returns the same rows strictly in (column, id) order |
| Pagination.SortedUnique | app/services/user_service.py:248-252 | a strictly sorted list is determined by its rows |
| PaginationLaws.ListedInOrder | app/services/user_service.py:206-252 | for every column and direction a row precedes another by its column, and by its id among equals |
| PaginationLaws.AfterCursorIsSuffix | app/services/user_service.py:52-73 | the keyset filter after the cursor of row k - 1 leaves exactly the rows from k on, for every column and direction |
| PaginationLaws.OwnCursorAccepted | app/services/user_service.py:111-145 | a cursor built by a query is accepted by the same query |
| PaginationLaws.CursorAcceptedIff | app/services/user_service.py:111-145 | a cursor is accepted iff the query it comes from agrees in everything but the tenant |
| PaginationLaws.PageIsSlice | app/services/user_service.py:193-262 | every page reached by cursors is a slice of the sorted list; the cursor is null iff fewer than `limit` rows were left |
| PaginationLaws.KeysetAgreesWithOffset | app/services/user_service.py:211-222 | keyset and offset pages agree |
| PaginationLaws.FollowCursors | app/services/user_service.py:148-274 | following cursors terminates, page k is drop(k * limit) then take(limit), and the pages together are the sorted list |
| PaginationLaws.VisitedOnce | app/services/user_service.py:193-204 | every user of the tenant with the role, activity and address asked for is in the list exactly once, no other user at all |
| UserListCache.RunKeepsInv | app/services/user_service.py:164-193 | every interleaving of readers, writers, evictions and failing Redis commands keeps the cache invariant |
| UserListCache.CachedEntriesAreFresh | app/services/user_service.py:264-313 | an entry under version v is a page of a table that has every mutation invalidated by the first v increments |
| UserListCache.ReadsMissNothing | app/core/cache.py:46-84 | a read whose version lookup succeeded reflects every mutation invalidated before the read began |
| UserListCache.MissesReadEverything | app/services/user_service.py:186-274 | a read that does not find its key reflects every such mutation, whether or not its lookup succeeded |
| UserListCache.StaleIffLookupFailed | app/core/cache.py:53-61 | a read returns a list lacking such a mutation iff its lookup failed, the GET succeeds, and the list under version 0 is older |
| UserListCache.FailedLookupReadsStale | app/core/cache.py:53-61 | a run in which a failed version lookup misses an invalidated mutation |
| UserService.OtherTenantsUnaffected | app/services/user_service.py:193-204 | changing a row of one tenant changes no page of another |
| UserService.UserList.GetUsers | app/services/user_service.py:148-274 | run serially, cached or not, the answer is the database's; exactly a good answer is cached, under the current version |
| UserService.UserList.InvalidateUsersListCache | app/services/user_service.py:312-313 | after the increment every entry under a current version is up to date |
| UserService.UserList.SetActive | app/services/user_service.py:371-417 | iff the row exists its activity is as asked and its token version grows by one iff it is a deactivation; no other row or field changes, and every later list shows it |
| Webhooks.RunKeepsInv | app/api/routes/webhooks.py:54-111 | every interleaving of requests, clean-ups and clock ticks keeps the invariant of records, events and replies |
| Webhooks.SameKeySameBody | app/services/idempotency_service.py:52-127 | two requests with the same key that get a body while the record of the first is valid get the same body, even if the lock expired and both ran |
| Webhooks.EventsStoredOncePerRetention | app/services/webhook_service.py:24-63 | the same (provider, event id) is stored again only after the retention period |
| Webhooks.AcceptedUnderOneKey | app/api/routes/webhooks.py:72-106 | two keys first answered accepted for the same event belong to arrivals more than the retention period apart |
| WebhookService.ServesAlone | app/api/routes/webhooks.py:54-111 | what a request that runs alone leaves behind, in each of its cases |
| WebhookService.Intake.TryAcquireLock | app/services/idempotency_service.py:36-45 | acquired iff free or expired, and then held for the lock's lifetime |
| WebhookService.Intake.StoreResponse | app/services/idempotency_service.py:65-97 | the first record of a key wins while it is valid; an expired one that was not cleaned up makes the store fail |
| WebhookService.Intake.PersistWebhookEvent | app/services/webhook_service.py:24-47 | stored iff the event is unknown |
| WebhookService.Intake.InboundWebhook | app/api/routes/webhooks.py:52-111 | replay, refusal, rejection, duplicate or acceptance, each with the exact tables, and as the machine's request does alone |
| WebhookService.Intake.Redeliver | app/api/routes/webhooks.py:54-58 | the same request again within the record's lifetime gets the same body and stores nothing |
| WebhookService.CleanUpFreesTheKey | app/services/idempotency_service.py:130-140 | a request whose key has an expired record gets no answer until a clean-up, and a new answer after it |
| WebhookService.CleanUpForgetsOldEvents | app/services/webhook_service.py:50-63 | an event that arrives again is stored again iff a clean-up has removed it, that is, iff it is older than the retention period |

## Left out

- Changes of the UTC offset inside a day: each day has one offset, which may differ from the next day's; zoneinfo itself is not part of this model.
- Crashes between two commands, and providers that crash between a call and its commit: the code gives no guarantee there; runs are crash-free and handler calls atomic.
- Fairness between job types: the worker always polls in the same order, so no claim is made.
- `run_scheduled_maintenance` and its lock: it only calls the sweeps, which are modelled one by one; `list_failed_jobs` and `get_failed_queue_depth` only read.
- An atomic reschedule: the code is two commits, and is modelled so; its third commit, the audit entry that links the two bookings, is left out.
- An administrator's cancellation with a reason: it differs from `cancel_booking` in the audit action and in refusing a blank reason.
- `update_waitlist_entry_status` and `requeue_job`: nothing in the application calls them.
- `get_available_slots_for_total_duration`: the same search with another duration.
- The password-reset and upload handlers: they touch none of the modelled tables and only succeed or throw.
- HTTP status codes of webhook replies: bodies are compared, as one path returns only the stored body.
- Signatures, schemas and rate limits of the webhook: their joint outcome is a parameter of the request.
- Hashes: distinct idempotency keys and distinct cache parameters are assumed to have distinct hashes.
- Case folding beyond ASCII, and database collations: text is ordered by code points.
- IvrOverlap.FinishedStaysIff: a press has one commit there; the inner commits of a booking made or cancelled by phone are not separate steps.
- `_find_slots` inside a call: what it returns for each service and staff member is a parameter of the press; the finder itself is `AvailabilityLaws.FindSlots`.
- Key parsing by `int()`: the parsed number is a parameter of the key press.
- Redis failures in the job queue, and eviction of Redis keys other than cached lists.
- Prompts, message texts, TwiML, metrics, logging, authentication, uploads, the web frontend and the remaining CRUD routes: no state worth a proof.
