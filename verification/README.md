# Railway seat booking: a verified model

Dafny 4.11 model of the seat-selling core of the booking system: the inventory service's
per-segment seat ledger, the booking saga that drives it, the payment ledger, the Redis Streams
event bus, the Redis seat locks and the gateway's sliding-window limiter. `dafny verify
dfyconfig.toml` checks everything.

## What is modelled

**The seat ledger.** A seat of a schedule can be sold several times, for disjoint station intervals
`[fromSeq, toSeq)`. The truth is the set of segment rows; a seat's status is a summary of its rows,
a schedule's counters a count of the statuses; the older full-journey path changes the statuses
itself and moves the counters by arithmetic. `Ledger.dfy` gives each transaction as a function on the
three tables. `Requests.dfy` says what each answers and leaves row by row, seat by seat and leg by leg,
without those functions. `Inventory.dfy` is the service as an object that changes its tables statement by
statement, each method proved to compute that function; `LockExpiry.dfy` is the expiry job's code.
`LedgerRuns.dfy` lets requests, schedule events and the statements of the job interleave freely and
proves what every run keeps, with any statement of the job failing and any crash of it;
`LedgerAgreement.dfy` says when the summary can be trusted; `Holds.dfy`, `HoldRuns.dfy` and
`Queries.dfy` are about single holds, their atomicity and their undoing, and about what `getSeats`
promises. `ExpiryRaces.dfy` holds five runs in which the job breaks a promise, and what saves its
BOOKED rows: confirmations on time.

**The saga.** `Saga.dfy` composes the ledger, the payment service and the bookings: creation, the two
payment consumers, the booking-expiry job and the schedule-cancelled consumer are processes that take one
step at a time, in any number and any order, with the read of a booking and its compare-and-swap as
separate steps, any call failing, and any process stopping for good anywhere; beside them the payment
service's capture, failure and refund handlers go on statement by statement. `SagaControl.dfy` is about
the optimistic versions, `SagaSeats.dfy` and `SagaCalls.dfy` about bookings and their rows.
`SagaTime.dfy` adds the clock: a hold that has not run out is still there, so a confirmation on time
reaches its own rows, and there are no double sales by segment; `SagaWhole.dfy` follows whole-journey
bookings seat by seat, and has no seat sold twice, by segment or whole. `SagaMoney.dfy` is about bookings
and refunds. `SagaWitness.dfy` shows a fair run that sells a ticket, and whose order a late write makes
FAILED; `DoubleSale.dfy` one with a late confirmation that sells a seat twice. `SagaService.dfy` is the
handlers' code, each handler proved to be a run of the machine from its read on, whose steps are given
by the luck of its calls. `SagaEffects.dfy` says what the calls and compensations do to rows, seats, orders
and log, and `SagaOutcomes.dfy` what each handler comes to when nothing else moves.

**Payments.** `Payments.dfy` gives each call of the payment service as one function on orders, refunds
and idempotency records; `PaymentService.dfy` is the service as an object whose methods compute those
functions; `PaymentCalls.dfy` says when each is accepted and what it leaves, without them. No call is a
transaction, so `PaymentRuns.dfy` takes the calls apart: each reads the
order, and writes it later without a condition, with any number under way at once. `PaymentRaces.dfy`
holds a run for each write that comes too late.

**Bus, locks, limiter.** `StreamBus.dfy` with a crash between any two Redis commands; `LuaLocks.dfy` with
both Lua scripts and the text of the keys; `RateLimiter.dfy`.

## Hypotheses

They are `requires` clauses or the shape of a machine, and are not used where a result does not name them.

- Segments have `1 <= fromSeq < toSeq` (booking-service/src/services/booking.service.js:74,
  admin-service/src/services/train.service.js:68-73); a sequence number 0 stands for an absent one.
- A transaction is one step, and so is one SQL statement outside a transaction: those of the expiry job,
  the query and the update of its recount (inventory-service/src/services/inventory.service.js:784-802),
  and those of the payment service.
- Summary agreement (`Moded`): each seat is either segment-managed or sold for the whole journey
  (`Respects`). `SummariesAgree` needs nothing else: it is off the seats that a failed or crashed job has
  left unsummarised. `SummariesAgreeThroughout` has jobs that do not fail and no segment-managed lock that
  runs out between the job's two clock readings (`Quiet`; with `NoneLeftOver` exact by
  `PhaseTwoSparesIff`). Lock lifetime is one constant, as the only caller makes it
  (booking-service/src/services/booking.service.js:188).
- End to end (`Fair`): a confirmation reaches the inventory before its booking's hold has run out
  (`OnTime`; `SameUserSellsTwice` and `AConfirmedRowIsDeleted` show what happens otherwise), and a release
  of held seats meets no other hold of the same user (`NamesOwn`, exact by `NamesOwnIff`). The first is
  what the comment of `confirmSeats` says is checked; neither is. Segment requests come from the saga only.
- Whole-journey bookings (`Orderly`): each seat has one mode, the job recomputes segment-managed seats
  only, and nobody but the saga cancels a booking of the saga. No hypothesis on time.
- Remote calls apply and report success, or do not apply and report failure. Contenders start after
  creation has returned, and payment consumers after their event was published.
- Payments (`Honest`, `Alone`): the gateway refunds positive amounts only; for the refund bound alone, no
  refund call reads an order while another is between its read of that order and its record
  (`TwoRefundsPassTheBound` shows why; exact for one record by `RecordKeepsBoundIff`). Every other
  overlap is allowed. In the saga the refund call of a compensation is one step, the handlers of
  webhooks overlap with everything, and a refund webhook names the order of its refund.
- The limiter: each call's commands run together, calls read no clock ahead of Redis's, and reach Redis
  at most `lag` after their reading (`ALateCallBreaksTheBound` shows that no longer span is bounded).

## Where the code and its comments differ

- `confirmSeats` says that an expired lock makes it fail; it fails only when no row at all is updated
  (inventory-service/src/services/inventory.service.js:605-610). Exact by `ConfirmSellsAllIff`.
- The expiry job's first phase deletes by primary key without looking at the status again
  (inventory-service/src/utils/lockExpiry.js:45-56), so it can delete a row that has been confirmed.
- A failed first phase of the expiry job is caught and the second goes on
  (inventory-service/src/utils/lockExpiry.js:78-94); the second is commented as the full-journey expiry but
  finds segment-managed seats too, and can then free one that is sold: `PhaseTwoFreesASoldSeat`.
- `recountAndPublish` refreshes the counters by a query and a later update outside a transaction
  (inventory-service/src/services/inventory.service.js:785-799), so it can write counts that a request
  has overtaken: `ALockIsMiscounted`.
- `getSeats` treats a seat sold for the whole journey as taken for every segment; `lockSeats` locks it
  (inventory-service/src/services/inventory.service.js:299-303, 349-367): `WholeJourneySeatIsLockable`.

## Model

| member | source | states |
|---|---|---|
| LedgerRuns.OverlapIsSharedLeg | inventory-service/prisma/schema.prisma:84-86 | the overlap test holds exactly when the two intervals share a leg |
| LedgerRuns.MovedIsRecounted | inventory-service/src/services/inventory.service.js:438-445 | the full-journey counter arithmetic gives exactly what a recount would |
| LedgerRuns.RecountIsTrue | inventory-service/src/services/inventory.service.js:196-216 | a recount leaves the truth for its schedule and touches no other |
| LedgerRuns.LockIsSafe | inventory-service/src/services/inventory.service.js:321-466 | a lock, granted or refused, keeps rows non-overlapping, counters and totals true |
| LedgerRuns.UnlockIsSafe | inventory-service/src/services/inventory.service.js:473-567 | the same for a release, on both paths |
| LedgerRuns.ConfirmIsSafe | inventory-service/src/services/inventory.service.js:574-688 | the same for a confirmation, on both paths |
| LedgerRuns.CancelIsSafe | inventory-service/src/services/inventory.service.js:694-777 | the same for a cancellation, on both paths |
| LedgerRuns.CreateIsSafe | inventory-service/src/services/inventory.service.js:13-76 | the same for SCHEDULE_CREATED: as many seat rows as totalSeats, all available |
| LedgerRuns.CloseIsSafe | inventory-service/src/services/inventory.service.js:81-119 | the same for SCHEDULE_CANCELLED: zero counters are the true ones |
| Requests.LockIsGrantedIff | inventory-service/src/services/inventory.service.js:349-367 | a segment lock of seats that are all there is granted exactly when no LOCKED or BOOKED row covers a leg of it on any of them, and refused as a conflict otherwise |
| Requests.WholeLockIsGrantedIff | inventory-service/src/services/inventory.service.js:385-393 | a full-journey lock is granted exactly when each seat shows AVAILABLE |
| Requests.LockNeeds | inventory-service/src/services/inventory.service.js:325-345 | every other refusal, changing nothing: no seats, no schedule, an inactive one, a seat that is missing or named twice |
| Requests.LockDoes | inventory-service/src/services/inventory.service.js:369-426 | a granted segment adds one LOCKED row per seat with its user, segment and expiry and changes no other row; the seats show LOCKED, keep their first user and take the expiry; counters number the seats; the rest is untouched |
| Requests.WholeLockDoes | inventory-service/src/services/inventory.service.js:428-461 | a granted full journey makes exactly the seats LOCKED by the user until the expiry, moves their number between the counters, and touches no row |
| Requests.UnlockDoes | inventory-service/src/services/inventory.service.js:489-515 | a release by segment deletes exactly the LOCKED rows of this user and segment on these seats; the seats come to show the rows that are left |
| Requests.ConfirmIsGrantedIff | inventory-service/src/services/inventory.service.js:592-610 | a confirmation by segment is granted exactly when this user has a LOCKED row for exactly this segment on one of the seats; otherwise nothing changes |
| Requests.ConfirmDoes | inventory-service/src/services/inventory.service.js:592-645 | it makes exactly those rows BOOKED with the booking id and no expiry, and changes no other row |
| Requests.WholeIsGrantedIff | inventory-service/src/services/inventory.service.js:517-530 | release and confirmation for the whole journey are granted exactly when each seat is LOCKED and held by this user, with Conflict before Forbidden otherwise |
| Requests.WholeUnlockDoes | inventory-service/src/services/inventory.service.js:532-562 | then exactly the seats become AVAILABLE, without user and expiry |
| Requests.WholeConfirmDoes | inventory-service/src/services/inventory.service.js:648-683 | or BOOKED with the booking id, keeping the user, and the counters move |
| Requests.OtherUsersAreSpared | inventory-service/src/services/inventory.service.js:492-500 | whatever a release or a confirmation is asked, every row of another user is as before, and for the whole journey every seat of another user |
| Requests.SeatsAreNeeded | inventory-service/src/services/inventory.service.js:473-487 | both refuse an empty list, a missing seat and a seat named twice, changing nothing |
| Requests.CancelDoes | inventory-service/src/services/inventory.service.js:700-725 | with a BOOKED row of the booking its rows go, and no other, and exactly the seats of its BOOKED rows come to show what is left |
| Requests.WholeCancelDoes | inventory-service/src/services/inventory.service.js:727-777 | without one exactly the seats sold to it become free, and with none of these nothing changes |
| Requests.CreateDoes | inventory-service/src/services/inventory.service.js:13-76 | SCHEDULE_CREATED does something exactly the first time, for a new schedule and distinct seats: these, AVAILABLE, and their number |
| Requests.CloseDoes | inventory-service/src/services/inventory.service.js:81-119 | SCHEDULE_CANCELLED does something exactly the first time, for a schedule that is there: its seats CANCELLED, its counters zero |
| Requests.MarkedIff | inventory-service/src/services/inventory.service.js:267-305 | getSeats marks a seat AVAILABLE for a segment exactly when every leg is free and the seat is not LOCKED or BOOKED without any row |
| LedgerRuns.ServeRows | inventory-service/src/services/inventory.service.js:349-383 | which segment rows each request adds, books or removes; a refused or full-journey request none |
| LedgerRuns.AnswersAreTrue | inventory-service/src/services/inventory.service.js:415-461 | a refused request changes nothing; a granted one answers with the true counts after it, on the segment path whatever the counters were before |
| LedgerRuns.NextIsSafe | inventory-service/src/utils/lockExpiry.js:42-123 | requests, the job's statements, their failures and its crashes keep all of this in any order |
| LedgerRuns.RunIsSafe | inventory-service/src/utils/lockExpiry.js:35-136 | so does every run, also where the job goes on after a caught failure |
| LedgerRuns.EveryLegHasOneOwner | inventory-service/src/services/inventory.service.js:351-383 | in every run, in any mix of modes and with any failure of the job, each leg of each seat has at most one active row |
| LedgerRuns.CountersAreTrue | inventory-service/src/services/inventory.service.js:189-216 | in every run, whatever fails in the job, seats number totalSeats, and counters equal the numbers of seats with those statuses off the schedules that the job has changed, or overwritten with overtaken counts, and nobody has recounted since |
| LedgerRuns.WriteIsTrueIff | inventory-service/src/services/inventory.service.js:784-802 | the update of a recount leaves true counters exactly when the seats still number what its query counted |
| LedgerRuns.CountersAreTrueBetweenCounts | inventory-service/src/utils/lockExpiry.js:121-122 | with a job whose statements succeed and whose counts are not overtaken, only the schedule that it is about to recount can have false counters |
| LedgerRuns.UndisturbedIsTimely | inventory-service/src/services/inventory.service.js:784-802 | counts are not overtaken when no request for the schedule comes between the query and the update |
| LedgerAgreement.SummariesAgree | inventory-service/src/services/inventory.service.js:123-187 | in every run of fixed modes, whatever fails in the job, a segment-managed seat of an active schedule shows the function of its rows unless the job owes it a summary, and expires no earlier than any of its LOCKED rows unless the job has freed it |
| LedgerAgreement.SummariesAgreeThroughout | inventory-service/src/utils/lockExpiry.js:42-123 | with jobs that neither fail nor meet a noisy window it always does, but for the seats whose rows phase one has just deleted |
| LedgerAgreement.SettleAgrees | inventory-service/src/services/inventory.service.js:138-187 | recomputing the touched seats restores the agreement |
| LedgerAgreement.LockIsTrusted | inventory-service/src/services/inventory.service.js:397-413 | a lock with the constant lifetime keeps agreement and expiry dominance |
| LedgerAgreement.DropIsTrusted | inventory-service/src/utils/lockExpiry.js:45-64 | after phase one's delete only the listed seats may disagree |
| LedgerAgreement.FreeIsTrusted | inventory-service/src/utils/lockExpiry.js:107-122 | after phase two's update only the LOCKED seats that it freed, and those owed before, may disagree with their rows or lack an expiry |
| LedgerAgreement.PhaseTwoSparesIff | inventory-service/src/utils/lockExpiry.js:78-94 | after a phase one that completed or failed, phase two finds no segment-managed seat exactly when none runs out between the job's two clock readings and phase one has left none undone |
| LedgerAgreement.CompletedLeavesNothing | inventory-service/src/utils/lockExpiry.js:67-74 | a phase one that completes leaves none undone |
| LedgerAgreement.FreeingHidesARow | inventory-service/src/utils/lockExpiry.js:112-119 | freeing a rightly LOCKED segment-managed seat breaks the agreement |
| ExpiryRaces.PhaseTwoFreesALiveHold | inventory-service/src/utils/lockExpiry.js:45-119 | a run in which the job frees a seat that still has a live row |
| ExpiryRaces.AConfirmedRowIsDeleted | inventory-service/src/utils/lockExpiry.js:45-56 | a run in which the job deletes a row that was confirmed after it was found |
| ExpiryRaces.OnTimeSalesAreKept | inventory-service/src/utils/lockExpiry.js:45-56 | in every run whose confirmations arrive before the named rows expire, the job deletes no BOOKED row |
| ExpiryRaces.ConfirmIsUndoneIff | inventory-service/src/services/inventory.service.js:590-610 | a confirmation granted between the job's query and its delete loses exactly the listed rows that it names, and each was past its expiry |
| ExpiryRaces.PhaseTwoFreesASoldSeat | inventory-service/src/utils/lockExpiry.js:78-119 | a run in which phase one fails after its delete and phase two frees a seat that has a BOOKED row |
| ExpiryRaces.AFailedRecountLeavesFalseCounters | inventory-service/src/utils/lockExpiry.js:121-129 | a run in which a failed recount leaves the job at rest and the counters false |
| ExpiryRaces.ALockIsMiscounted | inventory-service/src/services/inventory.service.js:785-799 | a run without any failure in which a lock between the recount's query and its update leaves the job at rest and the counters false |
| Holds.NamedIsTheHold | inventory-service/src/services/inventory.service.js:492-500 | while a hold is live, its user, seats and segment name its rows and no others |
| Holds.UnlockReleasesTheHold | inventory-service/src/services/inventory.service.js:490-505 | a release at any later time removes exactly the hold's rows |
| Holds.ConfirmBooksTheHold | inventory-service/src/services/inventory.service.js:590-610 | a confirmation at any later time books exactly the hold's rows, all of them |
| Holds.CancelDropsTheHold | inventory-service/src/services/inventory.service.js:700-714 | a cancellation removes exactly the rows that carry the booking's id |
| Holds.LockThenUnlockRestores | inventory-service/src/services/inventory.service.js:349-426 | lock, then unlock with the same arguments, restores rows, statuses and counters |
| Holds.LockConfirmCancelRestores | inventory-service/src/services/inventory.service.js:694-725 | lock, confirm, cancel with a fresh booking id does too |
| HoldRuns.HoldsMoveTogether | inventory-service/src/services/inventory.service.js:369-383 | in every run whose calls name whole holds, rows of one lock call stay equal and are there together or not at all |
| HoldRuns.ConfirmSellsAllIff | inventory-service/src/services/inventory.service.js:592-610 | a confirmation that answers success sold every seat exactly when each still had a LOCKED row of that user and segment |
| HoldRuns.HalfAHoldIsConfirmed | inventory-service/src/services/inventory.service.js:605-610 | one LOCKED row is enough for a success that leaves another seat unsold |
| Queries.LockTakesIff | inventory-service/src/services/inventory.service.js:351-367 | a segment lock of a duplicate-free list is granted exactly when a lock of each seat alone would be |
| Queries.MarkedCanBeLocked | inventory-service/src/services/inventory.service.js:267-305 | seats that getSeats marks AVAILABLE can be locked; for seats that show what their rows say, exactly those; by legs, a lock asks for every leg to be free, and a mark for no whole-journey sale besides |
| Queries.ShownFreeCanBeLocked | inventory-service/src/services/inventory.service.js:385-393 | the full-journey lock is granted exactly when every seat shows AVAILABLE |
| Queries.WholeJourneySeatIsLockable | inventory-service/src/services/inventory.service.js:299-303 | a seat sold for the whole journey is marked UNAVAILABLE, yet lockSeats takes any segment of it |
| Queries.RedeliveriesChangeNothing | inventory-service/src/services/inventory.service.js:21-27 | once a schedule event is handled, any redeliveries anywhere in a run leave every later state as without them |
| Queries.FirstDeliveryIsHandled | inventory-service/src/services/inventory.service.js:31-73 | the first well-formed SCHEDULE_CREATED creates all its seats AVAILABLE |
| Inventory.Ttl | inventory-service/src/services/inventory.service.js:322-323 | the lock lifetime is kept between 60 and 600 seconds |
| Inventory.SeatInventory.SummaryOf | inventory-service/src/services/inventory.service.js:142-155 | the three-way status of a seat is the summary of its active rows |
| Inventory.SeatInventory.RecomputeSegmentSeatStatuses | inventory-service/src/services/inventory.service.js:138-187 | the loop recomputes exactly the given seats, and its tally is the change of the available count |
| Inventory.SeatInventory.RecountScheduleAggregates | inventory-service/src/services/inventory.service.js:196-216 | counts the statuses into the schedule's row |
| Inventory.SeatInventory.LockSeats | inventory-service/src/services/inventory.service.js:321-466 | changes the tables statement by statement into what the Requests lemmas on locks describe, refusals included, and keeps the ledger safe |
| Inventory.SeatInventory.CreateRows | inventory-service/src/services/inventory.service.js:369-383 | the loop inserts one row per seat and no other |
| Inventory.SeatInventory.UnlockSeats | inventory-service/src/services/inventory.service.js:473-567 | the same for a release, which reaches the rows and seats of its own user only |
| Inventory.SeatInventory.ConfirmSeats | inventory-service/src/services/inventory.service.js:574-688 | the same for a confirmation, which reaches the rows and seats of its own user only |
| Inventory.SeatInventory.CancelBooking | inventory-service/src/services/inventory.service.js:694-777 | the same for a cancellation |
| Inventory.SeatInventory.InitializeInventory | inventory-service/src/services/inventory.service.js:13-76 | the same for SCHEDULE_CREATED |
| Inventory.SeatInventory.CancelScheduleInventory | inventory-service/src/services/inventory.service.js:81-119 | the same for SCHEDULE_CANCELLED |
| Inventory.SeatInventory.GetSeats | inventory-service/src/services/inventory.service.js:243-313 | marks exactly the seats of the schedule, AVAILABLE exactly where every leg of the segment is free and no whole-journey sale is |
| LockExpiry.GroupBySchedule | inventory-service/src/utils/lockExpiry.js:58-65 | the grouping loop gives each schedule exactly its seats |
| LockExpiry.CleanExpiredLocks | inventory-service/src/utils/lockExpiry.js:35-136 | phase one deletes exactly the rows that have lapsed, and the seats that lost one come to show the rest, with true counters, as far as no statement fails; then, whatever happened there, exactly the seats still LOCKED and past their expiry become AVAILABLE, and the counters of their schedules true, where their statements succeed; all of it a run of the machine that leaves the ledger safe |
| LockExpiry.ExpiredLockIsFreed | inventory-service/src/utils/lockExpiry.js:83-124 | a seat without an expired row is freed by the job exactly when its own lock is past the second reading of the clock, and is untouched otherwise |
| SagaControl.OneHandlerConfirms | booking-service/src/services/booking.service.js:282-293 | a CONFIRMING booking is owned by exactly one running handler |
| SagaControl.StepTakesAnEdge | booking-service/src/services/booking.service.js:17-28 | each step takes a booking along one edge of its life at most, from PAYMENT_PENDING on with a new version |
| SagaControl.LifeIsOneWay | booking-service/src/services/booking.service.js:356-367 | FAILED, EXPIRED, CANCELLED absorb, CONFIRMED only becomes CANCELLED, no status is taken twice |
| SagaControl.TakenOnce | booking-service/src/services/booking.service.js:282-284 | in every run at most one step takes a booking out of PAYMENT_PENDING |
| SagaControl.SecondClaimLoses | booking-service/src/utils/bookingExpiry.js:65-83 | of two claims prepared by one version the later changes nothing |
| SagaControl.NextKeepsControl | booking-service/src/services/booking.service.js:562-578 | the invariant behind these survives every step |
| SagaTime.ConfirmedHasItsSeats | booking-service/src/services/booking.service.js:286-293 | in every run whose confirmations are on time and whose releases meet no other hold, a CONFIRMED segment booking has a BOOKED row with its id and segment for each seat |
| SagaTime.NoDoubleSale | inventory-service/src/services/inventory.service.js:590-610 | in every such run no two CONFIRMED segment bookings share a leg of a seat |
| SagaTime.OnTimeNamesOwn | inventory-service/src/services/inventory.service.js:573-610 | a confirmation that arrives before its hold has run out names its own rows only |
| SagaTime.FairIsProper | inventory-service/src/utils/lockExpiry.js:45-56 | so in such runs every call reaches its own rows, and the job deletes no confirmed row |
| SagaTime.NextKeepsAll | booking-service/src/services/saga.service.js:118-154 | a live hold stays LOCKED, and who is on the way to a confirmation has one: kept by every step |
| SagaCalls.NamesOwnIff | inventory-service/src/services/inventory.service.js:492-500 | a call names its own rows only exactly when its hold is still there or nothing is named |
| SagaCalls.ConfirmIsRightIff | inventory-service/src/services/inventory.service.js:592-610 | a granted confirmation booked the booking's own rows exactly when it named only them |
| SagaTime.RolledBackHoldsNothing | booking-service/src/services/saga.service.js:161-178 | once no COMPLETED HOLD_SEATS step is left in its log, a booking has no LOCKED row |
| SagaCalls.CarryingIsAllOrNone | booking-service/src/services/saga.service.js:208-222 | a booking's id is on all rows of its hold or on none, and on no other |
| SagaCalls.NextKeepsSeats | booking-service/src/services/saga.service.js:118-154 | bookings, holds and rows fit together after every step that reaches its own rows |
| SagaWhole.ServeSpares | inventory-service/src/services/inventory.service.js:725-760 | every request but its own cancellation leaves a seat that is sold for the whole journey sold |
| SagaWhole.WholeHasItsSeats | inventory-service/src/services/inventory.service.js:618-665 | in every run of fixed modes, confirmations late or on time, a CONFIRMED whole-journey booking has its id on each of its seats |
| SagaWhole.NoSeatIsSoldTwice | booking-service/src/services/booking.service.js:286-293 | in every fair run of fixed modes no two CONFIRMED bookings, by segment or for the whole journey, share a leg of a seat |
| SagaWitness.ATicketIsSold | booking-service/src/services/booking.service.js:258-298 | some fair run of fixed modes confirms a segment booking |
| DoubleSale.SameUserSellsTwice | inventory-service/src/services/inventory.service.js:592-610 | a run in which two CONFIRMED bookings share legs, because one was confirmed late, on another booking's row |
| SagaMoney.ConfirmedIsPaid | booking-service/src/services/booking.service.js:286-319 | in every run, however the payment handlers overlap, a CONFIRMED booking's order has been captured for its amount, says CAPTURED or FAILED, and has no refund |
| SagaMoney.CapturedIff | payment-service/src/services/payment.service.js:186-206 | it says CAPTURED exactly when no failure was written after its last capture |
| SagaMoney.StatusIsLastWrite | payment-service/src/services/payment.service.js:146-206 | an order that was never refunded is FAILED exactly when a failure was the last of its captures and failures |
| SagaWitness.AConfirmedOrderIsFailed | payment-service/src/services/payment.service.js:192-206 | a fair run in which the webhook of an earlier attempt makes the order of a CONFIRMED booking FAILED |
| SagaMoney.RefundedIsLost | booking-service/src/services/saga.service.js:182-204 | a refund exists only for a booking FAILED, EXPIRED, CANCELLED, or CONFIRMING under a handler that compensates |
| SagaMoney.CompensatingMeansLost | booking-service/src/services/booking.service.js:307-319 | who compensates has lost the booking or knows of no order |
| SagaEffects.UndoDoes | booking-service/src/services/saga.service.js:161-222 | a compensation goes through exactly when its call gets through and the seats are there, the booking was sold something, or the refund is made or was; then the hold is released, the sale undone or the money refunded, and the COMPLETED entries of its step are marked; otherwise nothing changes |
| SagaEffects.Stages | booking-service/src/services/saga.service.js:231-250 | compensation number n of compensateAll does exactly that for step n of its list, with the luck of call n, to what the ones before have left |
| SagaEffects.RollbackGivesBack | booking-service/src/services/saga.service.js:231-250 | after compensateAll: where the release was tried, no LOCKED row of the booking is left on its seats, or they are free; where the cancellation was tried, nothing is sold to it; where a refund was asked that the payment service makes, exactly one more is recorded, and never two; and their steps are no longer COMPLETED |
| SagaOutcomes.SuccessOutcome | booking-service/src/services/booking.service.js:280-322 | with a current copy the seats are sold exactly when the call gets through and the inventory accepts; CONFIRMED exactly when the last write succeeds too; otherwise FAILED, with all given back |
| SagaOutcomes.FailureOutcome | booking-service/src/services/booking.service.js:353-376 | FAILED, and the seats released exactly when the call gets through and the inventory accepts |
| SagaOutcomes.ExpiryOutcome | booking-service/src/utils/bookingExpiry.js:62-96 | EXPIRED, with all given back that compensateAll tries |
| SagaOutcomes.CloseOutcome | booking-service/src/services/booking.service.js:560-600 | CANCELLED, seats untouched, and one refund of the amount exactly when the copy shows it CONFIRMED and ordered and the payment service makes it |
| SagaOutcomes.CreationOutcome | booking-service/src/services/booking.service.js:187-249 | PAYMENT_PENDING with its seats held until the deadline and its order made, exactly when both calls succeed and the amount is positive; the hold succeeds exactly when every leg is free, or every seat AVAILABLE; otherwise FAILED, with all given back |
| SagaService.BookingService.CasUpdateBooking | booking-service/src/services/booking.service.js:17-28 | writes status and next version exactly when the version is the expected one |
| SagaService.BookingService.CompensateAll | booking-service/src/services/saga.service.js:231-250 | makes one compensation for each COMPLETED step, the latest first, each with the luck of its own call, and gives back what SagaEffects.RollbackGivesBack says |
| SagaService.CompletedInReverse | booking-service/src/services/saga.service.js:232-235 | the visited steps are those of exactly the COMPLETED entries, from the last back to the first |
| SagaService.RollbackIsFinal | booking-service/src/services/saga.service.js:224-250 | when its calls go through no COMPLETED step is left, and a second run changes nothing |
| SagaService.AllCleared | booking-service/src/services/saga.service.js:167-171 | marking every COMPLETED step leaves none |
| SagaService.BookingService.ExecuteHoldSeats | booking-service/src/services/saga.service.js:21-62 | log, status and call are the machine's hold step |
| SagaService.BookingService.ExecuteCreatePayment | booking-service/src/services/saga.service.js:68-112 | log, status and call are the machine's payment step |
| SagaService.BookingService.ExecuteConfirmSeats | booking-service/src/services/saga.service.js:118-154 | log and call are the machine's confirmation step |
| SagaService.BookingService.CompensateHoldSeats | booking-service/src/services/saga.service.js:161-178 | the step is marked exactly when the release went through |
| SagaService.BookingService.CompensateCreatePayment | booking-service/src/services/saga.service.js:182-204 | without a payment order nothing is done; the step is marked exactly when the refund is accepted |
| SagaService.BookingService.CompensateConfirmSeats | booking-service/src/services/saga.service.js:208-222 | the step is marked exactly when the cancellation went through |
| SagaService.BookingService.HandlePaymentSuccess | booking-service/src/services/booking.service.js:280-322 | takes exactly the steps that follow from its luck; a stale copy changes nothing, a current one ends CONFIRMED exactly when the call gets through, the inventory accepts and the last write succeeds, and FAILED with all given back otherwise |
| SagaService.BookingService.HandlePaymentFailure | booking-service/src/services/booking.service.js:353-376 | takes exactly the steps that follow from its luck; a stale copy changes nothing, a current one ends as SagaOutcomes.FailureOutcome says |
| SagaService.BookingService.CleanExpiredBookings | booking-service/src/utils/bookingExpiry.js:49-100 | every found booking whose copy is current ends EXPIRED with all given back that is tried, one after the other; a run of the machine |
| SagaService.BookingService.HandleScheduleCancelled | booking-service/src/services/booking.service.js:538-609 | every active booking whose copy is current ends CANCELLED, refunded as SagaOutcomes.CloseOutcome says, one after the other; a run of the machine |
| SagaService.BookingService.CreateBooking | booking-service/src/services/booking.service.js:145-249 | records the request as it is; ends PAYMENT_PENDING exactly when the seats can be held, both calls get through and the amount is positive, and FAILED with all given back otherwise; a run of the machine |
| SagaService.QuoteSeats | booking-service/src/services/booking.service.js:59-123 | quotes the sum of the prices exactly when the request is valid, new, for a schedule that is active and not departed, and every seat exists and is available; which error otherwise, decided by the first seat at fault |
| SagaService.FreeIsLockableIff | booking-service/src/services/booking.service.js:100-123 | while nothing moves after getSeats, all seats are free in its view exactly when the inventory will lock them and, for a segment, none is taken for the whole journey |
| SagaService.TotalAdds | booking-service/src/services/booking.service.js:122-122 | the amount for two lists of seats is the sum of both amounts |
| SagaService.TotalOfEqual | booking-service/src/services/booking.service.js:122-122 | seats of one price cost as many times that price |
| PaymentRuns.RefundsAreBounded | payment-service/src/services/payment.service.js:391-430 | in every run of statements in which refund calls for one order do not overlap, however late any status is written, refunds that have not failed sum to at most the amount, REFUNDED means completed refunds sum to exactly it, no key has two refunds |
| PaymentRuns.KeysAreUsedOnce | payment-service/src/services/payment.service.js:411-420 | in every run, REFUNDED means completed refunds reach the amount, and no key has two refunds |
| PaymentRuns.RecordKeepsBoundIff | payment-service/src/services/payment.service.js:392-420 | recording a refund keeps the bound exactly when there is still room for it |
| PaymentRaces.TwoRefundsPassTheBound | payment-service/src/services/payment.service.js:392-420 | a run in which two refund calls read the order before either records, and refund 120 of 100 |
| PaymentRuns.RefundedStaysIff | payment-service/src/services/payment.service.js:146-257 | REFUNDED is absorbing in all runs from a state exactly when no call under way has a capture, a failure, REFUND_INITIATED or a smaller refund status still to write |
| PaymentRuns.KeyIsIdempotent | payment-service/src/services/payment.service.js:10-24 | a repeated key answers with its refund at any later time and changes nothing |
| Payments.SumsComplete | payment-service/src/services/payment.service.js:237-246 | completing a refund changes no other sum and never exceeds what has not failed |
| PaymentCalls.RefundDoes | payment-service/src/services/payment.service.js:374-429 | a refund is accepted exactly when its key has made one, which is then answered and nothing changes, or when the order is paid or partly refunded with room for it and the gateway answers anew; then one refund is recorded, for this order only |
| PaymentCalls.RefusedBecause | payment-service/src/services/payment.service.js:374-412 | which refusal each other case gets |
| PaymentCalls.SettlesOnce | payment-service/src/services/payment.service.js:146-206 | a CREATED order is captured or failed by what comes first, and nothing that comes second changes it |
| PaymentCalls.ProcessedDoes | payment-service/src/services/payment.service.js:227-251 | a webhook completes its own refund only and makes the order REFUNDED exactly when the completed ones reach its amount |
| PaymentRuns.StaleWriteIff | payment-service/src/services/payment.service.js:146-257 | each of the four unconditional writes does what it would do if it looked again exactly when what the call has read still holds, or the order is already as the write leaves it |
| PaymentRuns.CaptureInStatements | payment-service/src/services/payment.service.js:146-169 | read and write of a capture, with nothing between, are the whole call |
| PaymentRuns.FailInStatements | payment-service/src/services/payment.service.js:186-206 | the same for a failure |
| PaymentRuns.RefundInStatements | payment-service/src/services/payment.service.js:374-429 | reads, record, status and idempotency record of a refund, with nothing between, are the whole call |
| PaymentRuns.ProcessedInStatements | payment-service/src/services/payment.service.js:227-251 | completion, count and status of a refund webhook, with nothing between, are the whole call |
| Payments.LateCaptureReopens | payment-service/src/services/payment.service.js:161-169 | a late capture takes a REFUNDED order back to CAPTURED, and no further money is refunded |
| PaymentRaces.LateWritesHappen | payment-service/src/services/payment.service.js:423-429 | runs in which a captured order becomes FAILED, and a REFUNDED one REFUND_INITIATED or CAPTURED again |
| PaymentRaces.AnEarlyCountIsWritten | payment-service/src/services/payment.service.js:238-251 | a run in which a refund status that was counted too early takes REFUNDED back to PARTIALLY_REFUNDED |
| PaymentService.PaymentOrders.InitiateRefund | payment-service/src/services/payment.service.js:368-455 | the checks in their order, then refund, order and key; keeps the refund bound |
| PaymentService.PaymentOrders.HandleRefundProcessed | payment-service/src/services/payment.service.js:222-257 | completes the refund and derives the order's status; keeps the refund bound |
| PaymentService.PaymentOrders.VerifyAndCapturePayment | payment-service/src/services/payment.service.js:261-364 | captures exactly a CREATED order with a valid signature, fails it with an invalid one, and answers which; every other order is left as it is |
| PaymentService.PaymentOrders.HandlePaymentCaptured | payment-service/src/services/payment.service.js:146-184 | captures exactly a CREATED order |
| PaymentService.PaymentOrders.HandlePaymentFailed | payment-service/src/services/payment.service.js:186-220 | fails exactly a CREATED order |
| StreamBus.NothingIsLost | shared/utils/streamBus.js:8-16 | with crashes and failed commands anywhere, a delivered message is pending, handled, dead-lettered or trimmed; only garbage and messages delivered three times are dead-lettered |
| StreamBus.CountIsDeliveries | shared/utils/streamBus.js:79-84 | in every run the delivery count grows by one with each read or claim that returns the message, and with nothing else |
| StreamBus.ClaimUsesPatience | shared/utils/streamBus.js:116-123 | each claim of a message returns it and uses up one of its deliveries |
| StreamBus.FailureRetiresIff | shared/utils/streamBus.js:78-94 | a failure that XPENDING answers is retired exactly when the deliveries are used up, whatever other consumers do meanwhile |
| StreamBus.ThirdFailureRetires | shared/utils/streamBus.js:86-93 | in every run, that is exactly when the message has been delivered three times |
| StreamBus.ReadHandsOut | shared/utils/streamBus.js:125-140 | a read hands out exactly the new messages that are not trimmed, in order, each with its body, and makes them pending |
| StreamBus.ClaimHandsOut | shared/utils/streamBus.js:116-123 | a claim hands out exactly the messages it names |
| StreamBus.NoBatchPassesTen | shared/utils/streamBus.js:116-140 | in every run no consumer has more than ten messages in hand |
| StreamBus.Group.HandleEntry | shared/utils/streamBus.js:53-95 | the outcome for each kind of entry and each command's luck, and exactly when an error leaves it |
| StreamBus.Group.HandleBatch | shared/utils/streamBus.js:118-140 | every entry is handled, in order, each with its outcome, unless an error leaves handleEntry, and then the rest stays pending |
| StreamBus.FieldsToObject | shared/utils/streamBus.js:26-32 | pairs keys with values, the last one without a value included |
| StreamBus.LastPairWins | shared/utils/streamBus.js:26-32 | the object has exactly the keys of the list, each with what stands beside its last mention |
| StreamBus.DataComesBack | shared/utils/streamBus.js:38-40 | a published payload comes back as its data field |
| LuaLocks.Redis.Acquire | booking-service/src/utils/distributedLock.js:14-32 | 1 exactly when the keys are distinct and all free, then exactly they are set; 0 leaves the store unchanged |
| LuaLocks.Redis.Release | booking-service/src/utils/distributedLock.js:35-48 | removes exactly the keys that hold our value and counts them |
| LuaLocks.Redis.ForceRelease | booking-service/src/utils/distributedLock.js:159-170 | removes the keys whoever holds them |
| LuaLocks.ReleaseUndoesAcquire | booking-service/src/utils/distributedLock.js:14-48 | acquire, then release, is the identity |
| LuaLocks.HeldKeyExcludes | booking-service/src/utils/distributedLock.js:19-27 | while a key is held no list with it can be acquired |
| LuaLocks.SameSeatsSameKeys | booking-service/src/utils/distributedLock.js:65-70 | the same seats in any order give the same keys in the same order |
| LuaLocks.KeysDistinctIff | booking-service/src/utils/distributedLock.js:65-70 | the texts of the keys are distinct exactly when the seats are |
| LuaLocks.DifferentSegmentsNeverMeet | booking-service/src/utils/distributedLock.js:50-55 | different segments, overlapping or not, never share a key, whatever the ids contain |
| LuaLocks.SchedulesNeverMeet | booking-service/src/utils/distributedLock.js:65-70 | schedules whose ids hold no colon never share a key |
| RateLimiter.EveryWindowIsBounded | api-gateway/src/middlewares/rateLimiting.middleware.js:16-58 | where calls reach Redis at most lag after their reading, every span of windowMs - lag holds at most maxRequests answered yes; without lag, every window |
| RateLimiter.AfterKeeps | api-gateway/src/middlewares/rateLimiting.middleware.js:24-25 | pruning removes exactly the entries at or before the start of the window, and none of the later ones |
| RateLimiter.ExpiryDropsNothing | api-gateway/src/middlewares/rateLimiting.middleware.js:33-34 | EXPIRE drops no entry that a call in time still counts |
| RateLimiter.HitHoldsIff | api-gateway/src/middlewares/rateLimiting.middleware.js:24-31 | after a call the set is exactly the calls of its window if and only if no earlier call lies in the gap that later readings or expiry have cut |
| RateLimiter.HitHolds | api-gateway/src/middlewares/rateLimiting.middleware.js:24-31 | for a call that arrives as it reads the clock, it always is |
| RateLimiter.DeniedWaits | api-gateway/src/middlewares/rateLimiting.middleware.js:41-52 | a call is denied exactly when more than the maximum are counted; its reset time is when the oldest of them leaves the window, and the wait is the time until then in whole seconds, rounded up |
| RateLimiter.ALateCallBreaksTheBound | api-gateway/src/middlewares/rateLimiting.middleware.js:17-36 | with a lag of 1, a span one longer than windowMs - lag holds more |
| RateLimiter.Limiter.RateLimit | api-gateway/src/middlewares/rateLimiting.middleware.js:16-58 | prune, add, count, expire and answer as the run's step, for one key and no other; wait and reset time as in DeniedWaits |

## Left out

- Payment events for a booking that has expired, and bookings a crash leaves CONFIRMING: the code only
  logs the first and skips the second, so no claim is made.
- Columns that no branch reads: row versions, `lockedAt`, seat numbers and types, prices in the
  inventory, route stops, audit logs, failure reasons.
- The fuller filters of `getSeats` (status, type) and the read-only `getAvailability`, `getBooking`,
  `getUserBookings`, `verifyPayment`: they add single reads.
- Idempotency records of `createBooking` and `createPaymentOrder`, and a crash between an answered call
  and the write that records it (the machine takes both as one step); a failure to save the
  idempotency record after PAYMENT_PENDING is therefore not modelled.
- SagaService.BookingService.CreateBooking: does not model a failed write of the idempotency record after
  PAYMENT_PENDING, after which the code compensates a booking that is ready to be paid
  (booking-service/src/services/booking.service.js:226-249).
- Retries of the HTTP clients and of `NOWAIT` transactions: a call either applies once or not at all.
- Leader election of the two jobs: one leader runs at a time.
- In the saga, the failures of the lock-expiry job are any order and number of its statements, with any
  counts, and the statements of a compensation's own refund call are one step.
- Redis expiry of the seat locks and Redis errors of `acquireSeatLocks`, which reject the booking.
- SagaTime.NoDoubleSale: fair runs; a late confirmation breaks it (`SameUserSellsTwice`).
- SagaTime.ConfirmedHasItsSeats: fair runs, for the same reason.
- SagaWhole.NoSeatIsSoldTwice: seats of one mode each; in a mix of modes a seat sold for the whole journey
  can be locked for a segment by the code itself (`WholeJourneySeatIsLockable`).
- HoldRuns.HoldsMoveTogether: for runs whose releases and confirmations name whole holds; without that the
  code splits a hold, as `HalfAHoldIsConfirmed` shows.
- PaymentRuns.RefundsAreBounded: refund calls for one order that overlap can pass the bound, as
  `TwoRefundsPassTheBound` shows.
- SagaMoney.CapturedIff: CAPTURED is not promised of every CONFIRMED booking's order, because a late failure
  can take it away (`AConfirmedOrderIsFailed`).
- RateLimiter.EveryWindowIsBounded: calls let through while Redis is down are not counted, because the
  code keeps no trace of them.
- OTP counters, token rotation, circuit breaker, search, station and train administration: short
  single-object claims.
- Prices are whole paise; the source stores floating-point amounts.
