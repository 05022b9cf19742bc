/** The booking saga composed with the seat ledger and the payment orders.

    createBooking, the two payment consumers, the booking-expiry job and the schedule-cancelled
    consumer are processes that take one step at a time, in any order and any number, so a read
    of a booking and the compare-and-swap that follows it are separate steps. A process that
    crashes is one that takes no further step. A remote call either applies and reports
    success, or does not apply and reports failure (`up` is false). */
module Saga {
  import opened Ledger
  import opened LedgerRuns
  import P = Payments
  import R = PaymentRuns

  type ProcId = nat

  datatype BookingStatus =
    | Pending | SeatsHeld | PaymentPending | Confirming | Confirmed | FailedBooking | CancelledBooking | Expired

  datatype SagaStep = HoldSeats | CreatePayment | ConfirmStep

  datatype StepStatus = Completed | Compensated | StepFailed

  /** A row of saga_logs, after the step's call has answered. */
  datatype LogEntry = LogEntry(step: SagaStep, status: StepStatus)

  /** The number of the lockSeats call that holds the booking's seats, and its expiry. */
  datatype HoldRef = HoldRef(number: nat, until: int)

  /** A row of bookings with its saga log. The columns of the source end at `log`; the rest
      serves the proofs: `creating` says that createBooking has not returned, `maker` and
      `claimer` name the process that creates it and the one whose claim to confirm it
      succeeded last, `hold` the rows that were inserted for it. */
  datatype Booking = Booking(
    sched: ScheduleId, seats: seq<SeatId>, user: UserId, from: int, to: int, amount: int,
    status: BookingStatus, version: nat, ordered: bool, log: seq<LogEntry>,
    creating: bool, maker: ProcId, claimer: ProcId, hold: Option<HoldRef>)

  datatype Kind = Creation | Success | Failure | Expiry | ScheduleClose

  datatype Pc =
    | Reading | Claiming                 // every contender
    | Holding | Paying                   // createBooking
    | Calling | Finishing                // payment success
    | Loading | Undoing(todo: seq<SagaStep>)
    | Refunding                          // schedule cancelled
    | Stopped

  /** `seen`, `seenVersion` and `seenOrder` are the process's copy of the booking. */
  datatype Proc = Proc(kind: Kind, booking: BookingId, pc: Pc, seen: BookingStatus, seenVersion: nat, seenOrder: bool)

  /** `due` is what the payment service's handlers have read and not yet written; `listed` is what the
      lock-expiry job has found and not yet deleted; `holders` says for which booking a hold was taken. */
  datatype Sys = Sys(db: Db, pay: P.Pay, due: map<R.CallId, R.Due>,
                     bookings: map<BookingId, Booking>, procs: map<ProcId, Proc>,
                     listed: set<RowId>, holders: map<nat, BookingId>, clock: int)

  const START := Sys(EMPTY, P.NO_PAYMENTS, map[], map[], map[], {}, map[], 0)

  datatype Step =
    | Book(p: ProcId, b: BookingId, sched: ScheduleId, seats: seq<SeatId>, user: UserId, from: int, to: int,
           amount: int)
    | Hold(p: ProcId, up: bool, ttl: nat)
    | Pay(p: ProcId, up: bool)
    | Abandon(p: ProcId)
    | Spawn(p: ProcId, kind: Kind, b: BookingId)
    | Read(p: ProcId)
    | Claim(p: ProcId)
    | Call(p: ProcId, up: bool)
    | Finish(p: ProcId, up: bool)
    | Load(p: ProcId)
    | Undo(p: ProcId, up: bool, answer: Option<P.GatewayRefundId>)
    | Fail(p: ProcId)
    | Refund(p: ProcId, up: bool, answer: Option<P.GatewayRefundId>)
    | Inventory(op: Op, ttl: nat)        // any other request or event at the inventory service
    | JobFind | JobDrop                  // the lock-expiry job, phase one
    | JobRecompute(sc: ScheduleId, S: set<SeatId>) | JobFree(sc: ScheduleId, S: set<SeatId>)
    | JobRecount(sc: ScheduleId, counts: Counts)
    | Gateway(act: R.Act)                // a statement of a capture, failure or refund handler
    | Tick(now: int)

  // ----- the saga log -----

  /** The COMPLETED steps, the latest first. */
  function CompletedSteps(log: seq<LogEntry>): seq<SagaStep> {
    if log == [] then []
    else
      var last := log[|log| - 1];
      (if last.status == Completed then [last.step] else []) + CompletedSteps(log[..|log| - 1])
  }

  /** updateMany of the COMPLETED entries of one step. */
  function Compensate(log: seq<LogEntry>, step: SagaStep): seq<LogEntry> {
    seq(|log|, i requires 0 <= i < |log| =>
      if log[i] == LogEntry(step, Completed) then LogEntry(step, Compensated) else log[i])
  }

  // ----- steps -----

  function Move(s: Sys, p: ProcId, pc: Pc): Sys
    requires p in s.procs
  {
    s.(procs := s.procs[p := s.procs[p].(pc := pc)])
  }

  function Put(s: Sys, b: BookingId, bk: Booking): Sys {
    s.(bookings := s.bookings[b := bk])
  }

  /** Process `p` exists, is of this kind, stands here, and its booking exists. */
  predicate At(s: Sys, p: ProcId, kind: Kind, pc: Pc) {
    p in s.procs && s.procs[p].booking in s.bookings && s.procs[p].kind == kind && s.procs[p].pc == pc
  }

  predicate Segmented(bk: Booking) {
    IsSegment(bk.from, bk.to)
  }

  function BookStep(s: Sys, e: Step): Sys
    requires e.Book?
  {
    if e.p in s.procs || e.b in s.bookings || e.seats == [] || (IsSegment(e.from, e.to) && e.from >= e.to) then s
    else
      var bk := Booking(e.sched, e.seats, e.user, e.from, e.to, e.amount, Pending, 0, false, [], true, e.p, e.p, None);
      s.(bookings := s.bookings[e.b := bk], procs := s.procs[e.p := Proc(Creation, e.b, Holding, Pending, 0, false)])
  }

  function Logged(bk: Booking, step: SagaStep, ok: bool): Booking {
    bk.(log := bk.log + [LogEntry(step, if ok then Completed else StepFailed)])
  }

  /** The answer of a call that did not go through. */
  function Unless(up: bool, db: Db, answered: (Db, Reply)): (Db, Reply) {
    if up then answered else (db, Refused(Internal))
  }

  function HoldStep(s: Sys, p: ProcId, up: bool, until: int): Sys {
    if !At(s, p, Creation, Holding) then s
    else
      var b := s.procs[p].booking;
      var bk := Logged(s.bookings[b], HoldSeats, false);
      var (db, reply) := Unless(up, s.db, LockSeats(s.db, bk.sched, bk.seats, bk.user, until, bk.from, bk.to));
      if !reply.Done? then Move(Put(s, b, bk), p, Loading)
      else
        var held := Logged(s.bookings[b], HoldSeats, true).(status := SeatsHeld);
        if Segmented(bk)
        then Move(Put(s.(db := db, holders := s.holders[s.db.nextHold := b]), b,
                      held.(hold := Some(HoldRef(s.db.nextHold, until)))), p, Paying)
        else Move(Put(s.(db := db), b, held), p, Paying)
  }

  function PayStep(s: Sys, p: ProcId, up: bool): Sys {
    if !At(s, p, Creation, Paying) then s
    else
      var b := s.procs[p].booking;
      var bk := s.bookings[b];
      if up && bk.amount > 0
      then Move(Put(s.(pay := P.CreateOrder(s.pay, b, bk.amount)), b,
                    Logged(bk, CreatePayment, true).(status := PaymentPending, ordered := true, creating := false)),
                p, Stopped)
      else Move(Put(s, b, Logged(bk, CreatePayment, false)), p, Loading)
  }

  /** createBooking dies: the booking stays as it is, and nothing more is heard of the call. */
  function AbandonStep(s: Sys, p: ProcId): Sys {
    if !(p in s.procs && s.procs[p].kind == Creation && s.procs[p].pc != Stopped
         && s.procs[p].booking in s.bookings) then s
    else
      var b := s.procs[p].booking;
      Move(Put(s, b, s.bookings[b].(creating := false)), p, Stopped)
  }

  /** The order of the booking has been captured at some time, and PAYMENT_SUCCESS published. */
  predicate Paid(pay: P.Pay, b: BookingId) {
    b in pay.orders && pay.orders[b].succeeded
  }

  predicate Declined(pay: P.Pay, b: BookingId) {
    b in pay.orders && pay.orders[b].declined
  }

  /** A contender starts after creation has returned; a payment consumer, because its event
      was published. */
  function SpawnStep(s: Sys, p: ProcId, kind: Kind, b: BookingId): Sys {
    if p in s.procs || b !in s.bookings || s.bookings[b].creating || kind == Creation then s
    else if kind == Success && !Paid(s.pay, b) then s
    else if kind == Failure && !Declined(s.pay, b) then s
    else s.(procs := s.procs[p := Proc(kind, b, Reading, Pending, 0, false)])
  }

  /** The statuses in which a contender goes on after its read. */
  predicate Claimable(kind: Kind, status: BookingStatus) {
    match kind
    case Creation => false
    case Success => status == PaymentPending
    case Failure => status == PaymentPending
    case Expiry => status == Pending || status == SeatsHeld || status == PaymentPending
    case ScheduleClose => status == Pending || status == SeatsHeld || status == PaymentPending || status == Confirmed
  }

  function ReadStep(s: Sys, p: ProcId): Sys {
    if !(p in s.procs && s.procs[p].pc == Reading && s.procs[p].booking in s.bookings) then s
    else
      var pr := s.procs[p];
      var bk := s.bookings[pr.booking];
      s.(procs := s.procs[p := pr.(seen := bk.status, seenVersion := bk.version, seenOrder := bk.ordered,
                                   pc := if Claimable(pr.kind, bk.status) then Claiming else Stopped)])
  }

  /** What a won claim writes. */
  function Claimed(kind: Kind, bk: Booking, p: ProcId): Booking {
    match kind
    case Creation => bk
    case Success => bk.(status := Confirming, version := bk.version + 1, claimer := p)
    case Failure => bk.(status := FailedBooking, version := bk.version + 1)
    case Expiry => bk.(status := Expired, version := bk.version + 1)
    case ScheduleClose => bk.(status := CancelledBooking, version := bk.version + 1)
  }

  /** Where a won claim leads; the schedule's cancellation refunds by what it has seen. */
  function AfterClaim(pr: Proc): Pc {
    match pr.kind
    case Creation => Stopped
    case Success => Calling
    case Failure => Undoing([HoldSeats])
    case Expiry => Loading
    case ScheduleClose => if pr.seen == Confirmed && pr.seenOrder then Refunding else Stopped
  }

  /** The compare-and-swap. The payment consumers compare the version only, the two jobs also
      look at the status. */
  function ClaimStep(s: Sys, p: ProcId): Sys {
    if !(p in s.procs && s.procs[p].pc == Claiming && s.procs[p].kind != Creation
         && s.procs[p].booking in s.bookings) then s
    else
      var pr := s.procs[p];
      var b := pr.booking;
      var bk := s.bookings[b];
      if bk.version != pr.seenVersion then Move(s, p, Stopped)
      else if (pr.kind == Expiry || pr.kind == ScheduleClose) && !Claimable(pr.kind, bk.status) then Move(s, p, Stopped)
      else Move(Put(s, b, Claimed(pr.kind, bk, p)), p, AfterClaim(pr))
  }

  function CallStep(s: Sys, p: ProcId, up: bool): Sys {
    if !At(s, p, Success, Calling) then s
    else
      var b := s.procs[p].booking;
      var bk := s.bookings[b];
      var (db, reply) := Unless(up, s.db, ConfirmSeats(s.db, bk.sched, bk.seats, bk.user, b, bk.from, bk.to));
      Move(Put(s.(db := db), b, Logged(bk, ConfirmStep, reply.Done?)), p, if reply.Done? then Finishing else Loading)
  }

  function FinishStep(s: Sys, p: ProcId, up: bool): Sys {
    if !At(s, p, Success, Finishing) then s
    else if !up then Move(s, p, Loading)
    else
      var b := s.procs[p].booking;
      var bk := s.bookings[b];
      if bk.status != Confirming then Move(s, p, Stopped)
      else Move(Put(s, b, bk.(status := Confirmed, version := bk.version + 1)), p, Stopped)
  }

  /** compensateAll reads the COMPLETED steps. */
  function LoadStep(s: Sys, p: ProcId): Sys {
    if !(p in s.procs && s.procs[p].pc == Loading && s.procs[p].booking in s.bookings) then s
    else Move(s, p, Undoing(CompletedSteps(s.bookings[s.procs[p].booking].log)))
  }

  /** The call of one compensation: the tables after it, and whether it went through. */
  function UndoCall(s: Sys, b: BookingId, step: SagaStep, seenOrder: bool, up: bool, answer: Option<P.GatewayRefundId>)
    : (Db, P.Pay, bool)
    requires b in s.bookings
  {
    var bk := s.bookings[b];
    match step
    case HoldSeats =>
      var (db, reply) := Unless(up, s.db, UnlockSeats(s.db, bk.sched, bk.seats, bk.user, bk.from, bk.to));
      (db, s.pay, reply.Done?)
    case ConfirmStep =>
      var (db, reply) := Unless(up, s.db, CancelBooking(s.db, bk.sched, b));
      (db, s.pay, reply.Done?)
    case CreatePayment =>
      if !seenOrder || !up then (s.db, s.pay, false)
      else
        var (pay, reply) := P.InitiateRefund(s.pay, b, bk.amount, P.Compensation(b), answer);
        (s.db, pay, reply.Accepted?)
  }

  /** One compensation of compensateAll. Its error is logged and the loop goes on. */
  function UndoStep(s: Sys, p: ProcId, up: bool, answer: Option<P.GatewayRefundId>): Sys {
    if !(p in s.procs && s.procs[p].pc.Undoing? && s.procs[p].pc.todo != [] && s.procs[p].booking in s.bookings) then s
    else
      var pr := s.procs[p];
      var bk := s.bookings[pr.booking];
      var step := pr.pc.todo[0];
      var (db, pay, done) := UndoCall(s, pr.booking, step, pr.seenOrder, up, answer);
      var s1 := Move(s, p, Undoing(pr.pc.todo[1..]));
      if done then Put(s1.(db := db, pay := pay), pr.booking, bk.(log := Compensate(bk.log, step))) else s1
  }

  /** The last write of a failed creation, without a version, and of a failed confirmation. */
  function FailStep(s: Sys, p: ProcId): Sys {
    if !(p in s.procs && s.procs[p].pc == Undoing([]) && s.procs[p].booking in s.bookings) then s
    else
      var b := s.procs[p].booking;
      var bk := s.bookings[b];
      match s.procs[p].kind
      case Creation => Move(Put(s, b, bk.(status := FailedBooking, creating := false)), p, Stopped)
      case Success =>
        if bk.status != PaymentPending && bk.status != Confirming then Move(s, p, Stopped)
        else Move(Put(s, b, bk.(status := FailedBooking, version := bk.version + 1)), p, Stopped)
      case _ => Move(s, p, Stopped)
  }

  function RefundStep(s: Sys, p: ProcId, up: bool, answer: Option<P.GatewayRefundId>): Sys {
    if !At(s, p, ScheduleClose, Refunding) then s
    else
      var b := s.procs[p].booking;
      var s1 := Move(s, p, Stopped);
      if !up then s1
      else s1.(pay := P.InitiateRefund(s.pay, b, s.bookings[b].amount, P.ScheduleCancel(b), answer).0)
  }

  /** What reaches the inventory service beside the saga's own calls: full-journey requests,
      schedule events, and cancellations of bookings that own no segment row. */
  predicate Foreign(db: Db, op: Op) {
    match op
    case Lock(_, _, _, from, to) => !IsSegment(from, to)
    case Unlock(_, _, _, from, to) => !IsSegment(from, to)
    case Confirm(_, _, _, _, from, to) => !IsSegment(from, to)
    case CancelOf(sc, booking) => BookedSeatsOf(db.rows, sc, booking) == {}
    case Create(_, _) => true
    case Close(_) => true
  }

  /** The gateway's news: no order and no refund is made outside the saga, and a refund webhook
      names the order that the refund belongs to. */
  predicate News(pay: P.Pay, a: R.Act) {
    match a
    case NewOrder(_, _) => false
    case BeginRefund(_, _, _, _) => false
    case Complete(_, o, id) => forall i | 0 <= i < |pay.refunds| && pay.refunds[i].id == id :: pay.refunds[i].order == o
    case _ => true
  }

  /** The handlers of the payment service go on by one statement. */
  function GatewayStep(s: Sys, a: R.Act): Sys {
    if !News(s.pay, a) then s
    else
      var desk := R.ActStep(R.Desk(s.pay, s.due), a);
      s.(pay := desk.pay, due := desk.due)
  }

  function Next(s: Sys, e: Step): Sys {
    match e
    case Book(_, _, _, _, _, _, _, _) => BookStep(s, e)
    case Hold(p, up, ttl) => HoldStep(s, p, up, Deadline(s.clock, ttl))
    case Pay(p, up) => PayStep(s, p, up)
    case Abandon(p) => AbandonStep(s, p)
    case Spawn(p, kind, b) => SpawnStep(s, p, kind, b)
    case Read(p) => ReadStep(s, p)
    case Claim(p) => ClaimStep(s, p)
    case Call(p, up) => CallStep(s, p, up)
    case Finish(p, up) => FinishStep(s, p, up)
    case Load(p) => LoadStep(s, p)
    case Undo(p, up, answer) => UndoStep(s, p, up, answer)
    case Fail(p) => FailStep(s, p)
    case Refund(p, up, answer) => RefundStep(s, p, up, answer)
    case Inventory(op, ttl) => if Foreign(s.db, op) then s.(db := Serve(s.db, op, Deadline(s.clock, ttl))) else s
    case JobFind => s.(listed := ExpiredRows(s.db.rows, s.clock))
    case JobDrop => s.(db := DeleteRows(s.db, s.listed), listed := {})
    case JobRecompute(sc, S) => s.(db := Recompute(s.db, sc, S))
    case JobFree(sc, S) => s.(db := FreeSeats(s.db, sc, S))
    case JobRecount(sc, counts) => s.(db := SetCounts(s.db, sc, counts))
    case Gateway(a) => GatewayStep(s, a)
    case Tick(now) => if s.clock <= now then s.(clock := now) else s
  }

  function Run(s: Sys, es: seq<Step>): Sys
    decreases |es|
  {
    if es == [] then s else Run(Next(s, es[0]), es[1..])
  }

  // ----- the hypotheses of the end-to-end claims -----

  /** Rows are keyed by user, not by booking: what this booking's release or confirmation names
      is its own hold, not one that another booking of the same user has on the same seat and
      segment since its own ran out. */
  predicate NamesOwn(s: Sys, bk: Booking) {
    Segmented(bk) ==>
      forall k | k in Named(s.db.rows, bk.sched, Found(s.db.seats, bk.sched, bk.seats), bk.user, bk.from, bk.to) ::
        bk.hold.Some? && k.hold == bk.hold.value.number
  }

  /** The next compensation of this process is the release of the held seats. */
  predicate Releasing(s: Sys, p: ProcId) {
    && p in s.procs && s.procs[p].booking in s.bookings
    && s.procs[p].pc.Undoing? && s.procs[p].pc.todo != [] && s.procs[p].pc.todo[0] == HoldSeats
  }

  /** The booking's hold, if it has one, has not run out. */
  predicate OnTime(s: Sys, bk: Booking) {
    bk.hold.Some? ==> s.clock <= bk.hold.value.until
  }

  /** A step that keeps to the hypotheses: a confirmation arrives before its booking's hold has run
      out, and a release of held seats meets no other hold of the same user. */
  predicate Fair(s: Sys, e: Step) {
    match e
    case Call(p, _) => At(s, p, Success, Calling) ==> OnTime(s, s.bookings[s.procs[p].booking])
    case Undo(p, _, _) => Releasing(s, p) ==> NamesOwn(s, s.bookings[s.procs[p].booking])
    case _ => true
  }

  predicate FairRun(s: Sys, es: seq<Step>)
    decreases |es|
  {
    es != [] ==> Fair(s, es[0]) && FairRun(Next(s, es[0]), es[1..])
  }
}
