/** What the calls and the compensations of the booking saga do to the tables, said of rows, seats,
    orders and log entries one by one, without the functions that compute it. */
module SagaEffects {
  import opened Ledger
  import opened LedgerRuns
  import opened Saga
  import opened SagaControl
  import opened PaymentCalls
  import Q = Requests
  import P = Payments

  /** What becomes of one remote call: whether it gets through, and the gateway's answer to a refund. */
  datatype Net = Net(up: bool, answer: Option<P.GatewayRefundId>)

  // ----- forward calls -----

  /** The inventory grants a lock of the booking's seats: they are all there, in an active schedule, and
      every leg of the segment is free on each, or each shows AVAILABLE. */
  predicate Lockable(db: Db, bk: Booking) {
    && Q.MayLock(db, bk.sched, bk.seats)
    && if Segmented(bk) then forall x | x in bk.seats :: Q.LegsFree(db, bk.sched, x, bk.from, bk.to)
       else forall x | x in bk.seats :: db.seats[SeatKey(bk.sched, x)].status == Available
  }

  /** A LOCKED row of the booking's user, for its segment, on one of its seats. */
  predicate IsHeldFor(db: Db, k: RowId, bk: Booking) {
    Q.IsHeld(db, k, bk.sched, bk.seats, bk.user, bk.from, bk.to)
  }

  predicate SeatsThere(db: Db, bk: Booking) {
    bk.seats != [] && Q.AllThere(db, bk.sched, bk.seats)
  }

  /** Each seat is LOCKED, and by the booking's user. */
  predicate LockedWhole(db: Db, bk: Booking) {
    Q.EachIsLocked(db, bk.sched, bk.seats) && Q.EachIsBy(db, bk.sched, bk.seats, bk.user)
  }

  /** The inventory accepts a confirmation of the booking's seats. */
  predicate Confirmable(db: Db, bk: Booking) {
    && SeatsThere(db, bk)
    && if Segmented(bk) then exists k :: k in db.rows && IsHeldFor(db, k, bk) else LockedWhole(db, bk)
  }

  /** It accepts their release. */
  predicate Releasable(db: Db, bk: Booking) {
    SeatsThere(db, bk) && (Segmented(bk) || LockedWhole(db, bk))
  }

  /** The booking has been sold something. */
  predicate Cancellable(db: Db, sc: ScheduleId, b: BookingId) {
    || (exists k :: k in db.rows && Q.IsSold(db, k, sc, b))
    || (exists k :: k in db.seats && Q.IsSoldWhole(db, k, sc, b))
  }

  /** The booking's seats have come to show what their rows say. */
  predicate ShowTheirRows(db: Db, db': Db, bk: Booking) {
    forall x | x in bk.seats :: SeatKey(bk.sched, x) in db.seats && SeatKey(bk.sched, x) in db'.seats
      && Q.ShowsItsRows(db', db.seats[SeatKey(bk.sched, x)], bk.sched, x)
  }

  /** One LOCKED row per seat has been added, or each seat is LOCKED by the user. */
  ghost predicate Held(db: Db, db': Db, bk: Booking, until: int) {
    && Q.RestKept(db, db', bk.sched, bk.seats) && db'.nextHold == db.nextHold + (if Segmented(bk) then 1 else 0)
    && if Segmented(bk) then
         && (forall k :: k in db'.rows <==> k in db.rows || (k.hold == db.nextHold && k.seat in bk.seats))
         && (forall k | k in db.rows :: db'.rows[k] == db.rows[k])
         && (forall k | k in db'.rows && k !in db.rows ::
               db'.rows[k] == SegRow(bk.sched, bk.from, bk.to, Locked, bk.user, Some(until), None))
         && (forall x | x in bk.seats :: SeatKey(bk.sched, x) in db'.seats
               && db'.seats[SeatKey(bk.sched, x)].status == Locked
               && db'.seats[SeatKey(bk.sched, x)].expires == Some(until))
       else
         && db'.rows == db.rows
         && forall x | x in bk.seats :: SeatKey(bk.sched, x) in db.seats && SeatKey(bk.sched, x) in db'.seats &&
              db'.seats[SeatKey(bk.sched, x)]
                == Seat(Locked, Some(bk.user), Some(until), db.seats[SeatKey(bk.sched, x)].booking)
  }

  /** The user's LOCKED rows for the segment have become BOOKED for the booking, or each seat has. */
  ghost predicate Sold(db: Db, db': Db, b: BookingId, bk: Booking) {
    && Q.RestKept(db, db', bk.sched, bk.seats) && db'.rows.Keys == db.rows.Keys && db'.nextHold == db.nextHold
    && if Segmented(bk) then
         && (forall k | k in db.rows :: db'.rows[k] ==
               if IsHeldFor(db, k, bk) then SegRow(bk.sched, bk.from, bk.to, Booked, bk.user, None, Some(b))
               else db.rows[k])
         && ShowTheirRows(db, db', bk)
       else
         && db'.rows == db.rows
         && forall x | x in bk.seats :: SeatKey(bk.sched, x) in db.seats && SeatKey(bk.sched, x) in db'.seats &&
              db'.seats[SeatKey(bk.sched, x)] == Seat(Booked, db.seats[SeatKey(bk.sched, x)].user, None, Some(b))
  }

  /** The user's LOCKED rows for the segment are gone, and no other row; or each seat is free. */
  ghost predicate Released(db: Db, db': Db, bk: Booking) {
    && Q.RestKept(db, db', bk.sched, bk.seats) && db'.nextHold == db.nextHold
    && if Segmented(bk) then
         && (forall k :: k in db'.rows <==> k in db.rows && !IsHeldFor(db, k, bk))
         && (forall k | k in db'.rows :: db'.rows[k] == db.rows[k])
         && ShowTheirRows(db, db', bk)
       else
         && db'.rows == db.rows
         && forall x | x in bk.seats :: SeatKey(bk.sched, x) in db.seats && SeatKey(bk.sched, x) in db'.seats &&
              db'.seats[SeatKey(bk.sched, x)] == Seat(Available, None, None, db.seats[SeatKey(bk.sched, x)].booking)
  }

  /** The rows that carry the booking are gone, and no other row; without a BOOKED row of it, the seats
      that were sold to it for the whole journey are free, and no other seat has changed. */
  ghost predicate Unsold(db: Db, db': Db, sc: ScheduleId, b: BookingId) {
    && db'.seats.Keys == db.seats.Keys && db'.schedules.Keys == db.schedules.Keys && db'.events == db.events
    && db'.nextHold == db.nextHold
    && if exists k :: k in db.rows && Q.IsSold(db, k, sc, b) then
         && (forall k :: k in db'.rows <==> k in db.rows && !(db.rows[k].sched == sc && db.rows[k].booking == Some(b)))
         && (forall k | k in db'.rows :: db'.rows[k] == db.rows[k])
       else
         && db'.rows == db.rows
         && forall k | k in db.seats :: db'.seats[k] == if Q.IsSoldWhole(db, k, sc, b) then FREE else db.seats[k]
  }

  lemma {:induction false} LockIsGrantedIff(db: Db, bk: Booking, until: int)
    requires Q.ProperRows(db) && (Segmented(bk) ==> bk.from < bk.to)
    ensures LockSeats(db, bk.sched, bk.seats, bk.user, until, bk.from, bk.to).1.Done? <==> Lockable(db, bk)
  {
    if !Q.MayLock(db, bk.sched, bk.seats) {
      Q.LockNeeds(db, bk.sched, bk.seats, bk.user, until, bk.from, bk.to);
    } else if Segmented(bk) {
      Q.LockIsGrantedIff(db, bk.sched, bk.seats, bk.user, until, bk.from, bk.to);
    } else {
      Q.WholeLockIsGrantedIff(db, bk.sched, bk.seats, bk.user, until, bk.from, bk.to);
    }
  }

  lemma {:induction false} LockHolds(db: Db, bk: Booking, until: int)
    requires RowsOwned(db)
    ensures var (db', reply) := LockSeats(db, bk.sched, bk.seats, bk.user, until, bk.from, bk.to);
            if reply.Done? then Held(db, db', bk, until) else db' == db
  {
    var (db', reply) := LockSeats(db, bk.sched, bk.seats, bk.user, until, bk.from, bk.to);
    if reply.Done? {
      if Segmented(bk) { Q.LockDoes(db, bk.sched, bk.seats, bk.user, until, bk.from, bk.to); }
      else { Q.WholeLockDoes(db, bk.sched, bk.seats, bk.user, until, bk.from, bk.to); }
    }
  }

  lemma {:induction false} ConfirmSells(db: Db, b: BookingId, bk: Booking)
    requires SeatsOwned(db)
    ensures var (db', reply) := ConfirmSeats(db, bk.sched, bk.seats, bk.user, b, bk.from, bk.to);
            if Confirmable(db, bk) then reply.Done? && Sold(db, db', b, bk) else !reply.Done? && db' == db
  {
    if !SeatsThere(db, bk) {
      Q.SeatsAreNeeded(db, bk.sched, bk.seats, bk.user, b, bk.from, bk.to);
    } else if Segmented(bk) {
      Q.ConfirmIsGrantedIff(db, bk.sched, bk.seats, bk.user, b, bk.from, bk.to);
      if Confirmable(db, bk) { Q.ConfirmDoes(db, bk.sched, bk.seats, bk.user, b, bk.from, bk.to); }
    } else {
      Q.WholeIsGrantedIff(db, bk.sched, bk.seats, bk.user, b, bk.from, bk.to);
      if Confirmable(db, bk) { Q.WholeConfirmDoes(db, bk.sched, bk.seats, bk.user, b, bk.from, bk.to); }
    }
  }

  lemma {:induction false} ReleaseFrees(db: Db, bk: Booking)
    requires SeatsOwned(db)
    ensures var (db', reply) := UnlockSeats(db, bk.sched, bk.seats, bk.user, bk.from, bk.to);
            if Releasable(db, bk) then reply.Done? && Released(db, db', bk) else !reply.Done? && db' == db
  {
    if !SeatsThere(db, bk) {
      Q.SeatsAreNeeded(db, bk.sched, bk.seats, bk.user, 0, bk.from, bk.to);
    } else if Segmented(bk) {
      Q.UnlockDoes(db, bk.sched, bk.seats, bk.user, bk.from, bk.to);
    } else {
      Q.WholeIsGrantedIff(db, bk.sched, bk.seats, bk.user, 0, bk.from, bk.to);
      if Releasable(db, bk) { Q.WholeUnlockDoes(db, bk.sched, bk.seats, bk.user, bk.from, bk.to); }
    }
  }

  lemma {:induction false} CancelUnsells(db: Db, sc: ScheduleId, b: BookingId)
    requires SeatsOwned(db) && RowsOwned(db)
    ensures var (db', reply) := CancelBooking(db, sc, b);
            if Cancellable(db, sc, b) then reply.Done? && Unsold(db, db', sc, b) else !reply.Done? && db' == db
  {
    if k :| k in db.rows && Q.IsSold(db, k, sc, b) {
      Q.CancelDoes(db, sc, b);
    } else {
      Q.WholeCancelDoes(db, sc, b);
    }
  }

  // ----- one compensation -----

  /** The COMPLETED entries of the step are COMPENSATED, and no other entry has changed. */
  predicate Marked(log: seq<LogEntry>, log': seq<LogEntry>, step: SagaStep) {
    && |log'| == |log|
    && forall i | 0 <= i < |log| :: log'[i] ==
         if log[i].step == step && log[i].status == Completed then LogEntry(step, Compensated) else log[i]
  }

  predicate SameTables(s: Sys, s': Sys) {
    s'.db == s.db && s'.pay == s.pay && s'.bookings == s.bookings
  }

  /** No booking but this one has changed, and of this one only its log, where the step is marked. */
  predicate OnlyMarked(s: Sys, s': Sys, b: BookingId, step: SagaStep) {
    && b in s.bookings && b in s'.bookings && Marked(s.bookings[b].log, s'.bookings[b].log, step)
    && s'.bookings == s.bookings[b := s.bookings[b].(log := s'.bookings[b].log)]
  }

  /** Its compensation goes through. */
  predicate Undoable(s: Sys, b: BookingId, step: SagaStep, net: Net, ordered: bool)
    requires b in s.bookings
  {
    var bk := s.bookings[b];
    net.up &&
    match step
    case HoldSeats => Releasable(s.db, bk)
    case ConfirmStep => Cancellable(s.db, bk.sched, b)
    case CreatePayment =>
      ordered && bk.amount != 0
      && (P.Compensation(b) in s.pay.keys || Refundable(s.pay, b, bk.amount, P.Compensation(b), net.answer))
  }

  /** What it then does to seats and payments. */
  ghost predicate Undid(s: Sys, s': Sys, b: BookingId, step: SagaStep, net: Net)
    requires b in s.bookings
  {
    var bk := s.bookings[b];
    match step
    case HoldSeats => s'.pay == s.pay && Released(s.db, s'.db, bk)
    case ConfirmStep => s'.pay == s.pay && Unsold(s.db, s'.db, bk.sched, b)
    case CreatePayment =>
      s'.db == s.db &&
      if P.Compensation(b) in s.pay.keys then s'.pay == s.pay
      else net.answer.Some? && PaidBack(s.pay, s'.pay, b, bk.amount, P.Compensation(b), net.answer.value)
  }

  /** One compensation: all of it and its mark in the log, or nothing. */
  ghost predicate Compensates(s: Sys, s': Sys, b: BookingId, step: SagaStep, net: Net, ordered: bool) {
    && b in s.bookings
    && if Undoable(s, b, step, net, ordered) then Undid(s, s', b, step, net) && OnlyMarked(s, s', b, step)
       else SameTables(s, s')
  }

  predicate Owned(s: Sys) {
    SeatsOwned(s.db) && RowsOwned(s.db)
  }

  lemma {:induction false} UndoDoes(s: Sys, p: ProcId, net: Net)
    requires Owned(s) && p in s.procs && s.procs[p].pc.Undoing? && s.procs[p].pc.todo != []
    requires s.procs[p].booking in s.bookings
    ensures var pr := s.procs[p];
            Compensates(s, UndoStep(s, p, net.up, net.answer), pr.booking, pr.pc.todo[0], net, pr.seenOrder)
  {
    var pr := s.procs[p];
    var b := pr.booking;
    var bk := s.bookings[b];
    match pr.pc.todo[0]
    case HoldSeats => ReleaseFrees(s.db, bk);
    case ConfirmStep => CancelUnsells(s.db, bk.sched, b);
    case CreatePayment => RefundDoes(s.pay, b, bk.amount, P.Compensation(b), net.answer);
  }

  /** It adds no row, and takes no seat and no schedule away. */
  predicate TakesRows(db: Db, db': Db) {
    && (forall k | k in db'.rows :: k in db.rows && db'.rows[k] == db.rows[k])
    && db'.seats.Keys == db.seats.Keys && db'.schedules.Keys == db.schedules.Keys && db'.nextHold == db.nextHold
  }

  lemma {:induction false} OwnedStay(db: Db, db': Db)
    requires TakesRows(db, db') && SeatsOwned(db) && RowsOwned(db)
    ensures SeatsOwned(db') && RowsOwned(db')
  {
  }

  lemma {:induction false} CompensationTakesRows(s: Sys, s': Sys, b: BookingId, step: SagaStep, net: Net, ordered: bool)
    requires Compensates(s, s', b, step, net, ordered)
    ensures TakesRows(s.db, s'.db) && (Owned(s) ==> Owned(s'))
    ensures b in s'.bookings && s'.bookings == s.bookings[b := s.bookings[b].(log := s'.bookings[b].log)]
    ensures forall x :: NoneLeft(s.bookings[b].log, x) ==> NoneLeft(s'.bookings[b].log, x)
  {
    if Owned(s) { OwnedStay(s.db, s'.db); }
  }

  // ----- compensateAll -----

  /** The step has no COMPLETED entry. */
  predicate NoneLeft(log: seq<LogEntry>, step: SagaStep) {
    forall i | 0 <= i < |log| :: log[i].step == step ==> log[i].status != Completed
  }

  function Undos(p: ProcId, net: nat -> Net, n: nat): seq<Step> {
    seq(n, i requires 0 <= i < n => Undo(p, net(i).up, net(i).answer))
  }

  /** The steps of compensateAll: it reads its log and makes `n` compensations. */
  function Rollback(p: ProcId, net: nat -> Net, n: nat): seq<Step> {
    [Load(p)] + Undos(p, net, n)
  }

  lemma {:induction false} UndosOneMore(es: seq<Step>, p: ProcId, net: nat -> Net, n: nat)
    ensures es + Undos(p, net, n) + [Undo(p, net(n).up, net(n).answer)] == es + Undos(p, net, n + 1)
    ensures es + Undos(p, net, 0) == es
  {
  }

  /** The machine after them. */
  function After(s: Sys, p: ProcId, net: nat -> Net, n: nat): Sys {
    Saga.Run(s, Rollback(p, net, n))
  }

  /** Process `p` is about to start compensateAll for booking `b`, whose COMPLETED steps are these. */
  predicate ToRollBack(s: Sys, p: ProcId, b: BookingId, steps: seq<SagaStep>) {
    && Owned(s) && p in s.procs && s.procs[p].booking == b && s.procs[p].pc == Loading
    && b in s.bookings && steps == CompletedSteps(s.bookings[b].log)
  }

  lemma {:induction false} RunOneMore(s: Sys, es: seq<Step>, e: Step)
    ensures Saga.Run(s, es + [e]) == Saga.Next(Saga.Run(s, es), e)
    decreases |es|
  {
    if es == [] {
      assert [e][1..] == [] && [] + [e] == [e];
    } else {
      assert (es + [e])[1..] == es[1..] + [e];
      RunOneMore(Saga.Next(s, es[0]), es[1..], e);
    }
  }

  lemma {:induction false} AfterOneMore(s: Sys, p: ProcId, net: nat -> Net, n: nat)
    ensures Rollback(p, net, n + 1) == Rollback(p, net, n) + [Undo(p, net(n).up, net(n).answer)]
    ensures After(s, p, net, n + 1) == UndoStep(After(s, p, net, n), p, net(n).up, net(n).answer)
  {
    RunOneMore(s, Rollback(p, net, n), Undo(p, net(n).up, net(n).answer));
  }

  lemma {:induction false} AfterNone(s: Sys, p: ProcId, net: nat -> Net)
    ensures Rollback(p, net, 0) == [Load(p)] && After(s, p, net, 0) == LoadStep(s, p)
  {
    assert Rollback(p, net, 0) == [] + [Load(p)];
    RunOneMore(s, [], Load(p));
  }

  /** Where the machine stands after `n` compensations. */
  predicate Midway(s: Sys, s': Sys, p: ProcId, b: BookingId, steps: seq<SagaStep>, n: nat) {
    && n <= |steps| && Owned(s') && p in s.procs && p in s'.procs && b in s.bookings && b in s'.bookings
    && s'.procs[p] == s.procs[p].(pc := Undoing(steps[n..]))
    && s'.bookings == s.bookings[b := s.bookings[b].(log := s'.bookings[b].log)]
    && TakesRows(s.db, s'.db)
  }

  /** Compensation number `n` does what it should to what the ones before it have left. */
  lemma {:induction false} Stages(s: Sys, p: ProcId, b: BookingId, net: nat -> Net, steps: seq<SagaStep>, n: nat)
    requires ToRollBack(s, p, b, steps) && n <= |steps|
    ensures Midway(s, After(s, p, net, n), p, b, steps, n)
    ensures n > 0 ==>
      Compensates(After(s, p, net, n - 1), After(s, p, net, n), b, steps[n - 1], net(n - 1), s.procs[p].seenOrder)
    ensures n == 0 ==> SameTables(s, After(s, p, net, n))
    decreases n
  {
    if n == 0 {
      AfterNone(s, p, net);
    } else {
      Stages(s, p, b, net, steps, n - 1);
      NextStage(s, p, b, net, steps, n - 1);
    }
  }

  lemma {:induction false} NextStage(s: Sys, p: ProcId, b: BookingId, net: nat -> Net, steps: seq<SagaStep>, n: nat)
    requires n < |steps| && Midway(s, After(s, p, net, n), p, b, steps, n) && s.procs[p].booking == b
    ensures Midway(s, After(s, p, net, n + 1), p, b, steps, n + 1)
    ensures Compensates(After(s, p, net, n), After(s, p, net, n + 1), b, steps[n], net(n), s.procs[p].seenOrder)
  {
    AfterOneMore(s, p, net, n);
    StageDoes(s, After(s, p, net, n), p, b, net(n), steps, n);
  }

  lemma {:induction false} StageDoes(s: Sys, s1: Sys, p: ProcId, b: BookingId, net: Net, steps: seq<SagaStep>, n: nat)
    requires Midway(s, s1, p, b, steps, n) && n < |steps| && s.procs[p].booking == b
    ensures var s2 := UndoStep(s1, p, net.up, net.answer);
            Compensates(s1, s2, b, steps[n], net, s.procs[p].seenOrder) && Midway(s, s2, p, b, steps, n + 1)
  {
    var s2 := UndoStep(s1, p, net.up, net.answer);
    UndoDoes(s1, p, net);
    UndoShape(s1, p, net.up, net.answer);
    CompensationTakesRows(s1, s2, b, steps[n], net, s.procs[p].seenOrder);
    assert steps[n..][1..] == steps[n + 1..];
  }

  // ----- what is left after all of them -----

  predicate HasSale(db: Db, sc: ScheduleId, b: BookingId) {
    exists k :: k in db.rows && Q.IsSold(db, k, sc, b)
  }

  predicate HasWholeSale(db: Db, sc: ScheduleId, b: BookingId) {
    exists k :: k in db.seats && Q.IsSoldWhole(db, k, sc, b)
  }

  /** No LOCKED row of the booking's user for its segment is left on its seats. */
  predicate NoHold(db: Db, bk: Booking) {
    forall k | k in db.rows :: !IsHeldFor(db, k, bk)
  }

  /** Each seat is AVAILABLE, without a user. */
  predicate FreeWhole(db: Db, bk: Booking) {
    forall x | x in bk.seats :: SeatKey(bk.sched, x) in db.seats
      && db.seats[SeatKey(bk.sched, x)].status == Available && db.seats[SeatKey(bk.sched, x)].user == None
  }

  /** The segment hold, one compensation on. */
  lemma {:induction false} HoldStepOn(s: Sys, s': Sys, b: BookingId, step: SagaStep, net: Net, ordered: bool,
      bk: Booking)
    requires Compensates(s, s', b, step, net, ordered) && bk == s.bookings[b].(log := bk.log)
    requires Segmented(bk) && SeatsThere(s.db, bk)
    ensures SeatsThere(s'.db, bk)
    ensures NoHold(s.db, bk) ==> NoHold(s'.db, bk)
    ensures step == HoldSeats && net.up ==> NoHold(s'.db, bk) && NoneLeft(s'.bookings[b].log, HoldSeats)
  {
    CompensationTakesRows(s, s', b, step, net, ordered);
    if step == HoldSeats && net.up {
      assert Released(s.db, s'.db, s.bookings[b]);
      forall k | k in s'.db.rows ensures !IsHeldFor(s'.db, k, bk) {}
    }
  }

  /** The sale, one compensation on. */
  lemma {:induction false} SaleStepOn(s: Sys, s': Sys, b: BookingId, step: SagaStep, net: Net, ordered: bool)
    requires Compensates(s, s', b, step, net, ordered)
    ensures var sc := s.bookings[b].sched;
            && (HasSale(s.db, sc, b) ==> HasSale(s'.db, sc, b) || NoneLeft(s'.bookings[b].log, ConfirmStep))
            && (!HasSale(s.db, sc, b) ==> !HasSale(s'.db, sc, b))
            && (step == ConfirmStep && net.up ==> !HasSale(s'.db, sc, b))
  {
    var sc := s.bookings[b].sched;
    CompensationTakesRows(s, s', b, step, net, ordered);
    if HasSale(s'.db, sc, b) {
      var k :| k in s'.db.rows && Q.IsSold(s'.db, k, sc, b);
      assert Q.IsSold(s.db, k, sc, b);
    }
    if HasSale(s.db, sc, b) && !(step == ConfirmStep && net.up) {
      var k :| k in s.db.rows && Q.IsSold(s.db, k, sc, b);
      assert k in s'.db.rows && Q.IsSold(s'.db, k, sc, b);
    }
  }

  /** The hold of a booking for the whole journey, one compensation on. */
  lemma {:induction false} WholeHoldOn(s: Sys, s': Sys, b: BookingId, step: SagaStep, net: Net, ordered: bool,
      bk: Booking)
    requires Compensates(s, s', b, step, net, ordered) && bk == s.bookings[b].(log := bk.log)
    requires !Segmented(bk) && SeatsThere(s.db, bk) && !HasSale(s.db, bk.sched, b)
    ensures SeatsThere(s'.db, bk) && (FreeWhole(s.db, bk) ==> FreeWhole(s'.db, bk))
    ensures LockedWhole(s.db, bk) && !(step == HoldSeats && net.up) ==> LockedWhole(s'.db, bk)
    ensures LockedWhole(s.db, bk) && step == HoldSeats && net.up ==>
      FreeWhole(s'.db, bk) && NoneLeft(s'.bookings[b].log, HoldSeats)
  {
    CompensationTakesRows(s, s', b, step, net, ordered);
  }

  /** Its sale, one compensation on. */
  lemma {:induction false} WholeSaleOn(s: Sys, s': Sys, b: BookingId, step: SagaStep, net: Net, ordered: bool,
      bk: Booking)
    requires Compensates(s, s', b, step, net, ordered) && bk == s.bookings[b].(log := bk.log)
    requires !Segmented(bk) && SeatsThere(s.db, bk) && !HasSale(s.db, bk.sched, b)
    ensures HasWholeSale(s.db, bk.sched, b) ==>
      HasWholeSale(s'.db, bk.sched, b) || NoneLeft(s'.bookings[b].log, ConfirmStep)
    ensures !HasWholeSale(s.db, bk.sched, b) ==> !HasWholeSale(s'.db, bk.sched, b)
    ensures step == ConfirmStep && net.up ==> !HasWholeSale(s'.db, bk.sched, b)
  {
    var sc := bk.sched;
    CompensationTakesRows(s, s', b, step, net, ordered);
    if k :| k in s'.db.seats && Q.IsSoldWhole(s'.db, k, sc, b) {
      assert k in s.db.seats && k == SeatKey(k.sched, k.seat);
      assert Q.IsSoldWhole(s.db, k, sc, b);
    }
    if k :| k in s.db.seats && Q.IsSoldWhole(s.db, k, sc, b) {
      assert k == SeatKey(k.sched, k.seat);
      assert (step == ConfirmStep && net.up) || Q.IsSoldWhole(s'.db, k, sc, b);
    }
  }

  /** The refund, one compensation on. */
  lemma {:induction false} RefundStepOn(s: Sys, s': Sys, b: BookingId, step: SagaStep, net: Net, ordered: bool,
      pay: P.Pay)
    requires Compensates(s, s', b, step, net, ordered) && OneRefundAtMost(pay, s.pay, b, s.bookings[b].amount)
    ensures OneRefundAtMost(pay, s'.pay, b, s.bookings[b].amount)
    ensures s.pay != pay ==> s'.pay == s.pay
    ensures step == CreatePayment && net.up && ordered
            && Refundable(pay, b, s.bookings[b].amount, P.Compensation(b), net.answer)
            ==> s'.pay != pay && NoneLeft(s'.bookings[b].log, CreatePayment)
  {
  }

  /** There is one refund of the booking's amount more, or none. */
  ghost predicate OneRefundAtMost(pay: P.Pay, pay': P.Pay, b: BookingId, amount: int) {
    pay' == pay || exists id :: PaidBack(pay, pay', b, amount, P.Compensation(b), id)
  }

  /** One of the first `n` compensations is of this step, and its call gets through. */
  ghost predicate Tried(steps: seq<SagaStep>, net: nat -> Net, step: SagaStep, n: nat) {
    exists i :: 0 <= i < n <= |steps| && steps[i] == step && net(i).up
  }

  /** One of them asks for a refund that the payment service will make. */
  ghost predicate RefundAsked(s: Sys, b: BookingId, steps: seq<SagaStep>, net: nat -> Net, n: nat)
    requires b in s.bookings
  {
    exists i :: 0 <= i < n <= |steps| && steps[i] == CreatePayment && net(i).up
      && Refundable(s.pay, b, s.bookings[b].amount, P.Compensation(b), net(i).answer)
  }

  /** A segment hold: where its release is tried, no LOCKED row of it is left, and none of its steps. */
  predicate HoldGone(s: Sys, s': Sys, b: BookingId, tried: bool)
    requires b in s.bookings && b in s'.bookings
  {
    var bk := s.bookings[b];
    Segmented(bk) && SeatsThere(s.db, bk) ==>
      SeatsThere(s'.db, bk) && (tried ==> NoHold(s'.db, bk) && NoneLeft(s'.bookings[b].log, HoldSeats))
  }

  /** A sale by rows: where its cancellation is tried, no BOOKED row of it is left, and none of its steps. */
  predicate SaleGone(s: Sys, s': Sys, b: BookingId, tried: bool)
    requires b in s.bookings && b in s'.bookings
  {
    var sc := s.bookings[b].sched;
    && (!HasSale(s.db, sc, b) || tried ==> !HasSale(s'.db, sc, b))
    && (HasSale(s.db, sc, b) && tried ==> NoneLeft(s'.bookings[b].log, ConfirmStep))
    && (HasSale(s.db, sc, b) && !tried ==> HasSale(s'.db, sc, b))
  }

  /** A booking for the whole journey: where its release is tried, its seats are free; where its
      cancellation is tried, no seat is sold to it. */
  predicate WholeGone(s: Sys, s': Sys, b: BookingId, released: bool, cancelled: bool)
    requires b in s.bookings && b in s'.bookings
  {
    var bk := s.bookings[b];
    !Segmented(bk) && SeatsThere(s.db, bk) && !HasSale(s.db, bk.sched, b) ==>
      && SeatsThere(s'.db, bk) && !HasSale(s'.db, bk.sched, b)
      && (LockedWhole(s.db, bk) ==>
            if released then FreeWhole(s'.db, bk) && NoneLeft(s'.bookings[b].log, HoldSeats)
            else LockedWhole(s'.db, bk))
      && (cancelled || !HasWholeSale(s.db, bk.sched, b) ==> !HasWholeSale(s'.db, bk.sched, b))
      && (HasWholeSale(s.db, bk.sched, b) ==>
            if cancelled then NoneLeft(s'.bookings[b].log, ConfirmStep) else HasWholeSale(s'.db, bk.sched, b))
  }

  /** The money: there is one refund more where one is asked for, and never two. */
  ghost predicate MoneyBack(s: Sys, s': Sys, b: BookingId, asked: bool)
    requires b in s.bookings && b in s'.bookings
  {
    && OneRefundAtMost(s.pay, s'.pay, b, s.bookings[b].amount)
    && (asked ==> s'.pay != s.pay && NoneLeft(s'.bookings[b].log, CreatePayment))
  }

  /** What `n` compensations come to. */
  ghost predicate RolledBack(s: Sys, s': Sys, b: BookingId, steps: seq<SagaStep>, net: nat -> Net, ordered: bool,
      n: nat) {
    && b in s.bookings && b in s'.bookings && TakesRows(s.db, s'.db)
    && HoldGone(s, s', b, Tried(steps, net, HoldSeats, n))
    && SaleGone(s, s', b, Tried(steps, net, ConfirmStep, n))
    && WholeGone(s, s', b, Tried(steps, net, HoldSeats, n), Tried(steps, net, ConfirmStep, n))
    && MoneyBack(s, s', b, ordered && RefundAsked(s, b, steps, net, n))
  }

  lemma {:induction false} TriedOneMore(steps: seq<SagaStep>, net: nat -> Net, step: SagaStep, n: nat)
    requires n < |steps|
    ensures Tried(steps, net, step, n + 1) <==> Tried(steps, net, step, n) || (steps[n] == step && net(n).up)
  {
    if i :| 0 <= i < n + 1 && steps[i] == step && net(i).up {
      assert i < n || i == n;
    }
  }

  lemma {:induction false} AskedOneMore(s: Sys, b: BookingId, steps: seq<SagaStep>, net: nat -> Net, n: nat)
    requires n < |steps| && b in s.bookings
    ensures RefundAsked(s, b, steps, net, n + 1) <==>
              RefundAsked(s, b, steps, net, n)
              || (steps[n] == CreatePayment && net(n).up
                  && Refundable(s.pay, b, s.bookings[b].amount, P.Compensation(b), net(n).answer))
  {
    if i :| 0 <= i < n + 1 && steps[i] == CreatePayment && net(i).up
            && Refundable(s.pay, b, s.bookings[b].amount, P.Compensation(b), net(i).answer) {
      assert i < n || i == n;
    }
  }

  lemma {:induction false} HoldGoneOneMore(s: Sys, s1: Sys, s2: Sys, b: BookingId, step: SagaStep, net: Net,
      ordered: bool, tried: bool)
    requires b in s.bookings && Compensates(s1, s2, b, step, net, ordered) && HoldGone(s, s1, b, tried)
    requires s1.bookings[b] == s.bookings[b].(log := s1.bookings[b].log)
    ensures b in s2.bookings && HoldGone(s, s2, b, tried || (step == HoldSeats && net.up))
  {
    var bk := s.bookings[b];
    CompensationTakesRows(s1, s2, b, step, net, ordered);
    if Segmented(bk) && SeatsThere(s.db, bk) { HoldStepOn(s1, s2, b, step, net, ordered, bk); }
  }

  lemma {:induction false} SaleGoneOneMore(s: Sys, s1: Sys, s2: Sys, b: BookingId, step: SagaStep, net: Net,
      ordered: bool, tried: bool)
    requires b in s.bookings && Compensates(s1, s2, b, step, net, ordered) && SaleGone(s, s1, b, tried)
    requires s1.bookings[b] == s.bookings[b].(log := s1.bookings[b].log)
    ensures b in s2.bookings && SaleGone(s, s2, b, tried || (step == ConfirmStep && net.up))
  {
    CompensationTakesRows(s1, s2, b, step, net, ordered);
    SaleStepOn(s1, s2, b, step, net, ordered);
  }

  lemma {:induction false} WholeGoneOneMore(s: Sys, s1: Sys, s2: Sys, b: BookingId, step: SagaStep, net: Net,
      ordered: bool, released: bool, cancelled: bool)
    requires b in s.bookings && Compensates(s1, s2, b, step, net, ordered) && WholeGone(s, s1, b, released, cancelled)
    requires s1.bookings[b] == s.bookings[b].(log := s1.bookings[b].log)
    ensures b in s2.bookings
    ensures WholeGone(s, s2, b, released || (step == HoldSeats && net.up), cancelled || (step == ConfirmStep && net.up))
  {
    var bk := s.bookings[b];
    CompensationTakesRows(s1, s2, b, step, net, ordered);
    if !Segmented(bk) && SeatsThere(s.db, bk) && !HasSale(s.db, bk.sched, b) {
      SaleStepOn(s1, s2, b, step, net, ordered);
      WholeHoldOn(s1, s2, b, step, net, ordered, bk);
      WholeSaleOn(s1, s2, b, step, net, ordered, bk);
    }
  }

  lemma {:induction false} MoneyBackOneMore(s: Sys, s1: Sys, s2: Sys, b: BookingId, step: SagaStep, net: Net,
      ordered: bool, asked: bool)
    requires b in s.bookings && Compensates(s1, s2, b, step, net, ordered) && MoneyBack(s, s1, b, asked)
    requires s1.bookings[b] == s.bookings[b].(log := s1.bookings[b].log)
    ensures b in s2.bookings
    ensures MoneyBack(s, s2, b, asked || (step == CreatePayment && net.up && ordered
              && Refundable(s.pay, b, s.bookings[b].amount, P.Compensation(b), net.answer)))
  {
    CompensationTakesRows(s1, s2, b, step, net, ordered);
    RefundStepOn(s1, s2, b, step, net, ordered, s.pay);
  }

  lemma {:induction false} RolledBackOneMore(s: Sys, s1: Sys, s2: Sys, b: BookingId, steps: seq<SagaStep>,
      net: nat -> Net, ordered: bool, n: nat)
    requires n < |steps| && RolledBack(s, s1, b, steps, net, ordered, n)
    requires Compensates(s1, s2, b, steps[n], net(n), ordered) && TakesRows(s.db, s2.db)
    requires s1.bookings[b] == s.bookings[b].(log := s1.bookings[b].log)
    ensures RolledBack(s, s2, b, steps, net, ordered, n + 1)
  {
    TriedOneMore(steps, net, HoldSeats, n);
    TriedOneMore(steps, net, ConfirmStep, n);
    AskedOneMore(s, b, steps, net, n);
    HoldGoneOneMore(s, s1, s2, b, steps[n], net(n), ordered, Tried(steps, net, HoldSeats, n));
    SaleGoneOneMore(s, s1, s2, b, steps[n], net(n), ordered, Tried(steps, net, ConfirmStep, n));
    WholeGoneOneMore(s, s1, s2, b, steps[n], net(n), ordered, Tried(steps, net, HoldSeats, n),
                     Tried(steps, net, ConfirmStep, n));
    MoneyBackOneMore(s, s1, s2, b, steps[n], net(n), ordered, ordered && RefundAsked(s, b, steps, net, n));
  }

  lemma {:induction false} NothingRolledBack(s: Sys, s': Sys, b: BookingId, steps: seq<SagaStep>, net: nat -> Net,
      ordered: bool)
    requires SameTables(s, s') && b in s.bookings
    ensures RolledBack(s, s', b, steps, net, ordered, 0)
  {
  }

  /** The last of `n` compensations, by itself. */
  ghost predicate LastStage(s: Sys, s1: Sys, s2: Sys, b: BookingId, step: SagaStep, net: Net, ordered: bool) {
    && b in s.bookings && Compensates(s1, s2, b, step, net, ordered) && TakesRows(s.db, s2.db)
    && s1.bookings[b] == s.bookings[b].(log := s1.bookings[b].log)
  }

  lemma {:induction false} LastOfStages(s: Sys, p: ProcId, b: BookingId, net: nat -> Net, steps: seq<SagaStep>, n: nat)
    requires ToRollBack(s, p, b, steps) && n < |steps|
    ensures LastStage(s, After(s, p, net, n), After(s, p, net, n + 1), b, steps[n], net(n), s.procs[p].seenOrder)
  {
    Stages(s, p, b, net, steps, n);
    Stages(s, p, b, net, steps, n + 1);
  }

  lemma {:induction false} NextGivesBack(s: Sys, p: ProcId, b: BookingId, net: nat -> Net, steps: seq<SagaStep>, n: nat)
    requires ToRollBack(s, p, b, steps) && n < |steps|
    requires RolledBack(s, After(s, p, net, n), b, steps, net, s.procs[p].seenOrder, n)
    ensures RolledBack(s, After(s, p, net, n + 1), b, steps, net, s.procs[p].seenOrder, n + 1)
  {
    var s1, s2 := After(s, p, net, n), After(s, p, net, n + 1);
    LastOfStages(s, p, b, net, steps, n);
    RolledBackOneMore(s, s1, s2, b, steps, net, s.procs[p].seenOrder, n);
  }

  lemma {:induction false} FirstGivesBack(s: Sys, p: ProcId, b: BookingId, net: nat -> Net, steps: seq<SagaStep>)
    requires ToRollBack(s, p, b, steps)
    ensures RolledBack(s, After(s, p, net, 0), b, steps, net, s.procs[p].seenOrder, 0)
  {
    Stages(s, p, b, net, steps, 0);
    NothingRolledBack(s, After(s, p, net, 0), b, steps, net, s.procs[p].seenOrder);
  }

  /** After `n` compensations: the holds, sales and money that were tried are given back. */
  lemma {:induction false} RollbackGivesBack(s: Sys, p: ProcId, b: BookingId, net: nat -> Net,
      steps: seq<SagaStep>, n: nat)
    requires ToRollBack(s, p, b, steps) && n <= |steps|
    ensures RolledBack(s, After(s, p, net, n), b, steps, net, s.procs[p].seenOrder, n)
    decreases n
  {
    if n == 0 {
      FirstGivesBack(s, p, b, net, steps);
    } else {
      RollbackGivesBack(s, p, b, net, steps, n - 1);
      NextGivesBack(s, p, b, net, steps, n - 1);
    }
  }
}
