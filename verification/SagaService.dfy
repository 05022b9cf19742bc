/** The booking service as it works: handlers that call the inventory and payment services, write
    the saga log and compare-and-swap the booking. Each handler is proved to be a run of the
    machine of Saga.dfy from the moment its copy of the booking was read, so the results about
    that machine are about this code; nothing else may move while one of these methods runs. */
module SagaService {
  import opened Ledger
  import opened LedgerRuns
  import opened Saga
  import opened SagaControl
  import opened SagaEffects
  import opened SagaOutcomes
  import opened Inventory
  import opened PaymentService
  import Requests
  import P = Payments

  /** The steps `es` take the machine from `s` to `s'`. */
  predicate Reaches(s: Sys, es: seq<Step>, s': Sys) {
    Saga.Run(s, es) == s'
  }

  lemma {:induction false} Then(s: Sys, es: seq<Step>, s1: Sys, e: Step)
    requires Reaches(s, es, s1)
    ensures Reaches(s, es + [e], Saga.Next(s1, e))
  {
    RunOneMore(s, es, e);
  }

  lemma {:induction false} Chain(s: Sys, es: seq<Step>, s1: Sys, es': seq<Step>, s2: Sys)
    requires Reaches(s, es, s1) && Reaches(s1, es', s2)
    ensures Reaches(s, es + es', s2)
  {
    RunAppend(s, es, es');
  }

  /** Orders are the bookings' own, and for positive amounts. */
  predicate OrdersFit(bookings: map<BookingId, Booking>, orders: map<P.OrderId, P.Order>) {
    && (forall o | o in orders :: o in bookings && bookings[o].ordered)
    && (forall b | b in bookings && bookings[b].ordered :: bookings[b].amount > 0)
  }

  // ----- the saga log -----

  /** updateMany for one step after the other. */
  function CompensateEach(log: seq<LogEntry>, steps: seq<SagaStep>): seq<LogEntry>
    decreases |steps|
  {
    if steps == [] then log else CompensateEach(Compensate(log, steps[0]), steps[1..])
  }

  lemma {:induction false} CompletedIsListed(log: seq<LogEntry>, i: nat)
    requires i < |log| && log[i].status == Completed
    ensures log[i].step in CompletedSteps(log)
  {
    if i < |log| - 1 { CompletedIsListed(log[..|log| - 1], i); }
  }

  /** The list of COMPLETED steps is what its name says: the steps of exactly the COMPLETED entries
      of the log, from the last entry back to the first. */
  lemma {:induction false} CompletedInReverse(log: seq<LogEntry>) returns (at: seq<nat>)
    ensures |at| == |CompletedSteps(log)|
    ensures forall k | 0 <= k < |at| :: at[k] < |log| && log[at[k]] == LogEntry(CompletedSteps(log)[k], Completed)
    ensures forall k, l | 0 <= k < l < |at| :: at[k] > at[l]
    ensures forall i | 0 <= i < |log| && log[i].status == Completed :: i in at
  {
    if log == [] {
      at := [];
    } else {
      var last := |log| - 1;
      var rest := CompletedInReverse(log[..last]);
      at := (if log[last].status == Completed then [last] else []) + rest;
      forall i | 0 <= i < |log| && log[i].status == Completed ensures i in at {
        if i < last { assert log[..last][i].status == Completed && i in rest; }
      }
    }
  }

  lemma {:induction false} NoneCompleted(log: seq<LogEntry>)
    requires forall i | 0 <= i < |log| :: log[i].status != Completed
    ensures CompletedSteps(log) == []
  {
    if log != [] { NoneCompleted(log[..|log| - 1]); }
  }

  lemma {:induction false} EachIsCleared(log: seq<LogEntry>, steps: seq<SagaStep>)
    ensures var after := CompensateEach(log, steps);
            && |after| == |log|
            && forall i | 0 <= i < |log| && after[i].status == Completed :: after[i] == log[i] && log[i].step !in steps
    decreases |steps|
  {
    if steps != [] { EachIsCleared(Compensate(log, steps[0]), steps[1..]); }
  }

  lemma {:induction false} EachAppend(log: seq<LogEntry>, steps: seq<SagaStep>, step: SagaStep)
    ensures CompensateEach(log, steps + [step]) == Compensate(CompensateEach(log, steps), step)
    decreases |steps|
  {
    if steps == [] {
      assert [] + [step] == [step] && [step][1..] == [];
    } else {
      assert (steps + [step])[1..] == steps[1..] + [step];
      EachAppend(Compensate(log, steps[0]), steps[1..], step);
    }
  }

  /** Compensating every COMPLETED step leaves none. */
  lemma {:induction false} AllCleared(log: seq<LogEntry>)
    ensures CompletedSteps(CompensateEach(log, CompletedSteps(log))) == []
  {
    var after := CompensateEach(log, CompletedSteps(log));
    EachIsCleared(log, CompletedSteps(log));
    forall i | 0 <= i < |after| ensures after[i].status != Completed {
      if after[i].status == Completed { CompletedIsListed(log, i); }
    }
    NoneCompleted(after);
  }

  class BookingService {
    const inventory: SeatInventory
    const payments: PaymentOrders
    var bookings: map<BookingId, Booking>

    ghost predicate Valid()
      reads this, inventory, payments
    {
      inventory.Valid() && payments.Valid() && OrdersFit(bookings, payments.orders)
    }

    /** The machine's tables are these. */
    ghost predicate Mirrors(s: Sys)
      reads this, inventory, payments
    {
      s.db == inventory.State() && s.pay == payments.State() && s.bookings == bookings
    }

    constructor ()
      ensures Valid() && fresh(inventory) && fresh(payments) && Mirrors(Saga.START)
    {
      inventory := new SeatInventory();
      payments := new PaymentOrders();
      bookings := map[];
    }

    /** Compare-and-swap on the version: writes everything or nothing. */
    method CasUpdateBooking(b: BookingId, expectedVersion: nat, status: BookingStatus) returns (ok: bool)
      requires Valid()
      modifies this`bookings
      ensures Valid()
      ensures ok <==> b in old(bookings) && old(bookings)[b].version == expectedVersion
      ensures bookings == if ok
        then old(bookings)[b := old(bookings)[b].(status := status, version := expectedVersion + 1)]
        else old(bookings)
    {
      ok := b in bookings && bookings[b].version == expectedVersion;
      if ok { WriteStatus(b, status); }
    }

    /** The write of a status, with a new version. */
    method WriteStatus(b: BookingId, status: BookingStatus)
      requires Valid() && b in bookings
      modifies this`bookings
      ensures Valid()
      ensures var bk := old(bookings)[b];
              bookings == old(bookings)[b := bk.(status := status, version := bk.version + 1)]
    {
      bookings := bookings[b := bookings[b].(status := status, version := bookings[b].version + 1)];
    }

    // ----- calls of the inventory client -----

    method CallHold(bk: Booking, net: Net, now: int, ttlSeconds: int) returns (reply: Reply)
      requires inventory.Valid()
      modifies inventory
      ensures inventory.Valid()
      ensures (inventory.State(), reply) == Unless(net.up, old(inventory.State()),
        Ledger.LockSeats(old(inventory.State()), bk.sched, bk.seats, bk.user,
          Deadline(now, Ttl(ttlSeconds)), bk.from, bk.to))
    {
      if !net.up { return Refused(Internal); }
      reply := inventory.LockSeats(bk.sched, bk.seats, bk.user, now, ttlSeconds, bk.from, bk.to);
    }

    method CallRelease(bk: Booking, net: Net) returns (reply: Reply)
      requires inventory.Valid()
      modifies inventory
      ensures inventory.Valid()
      ensures (inventory.State(), reply) == Unless(net.up, old(inventory.State()),
        Ledger.UnlockSeats(old(inventory.State()), bk.sched, bk.seats, bk.user, bk.from, bk.to))
    {
      if !net.up { return Refused(Internal); }
      reply := inventory.UnlockSeats(bk.sched, bk.seats, bk.user, bk.from, bk.to);
    }

    // ----- forward steps -----

    method ExecuteHoldSeats(b: BookingId, p: ProcId, net: Net, now: int, ttlSeconds: int, ghost s: Sys)
      returns (ok: bool, ghost s': Sys)
      requires Valid() && Mirrors(s) && At(s, p, Creation, Holding) && s.procs[p].booking == b
      modifies this, inventory
      ensures Valid() && Mirrors(s') && s' == HoldStep(s, p, net.up, Deadline(now, Ttl(ttlSeconds)))
      ensures s'.procs[p] == s.procs[p].(pc := if ok then Paying else Loading)
    {
      var bk := bookings[b];
      var number := inventory.nextHold;
      var reply := CallHold(bk, net, now, ttlSeconds);
      ok := reply.Done?;
      s' := HoldStep(s, p, net.up, Deadline(now, Ttl(ttlSeconds)));
      HoldShape(s, p, net.up, Deadline(now, Ttl(ttlSeconds)), inventory.State(), reply);
      bookings := bookings[b := HeldOr(bk, number, Deadline(now, Ttl(ttlSeconds)), ok)];
    }

    method ExecuteCreatePayment(b: BookingId, p: ProcId, net: Net, ghost s: Sys) returns (ok: bool, ghost s': Sys)
      requires Valid() && Mirrors(s) && At(s, p, Creation, Paying) && s.procs[p].booking == b && !bookings[b].ordered
      modifies this, payments
      ensures Valid() && Mirrors(s') && s' == Saga.PayStep(s, p, net.up)
      ensures s'.procs[p] == s.procs[p].(pc := if ok then Stopped else Loading)
    {
      var bk := bookings[b];
      s' := Saga.PayStep(s, p, net.up);
      ok := false;
      if net.up { ok := payments.CreatePaymentOrder(b, bk.amount); }
      if ok {
        bk := Logged(bk, CreatePayment, true);
        bookings := bookings[b := bk.(status := PaymentPending, ordered := true, creating := false)];
      } else {
        bookings := bookings[b := Logged(bk, CreatePayment, false)];
      }
    }

    method ExecuteConfirmSeats(b: BookingId, p: ProcId, net: Net, ghost s: Sys) returns (ok: bool, ghost s': Sys)
      requires Valid() && Mirrors(s) && At(s, p, Success, Calling) && s.procs[p].booking == b
      modifies this, inventory
      ensures Valid() && Mirrors(s') && s' == CallStep(s, p, net.up)
      ensures s'.procs[p] == s.procs[p].(pc := if ok then Finishing else Loading)
    {
      var bk := bookings[b];
      s' := CallStep(s, p, net.up);
      var reply := Refused(Internal);
      if net.up { reply := inventory.ConfirmSeats(bk.sched, bk.seats, bk.user, b, bk.from, bk.to); }
      ok := reply.Done?;
      bookings := bookings[b := Logged(bk, ConfirmStep, ok)];
    }

    // ----- compensation steps -----

    /** The next compensation of process `p` is this one. */
    ghost predicate Next(s: Sys, p: ProcId, b: BookingId, step: SagaStep, rest: seq<SagaStep>)
      reads this, inventory, payments
    {
      && Valid() && Mirrors(s) && p in s.procs && s.procs[p].booking == b && b in bookings
      && s.procs[p].pc == Undoing([step] + rest)
    }

    /** It has been made: the step is marked in the log exactly when its call went through. */
    twostate predicate Undone(s: Sys, s': Sys, p: ProcId, b: BookingId, net: Net, step: SagaStep, rest: seq<SagaStep>,
        done: bool)
      reads this, inventory, payments
    {
      && Valid() && Mirrors(s') && s' == UndoStep(s, p, net.up, net.answer) && b in old(bookings) && p in s.procs
      && s'.procs == s.procs[p := s.procs[p].(pc := Undoing(rest))]
      && bookings == (if done then old(bookings)[b := old(bookings)[b].(log := Compensate(old(bookings)[b].log, step))]
                      else old(bookings))
    }

    method MarkCompensated(b: BookingId, step: SagaStep)
      requires b in bookings
      modifies this`bookings
      ensures bookings == old(bookings)[b := old(bookings)[b].(log := Compensate(old(bookings)[b].log, step))]
    {
      var i := 0;
      var log := bookings[b].log;
      ghost var before := log;
      while i < |log|
        invariant i <= |log| == |before|
        invariant forall j | 0 <= j < i :: log[j] == Compensate(before, step)[j]
        invariant forall j | i <= j < |log| :: log[j] == before[j]
      {
        if log[i].step == step && log[i].status == Completed { log := log[i := LogEntry(step, Compensated)]; }
        i := i + 1;
      }
      assert log == Compensate(before, step);
      bookings := bookings[b := bookings[b].(log := log)];
    }

    method CompensateHoldSeats(b: BookingId, p: ProcId, net: Net, ghost s: Sys, ghost rest: seq<SagaStep>)
      returns (done: bool, ghost s': Sys)
      requires Next(s, p, b, HoldSeats, rest)
      modifies this, inventory
      ensures Undone(s, s', p, b, net, HoldSeats, rest, done)
    {
      var bk := bookings[b];
      s' := UndoStep(s, p, net.up, net.answer);
      var reply := CallRelease(bk, net);
      done := reply.Done?;
      ReleaseShape(s, p, net.up, net.answer, inventory.State(), reply, rest);
      if !done && net.up { AnswersFit(s.db, Unlock(bk.sched, bk.seats, bk.user, bk.from, bk.to), 0); }
      if done { MarkCompensated(b, HoldSeats); }
    }

    method CompensateCreatePayment(b: BookingId, p: ProcId, ordered: bool, net: Net, ghost s: Sys,
        ghost rest: seq<SagaStep>)
      returns (done: bool, ghost s': Sys)
      requires Next(s, p, b, CreatePayment, rest) && s.procs[p].seenOrder == ordered
      requires (ordered ==> bookings[b].ordered)
      modifies this, payments
      ensures Undone(s, s', p, b, net, CreatePayment, rest, done)
      ensures !ordered ==> !done
    {
      var bk := bookings[b];
      s' := UndoStep(s, p, net.up, net.answer);
      done := false;
      if !ordered { return; }
      if net.up {
        var reply := payments.InitiateRefund(b, bk.amount, P.Compensation(b), net.answer);
        done := reply.Accepted?;
        if done { MarkCompensated(b, CreatePayment); }
      }
    }

    method CompensateConfirmSeats(b: BookingId, p: ProcId, net: Net, ghost s: Sys, ghost rest: seq<SagaStep>)
      returns (done: bool, ghost s': Sys)
      requires Next(s, p, b, ConfirmStep, rest)
      modifies this, inventory
      ensures Undone(s, s', p, b, net, ConfirmStep, rest, done)
    {
      var bk := bookings[b];
      s' := UndoStep(s, p, net.up, net.answer);
      var reply := Refused(Internal);
      if net.up { reply := inventory.CancelBooking(bk.sched, b); }
      done := reply.Done?;
      if done { MarkCompensated(b, ConfirmStep); }
    }

    method CompensateStep(b: BookingId, p: ProcId, ordered: bool, step: SagaStep, net: Net, ghost s: Sys,
        ghost rest: seq<SagaStep>)
      returns (done: bool, ghost s': Sys)
      requires Next(s, p, b, step, rest) && s.procs[p].seenOrder == ordered && (ordered ==> bookings[b].ordered)
      modifies this, inventory, payments
      ensures Undone(s, s', p, b, net, step, rest, done)
    {
      match step
      case ConfirmStep => done, s' := CompensateConfirmSeats(b, p, net, s, rest);
      case CreatePayment => done, s' := CompensateCreatePayment(b, p, ordered, net, s, rest);
      case HoldSeats => done, s' := CompensateHoldSeats(b, p, net, s, rest);
    }

    method CompensateNext(b: BookingId, p: ProcId, ordered: bool, step: SagaStep, net: Net, ghost s: Sys,
        ghost es: seq<Step>, ghost s1: Sys, ghost visited: seq<SagaStep>, ghost rest: seq<SagaStep>, allDone: bool)
      returns (allDone': bool, ghost s': Sys)
      requires Valid() && Mirrors(s1) && Progress(s, es, s1, p, b, visited, [step] + rest, allDone)
      requires s.procs[p].booking == b
      requires s.procs[p].seenOrder == ordered && (ordered ==> s.bookings[b].ordered)
      modifies this, inventory, payments
      ensures Valid() && Mirrors(s')
      ensures Progress(s, es + [Undo(p, net.up, net.answer)], s', p, b, visited + [step], rest, allDone')
    {
      var done;
      done, s' := CompensateStep(b, p, ordered, step, net, s1, rest);
      OneUndone(s, es, s1, p, b, visited, step, rest, allDone, net, done);
      allDone' := allDone && done;
    }

    /** compensateAll: undoes the COMPLETED steps, the latest first, each once; a call that fails
        does not stop it. `ordered` says whether the copy it was given has its payment order, `net` what
        becomes of each call. */
    method CompensateAll(b: BookingId, p: ProcId, ordered: bool, net: nat -> Net, ghost s: Sys)
      returns (visited: seq<SagaStep>, allDone: bool, ghost s': Sys, ghost es: seq<Step>)
      requires Valid() && Mirrors(s) && p in s.procs && s.procs[p].booking == b
      requires b in bookings && s.procs[p].pc == Loading
      requires s.procs[p].seenOrder == ordered && (ordered ==> bookings[b].ordered)
      modifies this, inventory, payments
      ensures Valid() && Mirrors(s') && Progress(s, es, s', p, b, visited, [], allDone)
      ensures visited == CompletedSteps(old(bookings[b].log)) && es == Rollback(p, net, |visited|)
      ensures RolledBack(s, s', b, visited, net, ordered, |visited|)
    {
      var steps := CompletedSteps(bookings[b].log);
      ghost var s1 := LoadStep(s, p);
      Loaded(s, p, b);
      assert ToRollBack(s, p, b, steps);
      visited, allDone, s', es := CompensateEachOf(b, p, ordered, steps, net, s, [] + [Load(p)], s1);
      assert [] + [Load(p)] == [Load(p)];
      RollbackGivesBack(s, p, b, net, steps, |steps|);
    }

    /** The loop of compensateAll. */
    method CompensateEachOf(b: BookingId, p: ProcId, ordered: bool, steps: seq<SagaStep>, net: nat -> Net,
        ghost s: Sys, ghost es0: seq<Step>, ghost s1: Sys)
      returns (visited: seq<SagaStep>, allDone: bool, ghost s': Sys, ghost es: seq<Step>)
      requires Valid() && Mirrors(s1) && Progress(s, es0, s1, p, b, [], steps, true) && s.procs[p].booking == b
      requires s.procs[p].seenOrder == ordered && (ordered ==> s.bookings[b].ordered)
      modifies this, inventory, payments
      ensures Valid() && Mirrors(s') && Progress(s, es, s', p, b, visited, [], allDone) && visited == steps
      ensures es == es0 + Undos(p, net, |steps|)
    {
      visited, allDone, s', es := [], true, s1, es0;
      var i := 0;
      UndosOneMore(es0, p, net, 0);
      while i < |steps|
        invariant 0 <= i <= |steps| && visited == steps[..i] && es == es0 + Undos(p, net, i)
        invariant Valid() && Mirrors(s') && Progress(s, es, s', p, b, visited, steps[i..], allDone)
      {
        assert steps[i..] == [steps[i]] + steps[i + 1..];
        allDone, s' := CompensateNext(b, p, ordered, steps[i], net(i), s, es, s', visited, steps[i + 1..], allDone);
        es := es + [Undo(p, net(i).up, net(i).answer)];
        UndosOneMore(es0, p, net, i);
        visited, i := visited + [steps[i]], i + 1;
      }
      assert steps[i..] == [] && visited == steps;
    }

    // ----- handlers, from their read on -----

    /** The claim of the payment consumers: compare-and-swap on the version alone. */
    method ClaimByVersion(c: Copy, kind: Kind, status: BookingStatus, ghost s: Sys)
      returns (claimed: bool, ghost s': Sys, ghost es: seq<Step>)
      requires Valid() && Mirrors(s) && Holds(s, c, kind) && KnowsOrder(s, c)
      requires (kind == Success && status == Confirming) || (kind == Failure && status == FailedBooking)
      modifies this`bookings
      ensures Valid() && Mirrors(s') && Along(s, es, s', c) && ClaimEnds(s, s', c, claimed)
      ensures claimed <==> s.bookings[c.b].version == c.version
      ensures s' == ClaimStep(s, c.p) && es == [Claim(c.p)]
    {
      s', es := ClaimStep(s, c.p), [] + [Claim(c.p)];
      ClaimShape(s, c, kind);
      claimed := CasAndRemember(c, kind, status);
    }

    method CasAndRemember(c: Copy, kind: Kind, status: BookingStatus) returns (claimed: bool)
      requires Valid() && c.b in bookings
      requires (kind == Success && status == Confirming) || (kind == Failure && status == FailedBooking)
      modifies this`bookings
      ensures Valid() && (claimed <==> old(bookings)[c.b].version == c.version)
      ensures bookings ==
        if claimed then old(bookings)[c.b := Claimed(kind, old(bookings)[c.b], c.p)] else old(bookings)
    {
      claimed := CasUpdateBooking(c.b, c.version, status);
      if claimed && kind == Success { RememberClaimer(c.b, c.p); }
    }

    /** No column of the source: names the claimer for the proofs. */
    method RememberClaimer(b: BookingId, p: ProcId)
      requires Valid() && b in bookings
      modifies this`bookings
      ensures Valid() && bookings == old(bookings)[b := old(bookings)[b].(claimer := p)]
    {
      bookings := bookings[b := bookings[b].(claimer := p)];
    }

    /** The claim of the two jobs: updateMany on id, version and status. */
    method ClaimByStatus(c: Copy, kind: Kind, status: BookingStatus, ghost s: Sys)
      returns (claimed: bool, ghost s': Sys, ghost es: seq<Step>)
      requires Valid() && Mirrors(s) && Holds(s, c, kind) && KnowsOrder(s, c)
      requires (kind == Expiry && status == Expired) || (kind == ScheduleClose && status == CancelledBooking)
      modifies this`bookings
      ensures Valid() && Mirrors(s') && Along(s, es, s', c) && ClaimEnds(s, s', c, claimed)
      ensures claimed <==> Current(s, c, kind)
      ensures s' == ClaimStep(s, c.p) && es == [Claim(c.p)]
    {
      s', es := ClaimStep(s, c.p), [] + [Claim(c.p)];
      ClaimShape(s, c, kind);
      claimed := c.b in bookings && bookings[c.b].version == c.version && Claimable(kind, bookings[c.b].status);
      if claimed { WriteStatus(c.b, status); }
    }

    /** handlePaymentSuccess after its read: claim, confirm the seats, write CONFIRMED; or
        compensate and write FAILED. `mid` is what the call of the inventory leaves. */
    method HandlePaymentSuccess(c: Copy, confirm: Net, finishUp: bool, net: nat -> Net, ghost s: Sys)
      returns (ghost s': Sys, ghost es: seq<Step>, ghost mid: Sys)
      requires Valid() && Mirrors(s) && Holds(s, c, Success) && KnowsOrder(s, c)
      modifies this, inventory, payments
      ensures Valid() && Mirrors(s') && Handled(s, es, s', c) && es == SuccessSteps(s, c, confirm, finishUp, net)
      ensures if c.version == s.bookings[c.b].version
        then SuccessDid(s, mid, s', c, confirm, finishUp, net) else SameTables(s, s')
      ensures c.version == s.bookings[c.b].version ==>
        s'.bookings[c.b].status
          == if confirm.up && Confirmable(s.db, s.bookings[c.b]) && finishUp then Confirmed else FailedBooking
    {
      var claimed;
      claimed, s', es := ClaimByVersion(c, Success, Confirming, s);
      mid := s';
      if claimed {
        s', es := ConfirmClaimed(c, confirm, finishUp, net, s, s');
        mid := SuccessOutcome(s, c, confirm, finishUp, net);
      }
    }

    method ConfirmClaimed(c: Copy, confirm: Net, finishUp: bool, net: nat -> Net, ghost s: Sys, ghost s1: Sys)
      returns (ghost s': Sys, ghost es: seq<Step>)
      requires Valid() && Mirrors(s1) && Along(s, [Claim(c.p)], s1, c) && Owner(s1, c, Calling)
      requires Owned(s) && Holds(s, c, Success) && s.bookings[c.b].version == c.version && s1 == ClaimStep(s, c.p)
      modifies this, inventory, payments
      ensures Valid() && Mirrors(s') && Handled(s, es, s', c) && es == SuccessSteps(s, c, confirm, finishUp, net)
    {
      var confirmed;
      confirmed, s' := ExecuteConfirmSeats(c.b, c.p, confirm, s1);
      CallGoesAlong(s, [Claim(c.p)], s1, c, confirm.up);
      ClaimAndCall(s, c, confirm);
      es := [Claim(c.p)] + [Call(c.p, confirm.up)];
      s', es := FinishOrFail(c, confirmed, finishUp, net, s, es, s');
      SuccessStepsShape(s, c, confirm, finishUp, net);
    }

    method FinishOrFail(c: Copy, confirmed: bool, finishUp: bool, net: nat -> Net, ghost s: Sys, ghost es0: seq<Step>,
        ghost s1: Sys)
      returns (ghost s': Sys, ghost es: seq<Step>)
      requires Valid() && Mirrors(s1) && Along(s, es0, s1, c) && Owner(s1, c, if confirmed then Finishing else Loading)
      modifies this, inventory, payments
      ensures Valid() && Mirrors(s') && Handled(s, es, s', c)
      ensures es == es0 + SuccessRest(c, confirmed, finishUp, s1.bookings[c.b].log, net)
    {
      SuccessRestShape(es0, c, finishUp, s1.bookings[c.b].log, net);
      s', es := s1, es0;
      if confirmed {
        var finished;
        finished, s', es := FinishBooking(c, finishUp, s, es, s');
        if finished { return; }
      }
      s', es := CompensateAndFail(c, net, s, es, s');
    }

    /** The last write of a confirmation. */
    method FinishBooking(c: Copy, up: bool, ghost s: Sys, ghost es0: seq<Step>, ghost s1: Sys)
      returns (finished: bool, ghost s': Sys, ghost es: seq<Step>)
      requires Valid() && Mirrors(s1) && Along(s, es0, s1, c) && Owner(s1, c, Finishing)
      modifies this`bookings
      ensures Valid() && Mirrors(s') && Along(s, es, s', c) && finished == up && es == es0 + [Saga.Finish(c.p, up)]
      ensures if finished then s'.procs[c.p].pc == Stopped && s'.bookings[c.b].status == Confirmed
              else Owner(s', c, Loading) && s'.bookings == s1.bookings
    {
      s', es := FinishStep(s1, c.p, up), es0 + [Saga.Finish(c.p, up)];
      FinishGoesAlong(s, es0, s1, c, up);
      finished := up;
      if up { WriteStatus(c.b, Confirmed); }
    }

    method RollBack(c: Copy, net: nat -> Net, ghost s: Sys, ghost es0: seq<Step>, ghost s1: Sys)
      returns (ghost s': Sys, ghost es: seq<Step>)
      requires Valid() && Mirrors(s1) && Along(s, es0, s1, c) && KnowsOrder(s1, c)
      requires s1.procs[c.p].pc == Loading && s1.procs[c.p].seenOrder == c.ordered
      modifies this, inventory, payments
      ensures Valid() && Mirrors(s') && Along(s, es, s', c) && KnowsOrder(s', c)
      ensures s'.procs[c.p] == s1.procs[c.p].(pc := Undoing([]))
      ensures s'.bookings[c.b] == s1.bookings[c.b].(log := s'.bookings[c.b].log)
      ensures es == es0 + Rollback(c.p, net, |CompletedSteps(s1.bookings[c.b].log)|)
    {
      var visited, allDone;
      visited, allDone, s', es := CompensateAll(c.b, c.p, c.ordered, net, s1);
      RollbackGoesAlong(s, es0, s1, es, s', c, visited, allDone);
      es := es0 + es;
    }

    /** The catch block of handlePaymentSuccess. */
    method CompensateAndFail(c: Copy, net: nat -> Net, ghost s: Sys, ghost es0: seq<Step>, ghost s1: Sys)
      returns (ghost s': Sys, ghost es: seq<Step>)
      requires Valid() && Mirrors(s1) && Along(s, es0, s1, c) && Owner(s1, c, Loading)
      modifies this, inventory, payments
      ensures Valid() && Mirrors(s') && Handled(s, es, s', c) && s'.bookings[c.b].status == FailedBooking
      ensures es == es0 + GiveUpSteps(c, CompletedSteps(s1.bookings[c.b].log), net)
    {
      GiveUpShape(es0, c, CompletedSteps(s1.bookings[c.b].log), net);
      ghost var s2, es2 := RollBack(c, net, s, es0, s1);
      s', es := FailBooking(c, s, es2, s2);
    }

    /** The last write of a confirmation that failed. */
    method FailBooking(c: Copy, ghost s: Sys, ghost es0: seq<Step>, ghost s1: Sys)
      returns (ghost s': Sys, ghost es: seq<Step>)
      requires Valid() && Mirrors(s1) && Along(s, es0, s1, c) && Owner(s1, c, Undoing([]))
      modifies this`bookings
      ensures Valid() && Mirrors(s') && Handled(s, es, s', c) && s'.bookings[c.b].status == FailedBooking
      ensures es == es0 + [Saga.Fail(c.p)]
    {
      s', es := FailStep(s1, c.p), es0 + [Saga.Fail(c.p)];
      OwnerFails(s, es0, s1, c);
      WriteStatus(c.b, FailedBooking);
    }

    /** handlePaymentFailure after its read: claim, then release the seats. */
    method HandlePaymentFailure(c: Copy, net: Net, ghost s: Sys) returns (ghost s': Sys, ghost es: seq<Step>)
      requires Valid() && Mirrors(s) && Holds(s, c, Failure) && KnowsOrder(s, c)
      modifies this, inventory, payments
      ensures Valid() && Mirrors(s') && Handled(s, es, s', c) && es == FailureSteps(s, c, net)
      ensures if c.version == s.bookings[c.b].version then FailureDid(s, s', c, net) else SameTables(s, s')
    {
      var claimed;
      claimed, s', es := ClaimByVersion(c, Failure, FailedBooking, s);
      if claimed {
        s', es := ReleaseClaimed(c, net, s, es, s');
        FailureOutcome(s, c, net);
      }
    }

    method ReleaseClaimed(c: Copy, net: Net, ghost s: Sys, ghost es0: seq<Step>, ghost s1: Sys)
      returns (ghost s': Sys, ghost es: seq<Step>)
      requires Valid() && Mirrors(s1) && Along(s, es0, s1, c) && s1.procs[c.p].kind == Failure
      requires s1.procs[c.p].pc == Undoing([HoldSeats] + []) && s1.bookings[c.b].status == FailedBooking
      modifies this, inventory
      ensures Valid() && Mirrors(s') && Handled(s, es, s', c) && s'.bookings[c.b].status == FailedBooking
      ensures es == es0 + [Undo(c.p, net.up, net.answer), Saga.Fail(c.p)]
    {
      var released;
      released, s' := CompensateHoldSeats(c.b, c.p, net, s1, []);
      ReleaseThenStops(s, es0, s1, c, net);
      es, s' := es0 + [Undo(c.p, net.up, net.answer), Saga.Fail(c.p)], FailStep(s', c.p);
    }

    /** One round of the booking-expiry job. */
    method ExpireOne(c: Copy, net: nat -> Net, ghost s: Sys) returns (ghost s': Sys, ghost es: seq<Step>)
      requires Valid() && Mirrors(s) && Holds(s, c, Expiry) && KnowsOrder(s, c)
      modifies this, inventory, payments
      ensures Valid() && Mirrors(s') && Handled(s, es, s', c) && es == ExpirySteps(s, c, net)
      ensures ExpiryEnds(s, s', c, net)
    {
      var claimed;
      claimed, s', es := ClaimByStatus(c, Expiry, Expired, s);
      if claimed {
        s', es := RollBackClaimed(c, net, s, es, s');
        ExpiryOutcome(s, c, net);
      }
    }

    method RollBackClaimed(c: Copy, net: nat -> Net, ghost s: Sys, ghost es0: seq<Step>, ghost s1: Sys)
      returns (ghost s': Sys, ghost es: seq<Step>)
      requires Valid() && Mirrors(s1) && Along(s, es0, s1, c) && KnowsOrder(s1, c)
      requires s1.procs[c.p] == Proc(Expiry, c.b, Loading, c.status, c.version, c.ordered)
      requires s1.bookings[c.b].status == Expired
      modifies this, inventory, payments
      ensures Valid() && Mirrors(s') && Handled(s, es, s', c) && s'.bookings[c.b].status == Expired
      ensures es == es0 + GiveUpSteps(c, CompletedSteps(s1.bookings[c.b].log), net)
    {
      GiveUpShape(es0, c, CompletedSteps(s1.bookings[c.b].log), net);
      s', es := RollBack(c, net, s, es0, s1);
      FailGoesAlong(s, es, s', c);
      es, s' := es + [Saga.Fail(c.p)], FailStep(s', c.p);
    }

    /** One round of handleScheduleCancelled: only a booking that its copy shows CONFIRMED is refunded. */
    method CloseOne(c: Copy, net: Net, ghost s: Sys) returns (ghost s': Sys, ghost es: seq<Step>)
      requires Valid() && Mirrors(s) && Holds(s, c, ScheduleClose) && KnowsOrder(s, c)
      modifies this, inventory, payments
      ensures Valid() && Mirrors(s') && Handled(s, es, s', c) && es == CloseSteps(s, c, net)
      ensures CloseEnds(s, s', c, net)
    {
      var claimed;
      claimed, s', es := ClaimByStatus(c, ScheduleClose, CancelledBooking, s);
      if claimed {
        if c.status == Confirmed && c.ordered { s', es := RefundClaimed(c, net, s, es, s'); }
        CloseOutcome(s, c, net);
      }
    }

    method RefundClaimed(c: Copy, net: Net, ghost s: Sys, ghost es0: seq<Step>, ghost s1: Sys)
      returns (ghost s': Sys, ghost es: seq<Step>)
      requires Valid() && Mirrors(s1) && Along(s, es0, s1, c) && KnowsOrder(s1, c) && c.ordered
      requires At(s1, c.p, ScheduleClose, Refunding) && s1.bookings[c.b].status == CancelledBooking
      modifies this, payments
      ensures Valid() && Mirrors(s') && Handled(s, es, s', c) && s'.bookings[c.b].status == CancelledBooking
      ensures es == es0 + [Saga.Refund(c.p, net.up, net.answer)]
    {
      s', es := RefundStep(s1, c.p, net.up, net.answer), es0 + [Saga.Refund(c.p, net.up, net.answer)];
      RefundGoesAlong(s, es0, s1, c, net);
      if net.up {
        var _ := payments.InitiateRefund(c.b, bookings[c.b].amount, P.ScheduleCancel(c.b), net.answer);
      }
    }

    // ----- createBooking -----

    /** createBooking once its seats are priced and its Redis locks taken: the record, the hold, the
        payment order; or everything compensated and FAILED. */
    method CreateBooking(c: Copy, req: Request, amount: int, hold: Net, now: int, ttlSeconds: int, pay: Net,
        net: nat -> Net, ghost s: Sys)
      returns (created: bool, ghost s': Sys, ghost es: seq<Step>, ghost s1: Sys, ghost mid: Sys)
      requires Valid() && Mirrors(s) && now == s.clock && c.p !in s.procs && c.b !in bookings && Validated(req)
      requires !c.ordered && c.status == Pending && c.version == 0
      modifies this, inventory, payments
      ensures Valid() && Mirrors(s') && Reaches(s, es, s') && c.b in s'.bookings
      ensures s1.db == s.db && s1.pay == s.pay && s1.bookings == s.bookings[c.b := NewBooking(c, req, amount)]
      ensures CreationDid(s1, mid, s', c, hold, Deadline(now, Ttl(ttlSeconds)), pay, net)
      ensures Requests.ProperRows(s.db) ==>
        (created <==> hold.up && Lockable(s.db, NewBooking(c, req, amount)) && pay.up && amount > 0)
      ensures s'.bookings[c.b].status == if created then PaymentPending else FailedBooking
      ensures s'.bookings[c.b].amount == amount && (created ==> amount > 0)
    {
      bookings := bookings[c.b := NewBooking(c, req, amount)];
      s1 := BookStep(s, BookOf(c, req, amount));
      Then(s, [], s, BookOf(c, req, amount));
      created, s', es, mid := HoldAndPay(c, hold, now, ttlSeconds, pay, net, s1);
      Chain(s, [] + [BookOf(c, req, amount)], s1, es, s');
      es := [] + [BookOf(c, req, amount)] + es;
    }

    method HoldAndPay(c: Copy, hold: Net, now: int, ttlSeconds: int, pay: Net, net: nat -> Net, ghost s: Sys)
      returns (created: bool, ghost s': Sys, ghost es: seq<Step>, ghost mid: Sys)
      requires Valid() && Mirrors(s) && now == s.clock && Creates(s, c, Holding) && !s.bookings[c.b].ordered
      modifies this, inventory, payments
      ensures Valid() && Mirrors(s') && Reaches(s, es, s') && c.b in s'.bookings
      ensures es == CreationSteps(s, c, hold, Ttl(ttlSeconds), pay, net)
      ensures CreationDid(s, mid, s', c, hold, Deadline(now, Ttl(ttlSeconds)), pay, net)
      ensures created == Made(s, c, hold, Deadline(now, Ttl(ttlSeconds)), pay)
      ensures s'.bookings[c.b].status == if created then PaymentPending else FailedBooking
      ensures s'.bookings[c.b].amount == s.bookings[c.b].amount && (created ==> s.bookings[c.b].amount > 0)
    {
      var held;
      held, s' := ExecuteHoldSeats(c.b, c.p, hold, now, ttlSeconds, s);
      HoldGoesAlong(s, c, hold.up, Ttl(ttlSeconds));
      HoldIs(s, c, hold, Deadline(now, Ttl(ttlSeconds)));
      es := [] + [Saga.Hold(c.p, hold.up, Ttl(ttlSeconds))];
      assert es == [Saga.Hold(c.p, hold.up, Ttl(ttlSeconds))];
      created, s', es := PayOrFail(c, held, pay, net, s, es, s');
      mid := CreationOutcome(s, c, hold, Ttl(ttlSeconds), pay, net);
    }

    method PayOrFail(c: Copy, held: bool, pay: Net, net: nat -> Net, ghost s: Sys, ghost es0: seq<Step>, ghost s1: Sys)
      returns (created: bool, ghost s': Sys, ghost es: seq<Step>)
      requires Valid() && Mirrors(s1) && Along(s, es0, s1, c) && Creates(s1, c, if held then Paying else Loading)
      requires !s1.bookings[c.b].ordered
      modifies this, inventory, payments
      ensures Valid() && Mirrors(s') && Reaches(s, es, s') && c.b in s'.bookings
      ensures created == (held && pay.up && s1.bookings[c.b].amount > 0)
      ensures es == es0 + CreationRest(c, held, created, pay,
        if held then AfterPay(s1.bookings[c.b], created).log else s1.bookings[c.b].log, net)
      ensures s'.bookings[c.b].status == if created then PaymentPending else FailedBooking
      ensures s'.bookings[c.b].amount == s1.bookings[c.b].amount
    {
      s', es, created := s1, es0, false;
      if held {
        created, s', es := PayInRun(c, pay, s, es0, s1);
        CreationRestShape(es0, c, created, pay, s'.bookings[c.b].log, net);
        if created { return; }
      }
      CreationRestShape(es0, c, false, pay, s'.bookings[c.b].log, net);
      s', es := AbandonCreation(c, net, s, es, s');
    }

    method PayInRun(c: Copy, pay: Net, ghost s: Sys, ghost es0: seq<Step>, ghost s1: Sys)
      returns (created: bool, ghost s': Sys, ghost es: seq<Step>)
      requires Valid() && Mirrors(s1) && Along(s, es0, s1, c) && Creates(s1, c, Paying) && !s1.bookings[c.b].ordered
      modifies this, payments
      ensures Valid() && Mirrors(s') && Reaches(s, es, s') && c.b in s'.bookings && es == es0 + [Saga.Pay(c.p, pay.up)]
      ensures created == (pay.up && s1.bookings[c.b].amount > 0)
      ensures s'.bookings[c.b] == AfterPay(s1.bookings[c.b], created)
      ensures !created ==> Creates(s', c, Loading) && Along(s, es, s', c)
    {
      created, s' := ExecuteCreatePayment(c.b, c.p, pay, s1);
      PayGoesAlong(s, es0, s1, c, pay.up);
      PayIs(s1, c, pay);
      es := es0 + [Saga.Pay(c.p, pay.up)];
    }

    /** The catch block of createBooking: its copy of the booking has no payment order. */
    method AbandonCreation(c: Copy, net: nat -> Net, ghost s: Sys, ghost es0: seq<Step>, ghost s1: Sys)
      returns (ghost s': Sys, ghost es: seq<Step>)
      requires Valid() && Mirrors(s1) && Along(s, es0, s1, c) && Creates(s1, c, Loading)
      modifies this, inventory, payments
      ensures Valid() && Mirrors(s') && Handled(s, es, s', c)
      ensures s'.bookings[c.b].status == FailedBooking && s'.bookings[c.b].amount == s1.bookings[c.b].amount
      ensures es == es0 + GiveUpSteps(c, CompletedSteps(s1.bookings[c.b].log), net)
    {
      GiveUpShape(es0, c, CompletedSteps(s1.bookings[c.b].log), net);
      ghost var s2, es2 := RollBack(c, net, s, es0, s1);
      s', es := FailCreation(c, s, es2, s2);
    }

    method FailCreation(c: Copy, ghost s: Sys, ghost es0: seq<Step>, ghost s1: Sys)
      returns (ghost s': Sys, ghost es: seq<Step>)
      requires Valid() && Mirrors(s1) && Along(s, es0, s1, c) && Creates(s1, c, Undoing([]))
      modifies this`bookings
      ensures Valid() && Mirrors(s') && Handled(s, es, s', c)
      ensures s'.bookings[c.b].status == FailedBooking && s'.bookings[c.b].amount == s1.bookings[c.b].amount
      ensures es == es0 + [Saga.Fail(c.p)]
    {
      s', es := FailStep(s1, c.p), es0 + [Saga.Fail(c.p)];
      FailCreationGoesAlong(s, es0, s1, c);
      GiveUp(c.b);
    }

    /** The last write of a creation that failed, without a version. */
    method GiveUp(b: BookingId)
      requires Valid() && b in bookings
      modifies this`bookings
      ensures Valid()
      ensures bookings == old(bookings)[b := old(bookings)[b].(status := FailedBooking, creating := false)]
    {
      bookings := bookings[b := bookings[b].(status := FailedBooking, creating := false)];
    }

    // ----- the two jobs -----

    /** cleanExpiredBookings after its query: the bookings it found are claimed and compensated one
        by one, as `at` says: `at[i]` is what the first `i` leave. Undisturbed, it expires every one of
        them whose copy is current. */
    method CleanExpiredBookings(found: seq<Copy>, net: nat -> nat -> Net, ghost s: Sys)
      returns (ghost s': Sys, ghost es: seq<Step>, ghost at: seq<Sys>)
      requires Valid() && Mirrors(s) && AllHold(s, found, 0, Expiry) && EachOnce(found)
      modifies this, inventory, payments
      ensures Valid() && Mirrors(s') && Reaches(s, es, s')
      ensures BatchSoFar(s, s', found, |found|, Expiry, Expired)
      ensures ExpiryTrace(s, at, s', found, net, |found|)
    {
      s', es, at := s, [], [s];
      var i := 0;
      while i < |found|
        invariant 0 <= i <= |found| && Valid() && Mirrors(s')
        invariant Expiring(s, es, at, s', found, net, i)
      {
        ghost var s1, es1 := s', es;
        s', es := ExpireOne(found[i], net(i), s1);
        ExpiringOneMore(s, es1, at, s1, es, s', found, net, i);
        es, i, at := es1 + es, i + 1, at + [s'];
      }
    }

    /** handleScheduleCancelled after its query. Undisturbed, it cancels every booking that it
        found whose copy is current, and refunds those that their copies show CONFIRMED and ordered. */
    method HandleScheduleCancelled(active: seq<Copy>, net: nat -> Net, ghost s: Sys)
      returns (ghost s': Sys, ghost es: seq<Step>, ghost at: seq<Sys>)
      requires Valid() && Mirrors(s) && AllHold(s, active, 0, ScheduleClose) && EachOnce(active)
      modifies this, inventory, payments
      ensures Valid() && Mirrors(s') && Reaches(s, es, s')
      ensures BatchSoFar(s, s', active, |active|, ScheduleClose, CancelledBooking)
      ensures CloseTrace(s, at, s', active, net, |active|)
    {
      s', es, at := s, [], [s];
      var i := 0;
      while i < |active|
        invariant 0 <= i <= |active| && Valid() && Mirrors(s')
        invariant Closing(s, es, at, s', active, net, i)
      {
        ghost var s1, es1 := s', es;
        s', es := CloseOne(active[i], net(i), s1);
        ClosingOneMore(s, es1, at, s1, es, s', active, net, i);
        es, i, at := es1 + es, i + 1, at + [s'];
      }
    }
  }

  // ----- creations as runs -----

  /** A request to book: the seats in sorted order, and who travels. */
  datatype Request = Request(sched: ScheduleId, seats: seq<SeatId>, passengers: nat, user: UserId, from: int, to: int)

  predicate Validated(r: Request) {
    r.seats != [] && r.passengers == |r.seats| && !(IsSegment(r.from, r.to) && r.from >= r.to)
  }

  /** What getAvailability says of the schedule, the date as a day. */
  datatype Availability = Availability(active: bool, departs: int)

  /** What getSeats says of a seat: its summary status, and its mark where a segment was asked for. */
  datatype SeatCard = SeatCard(price: int, status: Status, mark: Option<bool>)

  /** The segment's mark decides where there is one, the summary status otherwise. */
  predicate IsFree(r: Request, card: SeatCard) {
    if IsSegment(r.from, r.to) && card.mark.Some? then card.mark.value else card.status == Available
  }

  predicate AllFree(r: Request, view: map<SeatId, SeatCard>, ids: seq<SeatId>) {
    forall s | s in ids :: s in view && IsFree(r, view[s])
  }

  function Total(view: map<SeatId, SeatCard>, ids: seq<SeatId>): int
    requires forall s | s in ids :: s in view
  {
    if ids == [] then 0 else Total(view, ids[..|ids| - 1]) + view[ids[|ids| - 1]].price
  }

  lemma {:induction false} TotalOfOne(view: map<SeatId, SeatCard>, seat: SeatId)
    requires seat in view
    ensures Total(view, [seat]) == view[seat].price
  {
    assert [seat][..0] == [];
  }

  /** The price of two lists is the price of the one and of the other. */
  lemma {:induction false} TotalAdds(view: map<SeatId, SeatCard>, a: seq<SeatId>, b: seq<SeatId>)
    requires forall s | s in a + b :: s in view
    ensures (forall s | s in a :: s in view) && (forall s | s in b :: s in view)
    ensures Total(view, a + b) == Total(view, a) + Total(view, b)
  {
    assert forall s | s in a :: s in a + b;
    assert forall s | s in b :: s in a + b;
    if b == [] {
      assert a + b == a;
    } else {
      var rest := b[..|b| - 1];
      assert (a + b)[..|a + b| - 1] == a + rest;
      TotalAdds(view, a, rest);
    }
  }

  /** Seats of one price cost as many times that price. */
  lemma {:induction false} TotalOfEqual(view: map<SeatId, SeatCard>, ids: seq<SeatId>, price: int)
    requires forall s | s in ids :: s in view && view[s].price == price
    ensures Total(view, ids) == |ids| * price
  {
    if ids != [] { TotalOfEqual(view, ids[..|ids| - 1], price); }
  }

  /** The schedule can still be booked on day `today`. */
  predicate Bookable(schedule: Option<Availability>, today: int) {
    schedule.Some? && schedule.value.active && schedule.value.departs >= today
  }

  /** Seat number `i` is the first that cannot be booked. */
  predicate FirstFault(r: Request, view: map<SeatId, SeatCard>, i: int) {
    0 <= i < |r.seats| && AllFree(r, view, r.seats[..i]) && !AllFree(r, view, [r.seats[i]])
  }

  /** Some seat cannot be booked, and the first such one is missing, or is there and taken. */
  ghost predicate Faulty(r: Request, view: map<SeatId, SeatCard>, missing: bool) {
    exists i :: FirstFault(r, view, i) && (missing <==> r.seats[i] !in view)
  }

  /** Priced, refused, or answered by the response that is stored under the idempotency key. */
  datatype Quote = Quoted(amount: int) | NotQuoted(error: Error) | Remembered

  /** createBooking before any lock is taken: its checks and its running total. */
  method QuoteSeats(r: Request, keyed: bool, stored: bool, schedule: Option<Availability>, today: int,
      view: map<SeatId, SeatCard>)
    returns (quote: Quote)
    ensures quote.Remembered? <==> Validated(r) && keyed && stored
    ensures quote.Quoted? <==>
      Validated(r) && keyed && !stored && Bookable(schedule, today) && AllFree(r, view, r.seats)
    ensures quote.Quoted? ==> quote.amount == Total(view, r.seats)
    ensures quote == NotQuoted(BadRequest) <==>
      || r.seats == [] || r.passengers != |r.seats| || (r.from != 0 && r.to != 0 && r.from >= r.to) || !keyed
      || (!stored && schedule.Some? && (!schedule.value.active || schedule.value.departs < today))
    ensures Validated(r) && keyed && !stored && schedule.None? ==> quote == NotQuoted(NotFound)
    ensures quote == NotQuoted(Conflict) <==>
      Validated(r) && keyed && !stored && Bookable(schedule, today) && Faulty(r, view, false)
    ensures Validated(r) && keyed && !stored && Bookable(schedule, today) ==>
      (quote == NotQuoted(NotFound) <==> Faulty(r, view, true))
  {
    if |r.seats| == 0 || r.passengers == 0 || |r.seats| != r.passengers || !keyed { return NotQuoted(BadRequest); }
    if IsSegment(r.from, r.to) && r.from >= r.to { return NotQuoted(BadRequest); }
    if stored { return Remembered; }
    if schedule.None? { return NotQuoted(NotFound); }
    if !schedule.value.active || schedule.value.departs < today { return NotQuoted(BadRequest); }
    quote := PriceSeats(r, view);
  }

  /** The view is what getSeats says of this schedule at this moment. */
  predicate Truthful(db: Db, r: Request, view: map<SeatId, SeatCard>) {
    forall x | x in view :: SeatKey(r.sched, x) in db.seats
      && view[x].status == db.seats[SeatKey(r.sched, x)].status
      && view[x].mark == if IsSegment(r.from, r.to) then Some(MarkedAvailable(db, r.sched, x, r.from, r.to)) else None
  }

  /** The seat shows LOCKED or BOOKED and has no row: it is locked or sold for the whole journey. */
  predicate TakenWhole(db: Db, sc: ScheduleId, x: SeatId) {
    && SeatKey(sc, x) in db.seats
    && (db.seats[SeatKey(sc, x)].status == Locked || db.seats[SeatKey(sc, x)].status == Booked)
    && !Requests.HasRow(db, sc, x, Locked) && !Requests.HasRow(db, sc, x, Booked)
  }

  /** While nothing has moved since getSeats answered, the seats are all free in its view exactly when the
      inventory will lock them and, for a segment, none is taken for the whole journey, which the lock
      itself does not look at. */
  lemma {:induction false} FreeIsLockableIff(db: Db, c: Copy, r: Request, amount: int, view: map<SeatId, SeatCard>)
    requires Requests.ProperRows(db) && Validated(r) && Truthful(db, r, view) && Requests.MayLock(db, r.sched, r.seats)
    requires forall x | x in r.seats :: x in view
    ensures AllFree(r, view, r.seats) <==>
              && Lockable(db, NewBooking(c, r, amount))
              && (IsSegment(r.from, r.to) ==> forall x | x in r.seats :: !TakenWhole(db, r.sched, x))
  {
    if IsSegment(r.from, r.to) {
      forall x | x in r.seats
        ensures IsFree(r, view[x])
           <==> Requests.LegsFree(db, r.sched, x, r.from, r.to) && !TakenWhole(db, r.sched, x)
      {
        Requests.MarkedIff(db, r.sched, x, r.from, r.to);
      }
    }
  }

  /** The loop over the requested seats. */
  method PriceSeats(r: Request, view: map<SeatId, SeatCard>) returns (quote: Quote)
    ensures quote.Quoted? <==> AllFree(r, view, r.seats)
    ensures quote.Quoted? ==> quote.amount == Total(view, r.seats)
    ensures quote == NotQuoted(NotFound) <==> Faulty(r, view, true)
    ensures quote == NotQuoted(Conflict) <==> Faulty(r, view, false)
    ensures quote.Quoted? || quote == NotQuoted(NotFound) || quote == NotQuoted(Conflict)
  {
    var totalAmount := 0;
    var i := 0;
    while i < |r.seats|
      invariant 0 <= i <= |r.seats| && AllFree(r, view, r.seats[..i]) && totalAmount == Total(view, r.seats[..i])
    {
      var seat := r.seats[i];
      if seat !in view || !IsFree(r, view[seat]) {
        FaultIsFirst(r, view, i);
        return NotQuoted(if seat !in view then NotFound else Conflict);
      }
      assert r.seats[..i + 1][..i] == r.seats[..i];
      totalAmount := totalAmount + view[seat].price;
      i := i + 1;
    }
    assert r.seats[..i] == r.seats;
    NoFault(r, view);
    quote := Quoted(totalAmount);
  }

  lemma {:induction false} NoFault(r: Request, view: map<SeatId, SeatCard>)
    requires AllFree(r, view, r.seats)
    ensures forall missing :: !Faulty(r, view, missing)
  {
    forall i | 0 <= i < |r.seats| ensures AllFree(r, view, [r.seats[i]]) { assert r.seats[i] in r.seats; }
  }

  lemma {:induction false} FaultIsFirst(r: Request, view: map<SeatId, SeatCard>, i: nat)
    requires i < |r.seats| && AllFree(r, view, r.seats[..i])
    requires r.seats[i] !in view || !IsFree(r, view[r.seats[i]])
    ensures forall missing :: Faulty(r, view, missing) <==> (missing <==> r.seats[i] !in view)
  {
    assert FirstFault(r, view, i);
    assert r.seats[i] in [r.seats[i]];
    forall j | 0 <= j < i ensures AllFree(r, view, [r.seats[j]]) { assert r.seats[j] in r.seats[..i]; }
    forall j | i < j < |r.seats| ensures !AllFree(r, view, r.seats[..j]) { assert r.seats[i] in r.seats[..j]; }
  }

  function NewBooking(c: Copy, r: Request, amount: int): Booking {
    Booking(r.sched, r.seats, r.user, r.from, r.to, amount, Pending, 0, false, [], true, c.p, c.p, None)
  }

  function BookOf(c: Copy, r: Request, amount: int): Step {
    Book(c.p, c.b, r.sched, r.seats, r.user, r.from, r.to, amount)
  }

  lemma {:induction false} HoldGoesAlong(s: Sys, c: Copy, up: bool, ttl: nat)
    requires Creates(s, c, Holding)
    ensures var s' := HoldStep(s, c.p, up, Deadline(s.clock, ttl));
            Along(s, [] + [Saga.Hold(c.p, up, ttl)], s', c) && s'.bookings[c.b].amount == s.bookings[c.b].amount
  {
    var bk, until := s.bookings[c.b], Deadline(s.clock, ttl);
    var (db, reply) := Unless(up, s.db, LockSeats(s.db, bk.sched, bk.seats, bk.user, until, bk.from, bk.to));
    HoldShape(s, c.p, up, until, db, reply);
    Then(s, [], s, Saga.Hold(c.p, up, ttl));
  }

  lemma {:induction false} PayGoesAlong(s: Sys, es: seq<Step>, s1: Sys, c: Copy, up: bool)
    requires Along(s, es, s1, c) && Creates(s1, c, Paying)
    ensures var s' := Saga.PayStep(s1, c.p, up);
            && Reaches(s, es + [Saga.Pay(c.p, up)], s') && c.b in s'.bookings
            && s'.bookings[c.b].amount == s1.bookings[c.b].amount
            && (if up && s1.bookings[c.b].amount > 0
                then s'.procs[c.p].pc == Stopped && s'.bookings[c.b].status == PaymentPending
                else Creates(s', c, Loading) && Along(s, es + [Saga.Pay(c.p, up)], s', c))
  {
    Then(s, es, s1, Saga.Pay(c.p, up));
  }

  lemma {:induction false} FailCreationGoesAlong(s: Sys, es: seq<Step>, s1: Sys, c: Copy)
    requires Along(s, es, s1, c) && Creates(s1, c, Undoing([]))
    ensures Handled(s, es + [Saga.Fail(c.p)], FailStep(s1, c.p), c)
    ensures var bk := s1.bookings[c.b];
            FailStep(s1, c.p).bookings == s1.bookings[c.b := bk.(status := FailedBooking, creating := false)]
  {
    GoesAlong(s, es, s1, c, Saga.Fail(c.p));
  }

  // ----- jobs as runs -----

  /** Copies number `i` and up are held by processes that have not claimed yet. */
  predicate AllHold(s: Sys, cs: seq<Copy>, i: nat, kind: Kind) {
    forall j | i <= j < |cs| :: Holds(s, cs[j], kind) && KnowsOrder(s, cs[j])
  }

  /** The query returns each booking once. */
  predicate EachOnce(cs: seq<Copy>) {
    forall i, j | 0 <= i < j < |cs| :: cs[i].p != cs[j].p && cs[i].b != cs[j].b
  }

  /** The bookings of the first `i` copies are dealt with, the others as they were. */
  predicate BatchSoFar(s: Sys, s': Sys, cs: seq<Copy>, i: nat, kind: Kind, status: BookingStatus) {
    && (forall j | 0 <= j < |cs| :: cs[j].b in s.bookings && cs[j].b in s'.bookings)
    && (forall j | 0 <= j < i <= |cs| && Current(s, cs[j], kind) :: s'.bookings[cs[j].b].status == status)
    && (forall j | i <= j < |cs| :: s'.bookings[cs[j].b] == s.bookings[cs[j].b])
  }

  lemma {:induction false} BatchStep(s: Sys, es: seq<Step>, s1: Sys, es': seq<Step>, s': Sys, cs: seq<Copy>, i: nat,
      kind: Kind, status: BookingStatus)
    requires Reaches(s, es, s1) && EachOnce(cs) && i < |cs|
    requires AllHold(s1, cs, i, kind) && BatchSoFar(s, s1, cs, i, kind, status)
    requires Handled(s1, es', s', cs[i]) && (Current(s1, cs[i], kind) ==> s'.bookings[cs[i].b].status == status)
    ensures Reaches(s, es + es', s') && AllHold(s', cs, i + 1, kind) && BatchSoFar(s, s', cs, i + 1, kind, status)
  {
    Chain(s, es, s1, es', s');
  }

  // ----- handlers as runs -----

  /** What one round of each job comes to. */
  ghost predicate ExpiryEnds(s: Sys, s': Sys, c: Copy, net: nat -> Net) {
    c.b in s.bookings && if Current(s, c, Expiry) then ExpiryDid(s, s', c, net) else SameTables(s, s')
  }

  ghost predicate CloseEnds(s: Sys, s': Sys, c: Copy, net: Net) {
    c.b in s.bookings && if Current(s, c, ScheduleClose) then CloseDid(s, s', c, net) else SameTables(s, s')
  }

  /** `at` goes from `s` to `s'`, one round for each of the first `n` copies. */
  ghost predicate ExpiryTrace(s: Sys, at: seq<Sys>, s': Sys, cs: seq<Copy>, net: nat -> nat -> Net, n: nat) {
    && |at| == n + 1 && n <= |cs| && at[0] == s && at[n] == s'
    && forall j | 0 <= j < n :: ExpiryEnds(at[j], at[j + 1], cs[j], net(j))
  }

  ghost predicate CloseTrace(s: Sys, at: seq<Sys>, s': Sys, cs: seq<Copy>, net: nat -> Net, n: nat) {
    && |at| == n + 1 && n <= |cs| && at[0] == s && at[n] == s'
    && forall j | 0 <= j < n :: CloseEnds(at[j], at[j + 1], cs[j], net(j))
  }

  ghost predicate Expiring(s: Sys, es: seq<Step>, at: seq<Sys>, s': Sys, cs: seq<Copy>, net: nat -> nat -> Net,
      n: nat) {
    && n <= |cs| && Reaches(s, es, s') && EachOnce(cs) && AllHold(s', cs, n, Expiry)
    && BatchSoFar(s, s', cs, n, Expiry, Expired) && ExpiryTrace(s, at, s', cs, net, n)
  }

  lemma {:induction false} ExpiringOneMore(s: Sys, es: seq<Step>, at: seq<Sys>, s1: Sys, es': seq<Step>, s': Sys,
      cs: seq<Copy>, net: nat -> nat -> Net, n: nat)
    requires Expiring(s, es, at, s1, cs, net, n) && n < |cs|
    requires Handled(s1, es', s', cs[n]) && ExpiryEnds(s1, s', cs[n], net(n))
    ensures Expiring(s, es + es', at + [s'], s', cs, net, n + 1)
  {
    BatchStep(s, es, s1, es', s', cs, n, Expiry, Expired);
  }

  ghost predicate Closing(s: Sys, es: seq<Step>, at: seq<Sys>, s': Sys, cs: seq<Copy>, net: nat -> Net, n: nat) {
    && n <= |cs| && Reaches(s, es, s') && EachOnce(cs) && AllHold(s', cs, n, ScheduleClose)
    && BatchSoFar(s, s', cs, n, ScheduleClose, CancelledBooking) && CloseTrace(s, at, s', cs, net, n)
  }

  lemma {:induction false} ClosingOneMore(s: Sys, es: seq<Step>, at: seq<Sys>, s1: Sys, es': seq<Step>, s': Sys,
      cs: seq<Copy>, net: nat -> Net, n: nat)
    requires Closing(s, es, at, s1, cs, net, n) && n < |cs|
    requires Handled(s1, es', s', cs[n]) && CloseEnds(s1, s', cs[n], net(n))
    ensures Closing(s, es + es', at + [s'], s', cs, net, n + 1)
  {
    BatchStep(s, es, s1, es', s', cs, n, ScheduleClose, CancelledBooking);
  }

  /** From `s` the handler of copy `c` has come to `s'` by these steps, moving itself and its booking only. */
  predicate Along(s: Sys, es: seq<Step>, s': Sys, c: Copy) {
    && Reaches(s, es, s') && OnlyMoves(s, s', c.p, c.b) && c.b in s.bookings && c.b in s'.bookings
    && c.p in s.procs && c.p in s'.procs
    && s'.procs[c.p].booking == c.b && s'.bookings[c.b].ordered == s.bookings[c.b].ordered
  }

  /** It has run to its end. */
  predicate Handled(s: Sys, es: seq<Step>, s': Sys, c: Copy) {
    Along(s, es, s', c) && s'.procs[c.p].pc == Stopped
  }

  /** It owns its booking, CONFIRMING, and stands at `pc`. */
  predicate Owner(s: Sys, c: Copy, pc: Pc) {
    && c.p in s.procs && s.procs[c.p] == Proc(Success, c.b, pc, c.status, c.version, c.ordered)
    && KnowsOrder(s, c) && s.bookings[c.b].status == Confirming
  }

  predicate ClaimEnds(s: Sys, s': Sys, c: Copy, claimed: bool) {
    && c.p in s.procs && c.b in s.bookings && s'.db == s.db && s'.pay == s.pay
    && s'.procs == s.procs[c.p := s.procs[c.p].(pc := if claimed then AfterClaim(s.procs[c.p]) else Stopped)]
    && s'.bookings == if claimed then s.bookings[c.b := Claimed(s.procs[c.p].kind, s.bookings[c.b], c.p)]
                          else s.bookings
  }

  lemma {:induction false} ClaimShape(s: Sys, c: Copy, kind: Kind)
    requires Holds(s, c, kind) && KnowsOrder(s, c) && kind != Creation
    ensures Along(s, [] + [Claim(c.p)], ClaimStep(s, c.p), c)
    ensures ClaimEnds(s, ClaimStep(s, c.p), c,
      && s.bookings[c.b].version == c.version
      && (kind == Expiry || kind == ScheduleClose ==> Claimable(kind, s.bookings[c.b].status)))
  {
    Then(s, [], s, Claim(c.p));
  }

  lemma {:induction false} GoesAlong(s: Sys, es: seq<Step>, s1: Sys, c: Copy, e: Step)
    requires Along(s, es, s1, c)
    requires var s2 := Saga.Next(s1, e);
             OnlyMoves(s1, s2, c.p, c.b) && c.p in s2.procs && s2.procs[c.p].booking == c.b
             && c.b in s2.bookings && s2.bookings[c.b].ordered == s1.bookings[c.b].ordered
    ensures Along(s, es + [e], Saga.Next(s1, e), c)
  {
    Then(s, es, s1, e);
  }

  lemma {:induction false} CallGoesAlong(s: Sys, es: seq<Step>, s1: Sys, c: Copy, up: bool)
    requires Along(s, es, s1, c) && Owner(s1, c, Calling)
    ensures Along(s, es + [Call(c.p, up)], CallStep(s1, c.p, up), c)
    ensures CallStep(s1, c.p, up).bookings[c.b].status == Confirming
  {
    assert CallStep(s1, c.p, up) == Saga.Next(s1, Call(c.p, up));
    GoesAlong(s, es, s1, c, Call(c.p, up));
  }

  lemma {:induction false} FinishGoesAlong(s: Sys, es: seq<Step>, s1: Sys, c: Copy, up: bool)
    requires Along(s, es, s1, c) && Owner(s1, c, Finishing)
    ensures Along(s, es + [Saga.Finish(c.p, up)], FinishStep(s1, c.p, up), c)
  {
    GoesAlong(s, es, s1, c, Saga.Finish(c.p, up));
  }

  lemma {:induction false} UndoGoesAlong(s: Sys, es: seq<Step>, s1: Sys, c: Copy, net: Net)
    requires Along(s, es, s1, c) && s1.procs[c.p].pc.Undoing? && s1.procs[c.p].pc.todo != []
    ensures Along(s, es + [Undo(c.p, net.up, net.answer)], UndoStep(s1, c.p, net.up, net.answer), c)
    ensures UndoStep(s1, c.p, net.up, net.answer).bookings[c.b].status == s1.bookings[c.b].status
  {
    UndoShape(s1, c.p, net.up, net.answer);
    GoesAlong(s, es, s1, c, Undo(c.p, net.up, net.answer));
  }

  lemma {:induction false} FailGoesAlong(s: Sys, es: seq<Step>, s1: Sys, c: Copy)
    requires Along(s, es, s1, c) && s1.procs[c.p].pc == Undoing([])
    requires s1.procs[c.p].kind == Success ==> s1.bookings[c.b].status == Confirming
    requires s1.procs[c.p].kind != Creation
    ensures Handled(s, es + [Saga.Fail(c.p)], FailStep(s1, c.p), c)
    ensures var s' := FailStep(s1, c.p);
            var bk := s1.bookings[c.b];
            && s'.db == s1.db && s'.pay == s1.pay
            && s'.bookings == if s1.procs[c.p].kind != Success then s1.bookings
                              else s1.bookings[c.b := bk.(status := FailedBooking, version := bk.version + 1)]
  {
    GoesAlong(s, es, s1, c, Saga.Fail(c.p));
  }

  lemma {:induction false} ReleaseThenStops(s: Sys, es: seq<Step>, s1: Sys, c: Copy, net: Net)
    requires Along(s, es, s1, c) && s1.procs[c.p].kind == Failure && s1.procs[c.p].pc == Undoing([HoldSeats] + [])
    ensures var s2 := UndoStep(s1, c.p, net.up, net.answer);
            var s' := FailStep(s2, c.p);
            && Handled(s, es + [Undo(c.p, net.up, net.answer), Saga.Fail(c.p)], s', c)
            && s'.db == s2.db && s'.pay == s2.pay && s'.bookings == s2.bookings
            && s'.bookings[c.b].status == s1.bookings[c.b].status
  {
    var undo := Undo(c.p, net.up, net.answer);
    UndoGoesAlong(s, es, s1, c, net);
    UndoShape(s1, c.p, net.up, net.answer);
    FailGoesAlong(s, es + [undo], UndoStep(s1, c.p, net.up, net.answer), c);
    assert es + [undo] + [Saga.Fail(c.p)] == es + [undo, Saga.Fail(c.p)];
  }

  lemma {:induction false} OwnerFails(s: Sys, es: seq<Step>, s1: Sys, c: Copy)
    requires Along(s, es, s1, c) && Owner(s1, c, Undoing([]))
    ensures var s', bk := FailStep(s1, c.p), s1.bookings[c.b];
            && Handled(s, es + [Saga.Fail(c.p)], s', c) && s'.db == s1.db && s'.pay == s1.pay
            && s'.bookings == s1.bookings[c.b := bk.(status := FailedBooking, version := bk.version + 1)]
  {
    FailGoesAlong(s, es, s1, c);
  }

  lemma {:induction false} RefundGoesAlong(s: Sys, es: seq<Step>, s1: Sys, c: Copy, net: Net)
    requires Along(s, es, s1, c) && At(s1, c.p, ScheduleClose, Refunding)
    ensures Along(s, es + [Saga.Refund(c.p, net.up, net.answer)], RefundStep(s1, c.p, net.up, net.answer), c)
  {
    GoesAlong(s, es, s1, c, Saga.Refund(c.p, net.up, net.answer));
  }

  lemma {:induction false} RollbackGoesAlong(s: Sys, es0: seq<Step>, s1: Sys, es: seq<Step>, s': Sys, c: Copy,
      visited: seq<SagaStep>, allDone: bool)
    requires Along(s, es0, s1, c) && Progress(s1, es, s', c.p, c.b, visited, [], allDone)
    ensures Along(s, es0 + es, s', c) && s'.bookings[c.b] == s1.bookings[c.b].(log := s'.bookings[c.b].log)
    ensures s'.procs[c.p] == s1.procs[c.p].(pc := Undoing([]))
  {
    Chain(s, es0, s1, es, s');
  }

  /** compensateAll has made the compensations `visited` and still has `rest` before it. */
  predicate Progress(s: Sys, es: seq<Step>, s': Sys, p: ProcId, b: BookingId, visited: seq<SagaStep>,
      rest: seq<SagaStep>, allDone: bool) {
    && p in s.procs && b in s.bookings && b in s'.bookings && Reaches(s, es, s')
    && s'.procs == s.procs[p := s.procs[p].(pc := Undoing(rest))]
    && s'.bookings == s.bookings[b := s.bookings[b].(log := s'.bookings[b].log)]
    && (allDone ==> s'.bookings[b].log == CompensateEach(s.bookings[b].log, visited))
    && (visited == [] ==> s'.db == s.db && s'.pay == s.pay && s'.bookings == s.bookings)
  }

  lemma {:induction false} Loaded(s: Sys, p: ProcId, b: BookingId)
    requires p in s.procs && s.procs[p].booking == b && b in s.bookings && s.procs[p].pc == Loading
    ensures Progress(s, [] + [Load(p)], LoadStep(s, p), p, b, [], CompletedSteps(s.bookings[b].log), true)
  {
    Then(s, [], s, Load(p));
  }

  lemma {:induction false} OneUndone(s: Sys, es: seq<Step>, s1: Sys, p: ProcId, b: BookingId, visited: seq<SagaStep>,
      step: SagaStep, rest: seq<SagaStep>, allDone: bool, net: Net, done: bool)
    requires Progress(s, es, s1, p, b, visited, [step] + rest, allDone) && s.procs[p].booking == b
    requires var s2 := UndoStep(s1, p, net.up, net.answer);
             && s2.procs == s1.procs[p := s1.procs[p].(pc := Undoing(rest))]
             && s2.bookings == if !done then s1.bookings
                               else s1.bookings[b := s1.bookings[b].(log := Compensate(s1.bookings[b].log, step))]
    ensures var s' := UndoStep(s1, p, net.up, net.answer);
            Progress(s, es + [Undo(p, net.up, net.answer)], s', p, b, visited + [step], rest, allDone && done)
  {
    Then(s, es, s1, Undo(p, net.up, net.answer));
    EachAppend(s.bookings[b].log, visited, step);
  }

  /** When every call of a compensateAll went through, no COMPLETED step is left, and a second
      compensateAll visits nothing and changes nothing. */
  lemma {:induction false} RollbackIsFinal(s: Sys, es: seq<Step>, s': Sys, p: ProcId, b: BookingId,
      visited: seq<SagaStep>, es2: seq<Step>, s2: Sys, q: ProcId, visited2: seq<SagaStep>, allDone2: bool)
    requires Progress(s, es, s', p, b, visited, [], true) && visited == CompletedSteps(s.bookings[b].log)
    requires Progress(s', es2, s2, q, b, visited2, [], allDone2) && visited2 == CompletedSteps(s'.bookings[b].log)
    ensures CompletedSteps(s'.bookings[b].log) == []
    ensures s2.db == s'.db && s2.pay == s'.pay && s2.bookings == s'.bookings
  {
    AllCleared(s.bookings[b].log);
  }
}
