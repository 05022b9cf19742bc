/** What each handler of the booking service comes to, from the moment its copy of the booking was read
    and with nothing else moving: which steps it takes, and what becomes of the booking, the seats and
    the money. */
module SagaOutcomes {
  import opened Ledger
  import opened LedgerRuns
  import opened Saga
  import opened SagaControl
  import opened SagaEffects
  import opened PaymentCalls
  import Q = Requests
  import P = Payments

  /** The columns of a booking that a contender keeps from its read. */
  datatype Copy = Copy(p: ProcId, b: BookingId, status: BookingStatus, version: nat, ordered: bool)

  /** Process `c.p` of the machine holds this copy and is about to claim. */
  predicate Holds(s: Sys, c: Copy, kind: Kind) {
    c.p in s.procs && s.procs[c.p] == Proc(kind, c.b, Claiming, c.status, c.version, c.ordered)
  }

  predicate KnowsOrder(s: Sys, c: Copy) {
    c.b in s.bookings && (c.ordered ==> s.bookings[c.b].ordered)
  }

  /** The copy is still what the claim of a job asks for: the booking has its version, and the
      booking-expiry job finds it unpaid, a cancelled schedule finds it unpaid or CONFIRMED. */
  predicate Current(s: Sys, c: Copy, kind: Kind)
    requires c.b in s.bookings
  {
    var status := s.bookings[c.b].status;
    && s.bookings[c.b].version == c.version
    && match kind
       case Expiry => status == Pending || status == SeatsHeld || status == PaymentPending
       case ScheduleClose =>
         status == Pending || status == SeatsHeld || status == PaymentPending || status == Confirmed
       case _ => status == PaymentPending
  }

  lemma {:induction false} RunAppend(s: Sys, es: seq<Step>, es': seq<Step>)
    ensures Saga.Run(s, es + es') == Saga.Run(Saga.Run(s, es), es')
    decreases |es|
  {
    if es == [] {
      assert [] + es' == es';
    } else {
      assert (es + es')[1..] == es[1..] + es';
      RunAppend(Saga.Next(s, es[0]), es[1..], es');
    }
  }

  lemma {:induction false} RunOne(s: Sys, e: Step)
    ensures Saga.Run(s, [e]) == Saga.Next(s, e)
  {
    assert [] + [e] == [e];
    RunOneMore(s, [], e);
  }

  // ----- the ways to an end -----

  /** The booking but for what its contenders write. */
  predicate SameTicket(bk: Booking, bk': Booking) {
    bk' == bk.(status := bk'.status, version := bk'.version, claimer := bk'.claimer, creating := bk'.creating,
               log := bk'.log)
  }

  /** What compensateAll has given back, whatever has been written to the booking before and after it. */
  lemma {:induction false} GivenBackStill(s: Sys, s1: Sys, s2: Sys, s': Sys, b: BookingId, steps: seq<SagaStep>,
      net: nat -> Net, ordered: bool, n: nat)
    requires RolledBack(s1, s2, b, steps, net, ordered, n) && b in s.bookings && b in s'.bookings
    requires s.db == s1.db && s.pay == s1.pay && SameTicket(s.bookings[b], s1.bookings[b])
    requires s'.db == s2.db && s'.pay == s2.pay && s'.bookings[b].log == s2.bookings[b].log
    ensures RolledBack(s, s', b, steps, net, ordered, n)
  {
  }

  /** compensateAll by the owner of copy `c`, with these steps to compensate, and its last write. */
  function GiveUpSteps(c: Copy, steps: seq<SagaStep>, net: nat -> Net): seq<Step> {
    Rollback(c.p, net, |steps|) + [Saga.Fail(c.p)]
  }

  lemma {:induction false} GiveUpShape(es: seq<Step>, c: Copy, steps: seq<SagaStep>, net: nat -> Net)
    ensures es + Rollback(c.p, net, |steps|) + [Saga.Fail(c.p)] == es + GiveUpSteps(c, steps, net)
  {
  }

  /** All that compensateAll tries is given back. */
  ghost predicate GivenBack(s: Sys, s': Sys, c: Copy, steps: seq<SagaStep>, net: nat -> Net) {
    RolledBack(s, s', c.b, steps, net, c.ordered, |steps|)
  }

  /** It is about to give up. */
  predicate GivesUp(s: Sys, c: Copy, steps: seq<SagaStep>) {
    ToRollBack(s, c.p, c.b, steps) && s.procs[c.p].seenOrder == c.ordered
  }

  lemma {:induction false} GiveUpRuns(s: Sys, c: Copy, steps: seq<SagaStep>, net: nat -> Net)
    ensures Saga.Run(s, GiveUpSteps(c, steps, net)) == FailStep(After(s, c.p, net, |steps|), c.p)
  {
    RunOneMore(s, Rollback(c.p, net, |steps|), Saga.Fail(c.p));
  }

  lemma {:induction false} GiveUpDoes(s: Sys, c: Copy, steps: seq<SagaStep>, net: nat -> Net)
    requires GivesUp(s, c, steps)
    ensures var s2 := After(s, c.p, net, |steps|);
            && Saga.Run(s, GiveUpSteps(c, steps, net)) == FailStep(s2, c.p)
            && Midway(s, s2, c.p, c.b, steps, |steps|) && GivenBack(s, s2, c, steps, net)
  {
    GiveUpRuns(s, c, steps, net);
    RollbackGivesBack(s, c.p, c.b, net, steps, |steps|);
    Stages(s, c.p, c.b, net, steps, |steps|);
  }

  // ----- handlePaymentSuccess -----

  function Entry(step: SagaStep, ok: bool): LogEntry {
    LogEntry(step, if ok then Completed else StepFailed)
  }

  predicate Accepted(s: Sys, c: Copy, confirm: Net)
    requires c.b in s.bookings
  {
    confirm.up && Confirmable(s.db, s.bookings[c.b])
  }

  /** The log once the inventory has been asked. */
  function LogOfSuccess(s: Sys, c: Copy, confirm: Net): seq<LogEntry>
    requires c.b in s.bookings
  {
    s.bookings[c.b].log + [Entry(ConfirmStep, Accepted(s, c, confirm))]
  }

  /** From the answer of the inventory on: write CONFIRMED; where one of the calls fails, compensate and
      write FAILED. */
  function SuccessRest(c: Copy, accepted: bool, finishUp: bool, log: seq<LogEntry>, net: nat -> Net): seq<Step> {
    (if accepted then [Saga.Finish(c.p, finishUp)] else [])
    + if accepted && finishUp then [] else GiveUpSteps(c, CompletedSteps(log), net)
  }

  lemma {:induction false} SuccessRestShape(es: seq<Step>, c: Copy, finishUp: bool, log: seq<LogEntry>, net: nat -> Net)
    ensures var giveUp, finish := GiveUpSteps(c, CompletedSteps(log), net), [Saga.Finish(c.p, finishUp)];
            && es + SuccessRest(c, false, finishUp, log, net) == es + giveUp
            && es + SuccessRest(c, true, finishUp, log, net) == es + finish + if finishUp then [] else giveUp
  {
  }

  function SuccessSteps(s: Sys, c: Copy, confirm: Net, finishUp: bool, net: nat -> Net): seq<Step>
    requires c.b in s.bookings
  {
    if s.bookings[c.b].version != c.version then [Claim(c.p)]
    else [Claim(c.p), Call(c.p, confirm.up)]
         + SuccessRest(c, Accepted(s, c, confirm), finishUp, LogOfSuccess(s, c, confirm), net)
  }

  lemma {:induction false} SuccessStepsShape(s: Sys, c: Copy, confirm: Net, finishUp: bool, net: nat -> Net)
    requires c.b in s.bookings && s.bookings[c.b].version == c.version
    ensures [Claim(c.p)] + [Call(c.p, confirm.up)]
            + SuccessRest(c, Accepted(s, c, confirm), finishUp, LogOfSuccess(s, c, confirm), net)
         == SuccessSteps(s, c, confirm, finishUp, net)
  {
    assert [Claim(c.p)] + [Call(c.p, confirm.up)] == [Claim(c.p), Call(c.p, confirm.up)];
  }

  /** The claim is won and the inventory has been asked: the seats are sold to the booking exactly when
      it accepts. */
  ghost predicate Asked(s: Sys, mid: Sys, c: Copy, confirm: Net)
    requires c.b in s.bookings
  {
    var bk, accepted := s.bookings[c.b], Accepted(s, c, confirm);
    && mid.pay == s.pay && (if accepted then Sold(s.db, mid.db, c.b, bk) else mid.db == s.db)
    && mid.bookings == s.bookings[c.b := bk.(status := Confirming, version := bk.version + 1, claimer := c.p,
                                             log := LogOfSuccess(s, c, confirm))]
  }

  /** The booking is CONFIRMED exactly when the inventory accepts, as `mid` says, and the last write
      succeeds; otherwise it is FAILED, with all given back that compensateAll tries. */
  ghost predicate SuccessDid(s: Sys, mid: Sys, s': Sys, c: Copy, confirm: Net, finishUp: bool, net: nat -> Net)
    requires c.b in s.bookings
  {
    var bk, log := s.bookings[c.b], LogOfSuccess(s, c, confirm);
    && Asked(s, mid, c, confirm) && c.b in s'.bookings
    && if Accepted(s, c, confirm) && finishUp then
         && s'.db == mid.db && s'.pay == s.pay
         && s'.bookings == s.bookings[c.b := bk.(status := Confirmed, version := bk.version + 2, claimer := c.p,
                                                 log := log)]
       else
         && s'.bookings == s.bookings[c.b := bk.(status := FailedBooking, version := bk.version + 2, claimer := c.p,
                                                 log := s'.bookings[c.b].log)]
         && GivenBack(mid, s', c, CompletedSteps(log), net)
  }

  /** The claim has written its status and the next version, and nothing else. */
  predicate ClaimWon(s: Sys, s1: Sys, c: Copy, kind: Kind) {
    && c.b in s.bookings && c.p in s.procs && s1.db == s.db && s1.pay == s.pay
    && s1.procs == s.procs[c.p := s.procs[c.p].(pc := AfterClaim(s.procs[c.p]))]
    && var bk := s.bookings[c.b];
       s1.bookings == s.bookings[c.b := bk.(version := bk.version + 1,
         claimer := if kind == Success then c.p else bk.claimer,
         status := match kind
                   case Success => Confirming
                   case Failure => FailedBooking
                   case Expiry => Expired
                   case _ => CancelledBooking)]
  }

  lemma {:induction false} ClaimIs(s: Sys, c: Copy, kind: Kind)
    requires Holds(s, c, kind) && c.b in s.bookings && kind != Creation && s.bookings[c.b].version == c.version
    requires kind == Expiry || kind == ScheduleClose ==> Claimable(kind, s.bookings[c.b].status)
    ensures ClaimWon(s, ClaimStep(s, c.p), c, kind)
  {
  }

  /** The inventory has been asked for a confirmation. */
  ghost predicate CallMade(s: Sys, s1: Sys, c: Copy, confirm: Net)
    requires c.b in s.bookings
  {
    var bk, accepted := s.bookings[c.b], Accepted(s, c, confirm);
    && s1.pay == s.pay && (if accepted then Sold(s.db, s1.db, c.b, bk) else s1.db == s.db) && c.p in s.procs
    && s1.procs == s.procs[c.p := s.procs[c.p].(pc := if accepted then Finishing else Loading)]
    && s1.bookings == s.bookings[c.b := bk.(log := bk.log + [Entry(ConfirmStep, accepted)])]
  }

  lemma {:induction false} CallIs(s: Sys, c: Copy, confirm: Net)
    requires Owned(s) && At(s, c.p, Success, Calling) && s.procs[c.p].booking == c.b
    ensures CallMade(s, CallStep(s, c.p, confirm.up), c, confirm)
  {
    ConfirmSells(s.db, c.b, s.bookings[c.b]);
  }

  lemma {:induction false} SoldKeepsOwned(db: Db, db': Db, b: BookingId, bk: Booking)
    requires SeatsOwned(db) && RowsOwned(db) && Sold(db, db', b, bk)
    ensures SeatsOwned(db') && RowsOwned(db')
  {
  }

  lemma {:induction false} SameSale(db: Db, db': Db, b: BookingId, bk: Booking, bk': Booking)
    requires SameTicket(bk, bk')
    ensures Confirmable(db, bk) <==> Confirmable(db, bk')
    ensures Sold(db, db', b, bk) <==> Sold(db, db', b, bk')
  {
  }

  /** The process has its copy, and stands at `pc`. */
  predicate Stands(s: Sys, c: Copy, kind: Kind, pc: Pc) {
    && Owned(s) && c.b in s.bookings && c.p in s.procs
    && s.procs[c.p] == Proc(kind, c.b, pc, c.status, c.version, c.ordered)
  }

  lemma {:induction false} ClaimAndCallRun(s: Sys, c: Copy, up: bool)
    ensures Saga.Run(s, [Claim(c.p), Call(c.p, up)]) == CallStep(ClaimStep(s, c.p), c.p, up)
  {
    assert [Claim(c.p)] + [Call(c.p, up)] == [Claim(c.p), Call(c.p, up)];
    RunOne(s, Claim(c.p));
    RunOneMore(s, [Claim(c.p)], Call(c.p, up));
  }

  lemma {:induction false} ClaimThenCall(s: Sys, s1: Sys, mid: Sys, c: Copy, confirm: Net)
    requires Owned(s) && Holds(s, c, Success) && ClaimWon(s, s1, c, Success) && CallMade(s1, mid, c, confirm)
    ensures Asked(s, mid, c, confirm) && Stands(mid, c, Success, if Accepted(s, c, confirm) then Finishing else Loading)
  {
    SameSale(s.db, mid.db, c.b, s.bookings[c.b], s1.bookings[c.b]);
    if Accepted(s, c, confirm) { SoldKeepsOwned(s.db, mid.db, c.b, s.bookings[c.b]); }
  }

  lemma {:induction false} ClaimAndCall(s: Sys, c: Copy, confirm: Net)
    requires Owned(s) && Holds(s, c, Success) && c.b in s.bookings && s.bookings[c.b].version == c.version
    ensures var mid := CallStep(ClaimStep(s, c.p), c.p, confirm.up);
            Asked(s, mid, c, confirm) && Stands(mid, c, Success, if Accepted(s, c, confirm) then Finishing else Loading)
  {
    var s1 := ClaimStep(s, c.p);
    ClaimIs(s, c, Success);
    CallIs(s1, c, confirm);
    ClaimThenCall(s, s1, CallStep(s1, c.p, confirm.up), c, confirm);
  }

  lemma {:induction false} FinishIs(s: Sys, c: Copy, up: bool)
    requires Stands(s, c, Success, Finishing) && s.bookings[c.b].status == Confirming
    ensures var bk, s' := s.bookings[c.b], FinishStep(s, c.p, up);
            && s'.db == s.db && s'.pay == s.pay
            && (if up then s'.bookings == s.bookings[c.b := bk.(status := Confirmed, version := bk.version + 1)]
                else s'.bookings == s.bookings && Stands(s', c, Success, Loading))
  {
  }

  /** The last write of the process that has compensated. */
  lemma {:induction false} FailIs(s: Sys, c: Copy, kind: Kind)
    requires Stands(s, c, kind, Undoing([])) && (kind == Success ==> s.bookings[c.b].status == Confirming)
    ensures var bk, s' := s.bookings[c.b], FailStep(s, c.p);
            && s'.db == s.db && s'.pay == s.pay
            && s'.bookings == match kind
                 case Success => s.bookings[c.b := bk.(status := FailedBooking, version := bk.version + 1)]
                 case Creation => s.bookings[c.b := bk.(status := FailedBooking, creating := false)]
                 case _ => s.bookings
  {
  }

  /** compensateAll and the last write, by a process of this kind. */
  ghost predicate GaveUp(s: Sys, s': Sys, c: Copy, kind: Kind, net: nat -> Net)
    requires c.b in s.bookings
  {
    var bk := s.bookings[c.b];
    && c.b in s'.bookings && GivenBack(s, s', c, CompletedSteps(bk.log), net)
    && var bk' := bk.(log := s'.bookings[c.b].log);
       s'.bookings == s.bookings[c.b := match kind
         case Success => bk'.(status := FailedBooking, version := bk.version + 1)
         case Creation => bk'.(status := FailedBooking, creating := false)
         case _ => bk']
  }

  lemma {:induction false} GiveUpIs(s: Sys, c: Copy, kind: Kind, net: nat -> Net)
    requires Stands(s, c, kind, Loading) && (kind == Success ==> s.bookings[c.b].status == Confirming)
    ensures GaveUp(s, Saga.Run(s, GiveUpSteps(c, CompletedSteps(s.bookings[c.b].log), net)), c, kind, net)
  {
    var steps := CompletedSteps(s.bookings[c.b].log);
    var s2 := After(s, c.p, net, |steps|);
    GiveUpDoes(s, c, steps, net);
    GivesUpIs(s, s2, c, kind, steps, net);
  }

  lemma {:induction false} GivesUpIs(s: Sys, s2: Sys, c: Copy, kind: Kind, steps: seq<SagaStep>, net: nat -> Net)
    requires Stands(s, c, kind, Loading) && (kind == Success ==> s.bookings[c.b].status == Confirming)
    requires steps == CompletedSteps(s.bookings[c.b].log)
    requires Midway(s, s2, c.p, c.b, steps, |steps|) && GivenBack(s, s2, c, steps, net)
    ensures GaveUp(s, FailStep(s2, c.p), c, kind, net)
  {
    assert steps[|steps|..] == [];
    FailIs(s2, c, kind);
    GivenBackStill(s, s, s2, FailStep(s2, c.p), c.b, steps, net, c.ordered, |steps|);
  }

  lemma {:induction false} SuccessGivesUp(s: Sys, mid: Sys, m: Sys, s': Sys, c: Copy, confirm: Net, finishUp: bool,
      net: nat -> Net)
    requires c.b in s.bookings && Asked(s, mid, c, confirm) && !(Accepted(s, c, confirm) && finishUp)
    requires SameTables(mid, m) && GaveUp(m, s', c, Success, net)
    ensures SuccessDid(s, mid, s', c, confirm, finishUp, net)
  {
    var steps := CompletedSteps(LogOfSuccess(s, c, confirm));
    GivenBackStill(mid, m, s', s', c.b, steps, net, c.ordered, |steps|);
  }

  lemma {:induction false} RestRuns(s: Sys, mid: Sys, c: Copy, confirm: Net, finishUp: bool, net: nat -> Net)
    requires c.b in s.bookings
    ensures var accepted, m := Accepted(s, c, confirm), FinishStep(mid, c.p, finishUp);
            var giveUp := GiveUpSteps(c, CompletedSteps(LogOfSuccess(s, c, confirm)), net);
            Saga.Run(mid, SuccessRest(c, Accepted(s, c, confirm), finishUp, LogOfSuccess(s, c, confirm), net))
              == if !accepted then Saga.Run(mid, giveUp) else if finishUp then m else Saga.Run(m, giveUp)
  {
    var giveUp := GiveUpSteps(c, CompletedSteps(LogOfSuccess(s, c, confirm)), net);
    var finish := Saga.Finish(c.p, finishUp);
    RunOne(mid, finish);
    RunAppend(mid, [finish], giveUp);
    assert [] + giveUp == giveUp && [finish] + [] == [finish];
  }

  lemma {:induction false} SuccessFinishes(s: Sys, mid: Sys, c: Copy, confirm: Net, net: nat -> Net)
    requires c.b in s.bookings && Asked(s, mid, c, confirm) && Accepted(s, c, confirm)
    requires Stands(mid, c, Success, Finishing)
    ensures SuccessDid(s, mid, FinishStep(mid, c.p, true), c, confirm, true, net)
    ensures var m := FinishStep(mid, c.p, false); SameTables(mid, m) && Stands(m, c, Success, Loading)
  {
    FinishIs(mid, c, true);
    FinishIs(mid, c, false);
  }

  lemma {:induction false} SuccessFromCall(s: Sys, mid: Sys, c: Copy, confirm: Net, finishUp: bool, net: nat -> Net)
    requires c.b in s.bookings && Asked(s, mid, c, confirm)
    requires Stands(mid, c, Success, if Accepted(s, c, confirm) then Finishing else Loading)
    ensures var rest := SuccessRest(c, Accepted(s, c, confirm), finishUp, LogOfSuccess(s, c, confirm), net);
            SuccessDid(s, mid, Saga.Run(mid, rest), c, confirm, finishUp, net)
  {
    RestRuns(s, mid, c, confirm, finishUp, net);
    var m := mid;
    if Accepted(s, c, confirm) {
      SuccessFinishes(s, mid, c, confirm, net);
      m := FinishStep(mid, c.p, finishUp);
    }
    if !Accepted(s, c, confirm) || !finishUp {
      SuccessFails(s, mid, m, c, confirm, finishUp, net);
    }
  }

  lemma {:induction false} SuccessFails(s: Sys, mid: Sys, m: Sys, c: Copy, confirm: Net, finishUp: bool,
      net: nat -> Net)
    requires c.b in s.bookings && Asked(s, mid, c, confirm) && !(Accepted(s, c, confirm) && finishUp)
    requires SameTables(mid, m) && Stands(m, c, Success, Loading)
    ensures var giveUp := GiveUpSteps(c, CompletedSteps(LogOfSuccess(s, c, confirm)), net);
            SuccessDid(s, mid, Saga.Run(m, giveUp), c, confirm, finishUp, net)
  {
    var giveUp := GiveUpSteps(c, CompletedSteps(LogOfSuccess(s, c, confirm)), net);
    GiveUpIs(m, c, Success, net);
    SuccessGivesUp(s, mid, m, Saga.Run(m, giveUp), c, confirm, finishUp, net);
  }

  /** What handlePaymentSuccess comes to with a current copy. */
  lemma {:induction false} SuccessOutcome(s: Sys, c: Copy, confirm: Net, finishUp: bool, net: nat -> Net)
    returns (mid: Sys)
    requires Owned(s) && Holds(s, c, Success) && c.b in s.bookings && s.bookings[c.b].version == c.version
    ensures SuccessDid(s, mid, Saga.Run(s, SuccessSteps(s, c, confirm, finishUp, net)), c, confirm, finishUp, net)
  {
    ClaimAndCallRun(s, c, confirm.up);
    ClaimAndCall(s, c, confirm);
    mid := CallStep(ClaimStep(s, c.p), c.p, confirm.up);
    SuccessFromCall(s, mid, c, confirm, finishUp, net);
    var rest := SuccessRest(c, Accepted(s, c, confirm), finishUp, LogOfSuccess(s, c, confirm), net);
    RunAppend(s, [Claim(c.p), Call(c.p, confirm.up)], rest);
    assert SuccessSteps(s, c, confirm, finishUp, net) == [Claim(c.p), Call(c.p, confirm.up)] + rest;
  }

  // ----- handlePaymentFailure -----

  function FailureSteps(s: Sys, c: Copy, net: Net): seq<Step>
    requires c.b in s.bookings
  {
    if s.bookings[c.b].version != c.version then [Claim(c.p)]
    else [Claim(c.p)] + [Undo(c.p, net.up, net.answer), Saga.Fail(c.p)]
  }

  /** The booking is FAILED. Its seats are released, and the step is marked, exactly when the call gets
      through and the inventory accepts. */
  ghost predicate FailureDid(s: Sys, s': Sys, c: Copy, net: Net)
    requires c.b in s.bookings
  {
    var bk := s.bookings[c.b];
    && c.b in s'.bookings && s'.pay == s.pay
    && s'.bookings == s.bookings[c.b := bk.(status := FailedBooking, version := bk.version + 1,
                                            log := s'.bookings[c.b].log)]
    && if net.up && Releasable(s.db, bk)
       then Released(s.db, s'.db, bk) && Marked(bk.log, s'.bookings[c.b].log, HoldSeats)
       else s'.db == s.db && s'.bookings[c.b].log == bk.log
  }

  lemma {:induction false} SameHold(db: Db, db': Db, bk: Booking, bk': Booking)
    requires SameTicket(bk, bk')
    ensures Releasable(db, bk) <==> Releasable(db, bk')
    ensures Released(db, db', bk) <==> Released(db, db', bk')
  {
  }

  lemma {:induction false} ReleaseThenFail(s: Sys, s1: Sys, s2: Sys, c: Copy, net: Net)
    requires Holds(s, c, Failure) && ClaimWon(s, s1, c, Failure)
    requires Compensates(s1, s2, c.b, HoldSeats, net, c.ordered)
    ensures FailureDid(s, s2, c, net)
  {
    SameHold(s.db, s2.db, s.bookings[c.b], s1.bookings[c.b]);
  }

  lemma {:induction false} ClaimAndRelease(s: Sys, c: Copy, net: Net)
    requires Owned(s) && Holds(s, c, Failure) && c.b in s.bookings && s.bookings[c.b].version == c.version
    ensures var s2 := UndoStep(ClaimStep(s, c.p), c.p, net.up, net.answer);
            FailureDid(s, s2, c, net) && SameTables(s2, FailStep(s2, c.p))
  {
    var s1 := ClaimStep(s, c.p);
    ClaimIs(s, c, Failure);
    UndoDoes(s1, c.p, net);
    UndoShape(s1, c.p, net.up, net.answer);
    ReleaseThenFail(s, s1, UndoStep(s1, c.p, net.up, net.answer), c, net);
  }

  lemma {:induction false} FailureRuns(s: Sys, c: Copy, net: Net)
    requires c.b in s.bookings && s.bookings[c.b].version == c.version
    ensures Saga.Run(s, FailureSteps(s, c, net))
         == FailStep(UndoStep(ClaimStep(s, c.p), c.p, net.up, net.answer), c.p)
  {
    RunThree(s, Claim(c.p), Undo(c.p, net.up, net.answer), Saga.Fail(c.p));
    assert [Claim(c.p)] + [Undo(c.p, net.up, net.answer), Saga.Fail(c.p)]
        == [Claim(c.p), Undo(c.p, net.up, net.answer), Saga.Fail(c.p)];
  }

  lemma {:induction false} FailureOutcome(s: Sys, c: Copy, net: Net)
    requires Owned(s) && Holds(s, c, Failure) && c.b in s.bookings && s.bookings[c.b].version == c.version
    ensures FailureDid(s, Saga.Run(s, FailureSteps(s, c, net)), c, net)
  {
    FailureRuns(s, c, net);
    ClaimAndRelease(s, c, net);
  }

  lemma {:induction false} RunThree(s: Sys, e1: Step, e2: Step, e3: Step)
    ensures Saga.Run(s, [e1, e2, e3]) == Saga.Next(Saga.Next(Saga.Next(s, e1), e2), e3)
  {
    assert [e1] + [e2] == [e1, e2] && [e1, e2] + [e3] == [e1, e2, e3];
    RunOne(s, e1);
    RunOneMore(s, [e1], e2);
    RunOneMore(s, [e1, e2], e3);
  }

  // ----- the booking-expiry job -----

  function ExpirySteps(s: Sys, c: Copy, net: nat -> Net): seq<Step>
    requires c.b in s.bookings
  {
    if !Current(s, c, Expiry) then [Claim(c.p)]
    else [Claim(c.p)] + GiveUpSteps(c, CompletedSteps(s.bookings[c.b].log), net)
  }

  /** The booking is EXPIRED, with all given back that compensateAll tries. */
  ghost predicate ExpiryDid(s: Sys, s': Sys, c: Copy, net: nat -> Net)
    requires c.b in s.bookings
  {
    var bk := s.bookings[c.b];
    && c.b in s'.bookings && GivenBack(s, s', c, CompletedSteps(bk.log), net)
    && s'.bookings == s.bookings[c.b := bk.(status := Expired, version := bk.version + 1, log := s'.bookings[c.b].log)]
  }

  lemma {:induction false} ClaimThenGiveUp(s: Sys, s1: Sys, s': Sys, c: Copy, net: nat -> Net)
    requires ClaimWon(s, s1, c, Expiry) && GaveUp(s1, s', c, Expiry, net)
    ensures ExpiryDid(s, s', c, net)
  {
    var steps := CompletedSteps(s.bookings[c.b].log);
    GivenBackStill(s, s1, s', s', c.b, steps, net, c.ordered, |steps|);
  }

  lemma {:induction false} ExpiryOutcome(s: Sys, c: Copy, net: nat -> Net)
    requires Owned(s) && Holds(s, c, Expiry) && c.b in s.bookings && Current(s, c, Expiry)
    ensures ExpiryDid(s, Saga.Run(s, ExpirySteps(s, c, net)), c, net)
  {
    var s1, giveUp := ClaimStep(s, c.p), GiveUpSteps(c, CompletedSteps(s.bookings[c.b].log), net);
    ClaimIs(s, c, Expiry);
    GiveUpIs(s1, c, Expiry, net);
    RunOne(s, Claim(c.p));
    RunAppend(s, [Claim(c.p)], giveUp);
    ClaimThenGiveUp(s, s1, Saga.Run(s1, giveUp), c, net);
  }

  // ----- handleScheduleCancelled -----

  function CloseSteps(s: Sys, c: Copy, net: Net): seq<Step>
    requires c.b in s.bookings
  {
    if !Current(s, c, ScheduleClose) || c.status != Confirmed || !c.ordered then [Claim(c.p)]
    else [Claim(c.p)] + [Saga.Refund(c.p, net.up, net.answer)]
  }

  /** The booking is CANCELLED and its seats are left alone. One refund of its amount is made exactly
      when the copy shows it CONFIRMED and ordered and the payment service will. */
  ghost predicate CloseDid(s: Sys, s': Sys, c: Copy, net: Net)
    requires c.b in s.bookings
  {
    var bk, key := s.bookings[c.b], P.ScheduleCancel(c.b);
    && s'.db == s.db && s'.bookings == s.bookings[c.b := bk.(status := CancelledBooking, version := bk.version + 1)]
    && if c.status == Confirmed && c.ordered && net.up && Refundable(s.pay, c.b, bk.amount, key, net.answer)
       then PaidBack(s.pay, s'.pay, c.b, bk.amount, key, net.answer.value) else s'.pay == s.pay
  }

  lemma {:induction false} ClaimThenRefund(s: Sys, s1: Sys, c: Copy, net: Net)
    requires Holds(s, c, ScheduleClose) && ClaimWon(s, s1, c, ScheduleClose)
    ensures var s2 := if c.status == Confirmed && c.ordered then RefundStep(s1, c.p, net.up, net.answer) else s1;
            CloseDid(s, s2, c, net)
  {
    RefundDoes(s.pay, c.b, s.bookings[c.b].amount, P.ScheduleCancel(c.b), net.answer);
  }

  lemma {:induction false} CloseRuns(s: Sys, c: Copy, net: Net)
    requires c.b in s.bookings && Current(s, c, ScheduleClose)
    ensures var s1 := ClaimStep(s, c.p);
            Saga.Run(s, CloseSteps(s, c, net))
              == if c.status == Confirmed && c.ordered then RefundStep(s1, c.p, net.up, net.answer) else s1
  {
    RunOne(s, Claim(c.p));
    RunOneMore(s, [Claim(c.p)], Saga.Refund(c.p, net.up, net.answer));
  }

  lemma {:induction false} CloseOutcome(s: Sys, c: Copy, net: Net)
    requires Holds(s, c, ScheduleClose) && c.b in s.bookings && Current(s, c, ScheduleClose)
    ensures CloseDid(s, Saga.Run(s, CloseSteps(s, c, net)), c, net)
  {
    CloseRuns(s, c, net);
    ClaimIs(s, c, ScheduleClose);
    ClaimThenRefund(s, ClaimStep(s, c.p), c, net);
  }

  // ----- createBooking -----

  /** Process `c.p` runs createBooking for `c.b` and stands at `pc`; its copy has no payment order. */
  predicate Creates(s: Sys, c: Copy, pc: Pc) {
    c.p in s.procs && c.b in s.bookings && s.procs[c.p] == Proc(Creation, c.b, pc, c.status, c.version, c.ordered)
    && !c.ordered
  }

  /** The hold has been granted, and so all of it is there. */
  predicate Granted(s: Sys, c: Copy, hold: Net, until: int)
    requires c.b in s.bookings
  {
    var bk := s.bookings[c.b];
    hold.up && LockSeats(s.db, bk.sched, bk.seats, bk.user, until, bk.from, bk.to).1.Done?
  }

  /** The order is made too. */
  predicate Made(s: Sys, c: Copy, hold: Net, until: int, pay: Net)
    requires c.b in s.bookings
  {
    Granted(s, c, hold, until) && pay.up && s.bookings[c.b].amount > 0
  }

  /** The row of the booking after the hold, granted or not, and after the order, made or not. */
  function AfterHold(bk: Booking, held: bool, number: nat, until: int): Booking {
    bk.(log := bk.log + [Entry(HoldSeats, held)],
        hold := if held && Segmented(bk) then Some(HoldRef(number, until)) else bk.hold,
        status := if held then SeatsHeld else bk.status)
  }

  function AfterPay(bk: Booking, made: bool): Booking {
    bk.(log := bk.log + [Entry(CreatePayment, made)], status := if made then PaymentPending else bk.status,
        ordered := bk.ordered || made, creating := bk.creating && !made)
  }

  /** The row when both calls have been made, as far as the first lets it come. */
  function AfterBoth(s: Sys, c: Copy, hold: Net, until: int, pay: Net): Booking
    requires c.b in s.bookings
  {
    var held := Granted(s, c, hold, until);
    var bk := AfterHold(s.bookings[c.b], held, s.db.nextHold, until);
    if held then AfterPay(bk, Made(s, c, hold, until, pay)) else bk
  }

  function CreationCalls(s: Sys, c: Copy, hold: Net, ttl: nat, pay: Net): seq<Step>
    requires c.b in s.bookings
  {
    [Saga.Hold(c.p, hold.up, ttl)]
    + if Granted(s, c, hold, Deadline(s.clock, ttl)) then [Saga.Pay(c.p, pay.up)] else []
  }

  /** From the answer of the inventory on: make the order; where one of the calls fails, compensate and
      write FAILED. */
  function CreationRest(c: Copy, held: bool, made: bool, pay: Net, log: seq<LogEntry>, net: nat -> Net): seq<Step> {
    (if held then [Saga.Pay(c.p, pay.up)] else []) + if made then [] else GiveUpSteps(c, CompletedSteps(log), net)
  }

  lemma {:induction false} CreationRestShape(es: seq<Step>, c: Copy, made: bool, pay: Net, log: seq<LogEntry>,
      net: nat -> Net)
    ensures var giveUp := GiveUpSteps(c, CompletedSteps(log), net);
            && es + CreationRest(c, false, false, pay, log, net) == es + giveUp
            && es + CreationRest(c, true, made, pay, log, net)
               == es + [Saga.Pay(c.p, pay.up)] + if made then [] else giveUp
  {
  }

  function CreationSteps(s: Sys, c: Copy, hold: Net, ttl: nat, pay: Net, net: nat -> Net): seq<Step>
    requires c.b in s.bookings
  {
    var until := Deadline(s.clock, ttl);
    [Saga.Hold(c.p, hold.up, ttl)]
    + CreationRest(c, Granted(s, c, hold, until), Made(s, c, hold, until, pay), pay,
                   AfterBoth(s, c, hold, until, pay).log, net)
  }

  /** Both calls have been made: the seats are held exactly when they
      can be, until the deadline, and then there is an order exactly when its call gets through and the
      amount is positive. */
  ghost predicate HeldAndOrdered(s: Sys, mid: Sys, c: Copy, hold: Net, until: int, pay: Net)
    requires c.b in s.bookings
  {
    var bk, held, made := s.bookings[c.b], Granted(s, c, hold, until), Made(s, c, hold, until, pay);
    && (Q.ProperRows(s.db) && (Segmented(bk) ==> bk.from < bk.to) ==> (held <==> hold.up && Lockable(s.db, bk)))
    && (if held then Held(s.db, mid.db, bk, until) else mid.db == s.db)
    && (if made && c.b !in s.pay.orders then OrderMade(s.pay, mid.pay, c.b, bk.amount) else mid.pay == s.pay)
    && mid.bookings == s.bookings[c.b := AfterBoth(s, c, hold, until, pay)]
  }

  /** createBooking leaves the booking PAYMENT_PENDING with its hold and its order, or FAILED, with all
      given back that compensateAll tries. */
  ghost predicate CreationDid(s: Sys, mid: Sys, s': Sys, c: Copy, hold: Net, until: int, pay: Net, net: nat -> Net)
    requires c.b in s.bookings
  {
    && HeldAndOrdered(s, mid, c, hold, until, pay) && c.b in s'.bookings
    && if Made(s, c, hold, until, pay) then SameTables(mid, s') else GaveUp(mid, s', c, Creation, net)
  }

  ghost predicate HoldMade(s: Sys, s1: Sys, c: Copy, hold: Net, until: int)
    requires c.b in s.bookings
  {
    var bk, held := s.bookings[c.b], Granted(s, c, hold, until);
    && (Q.ProperRows(s.db) && (Segmented(bk) ==> bk.from < bk.to) ==> (held <==> hold.up && Lockable(s.db, bk)))
    && (if held then Held(s.db, s1.db, bk, until) else s1.db == s.db)
    && s1.pay == s.pay && s1.clock == s.clock && Creates(s1, c, if held then Paying else Loading)
    && s1.bookings == s.bookings[c.b := AfterHold(bk, held, s.db.nextHold, until)]
  }

  lemma {:induction false} HoldIs(s: Sys, c: Copy, hold: Net, until: int)
    requires RowsOwned(s.db) && Creates(s, c, Holding)
    ensures HoldMade(s, HoldStep(s, c.p, hold.up, until), c, hold, until)
  {
    var bk := s.bookings[c.b];
    var (db, reply) := Unless(hold.up, s.db, LockSeats(s.db, bk.sched, bk.seats, bk.user, until, bk.from, bk.to));
    HoldShape(s, c.p, hold.up, until, db, reply);
    LockHolds(s.db, bk, until);
    if Q.ProperRows(s.db) && (Segmented(bk) ==> bk.from < bk.to) { LockIsGrantedIff(s.db, bk, until); }
  }

  ghost predicate PayMade(s: Sys, s1: Sys, c: Copy, pay: Net)
    requires c.b in s.bookings
  {
    var bk := s.bookings[c.b];
    var made := pay.up && bk.amount > 0;
    && s1.db == s.db
    && (if made && c.b !in s.pay.orders then OrderMade(s.pay, s1.pay, c.b, bk.amount) else s1.pay == s.pay)
    && Creates(s1, c, if made then Stopped else Loading)
    && s1.bookings == s.bookings[c.b := AfterPay(bk, made)]
  }

  lemma {:induction false} PayIs(s: Sys, c: Copy, pay: Net)
    requires Creates(s, c, Paying)
    ensures PayMade(s, Saga.PayStep(s, c.p, pay.up), c, pay)
  {
    CreateDoes(s.pay, c.b, s.bookings[c.b].amount);
  }

  lemma {:induction false} HoldFailed(s: Sys, s1: Sys, c: Copy, hold: Net, until: int, pay: Net)
    requires c.b in s.bookings && HoldMade(s, s1, c, hold, until) && !Granted(s, c, hold, until)
    ensures HeldAndOrdered(s, s1, c, hold, until, pay) && Creates(s1, c, Loading)
  {
  }

  lemma {:induction false} RowAfterBoth(s: Sys, s1: Sys, mid: Sys, c: Copy, hold: Net, until: int, pay: Net)
    requires c.b in s.bookings && HoldMade(s, s1, c, hold, until) && Granted(s, c, hold, until)
    requires PayMade(s1, mid, c, pay)
    ensures mid.bookings == s.bookings[c.b := AfterBoth(s, c, hold, until, pay)]
    ensures Made(s, c, hold, until, pay) == (pay.up && s1.bookings[c.b].amount > 0)
    ensures s1.bookings[c.b].amount == s.bookings[c.b].amount
  {
    assert s1.bookings[c.b] == AfterHold(s.bookings[c.b], true, s.db.nextHold, until);
  }

  lemma {:induction false} HoldThenPay(s: Sys, s1: Sys, mid: Sys, c: Copy, hold: Net, until: int, pay: Net)
    requires c.b in s.bookings && HoldMade(s, s1, c, hold, until) && Granted(s, c, hold, until)
    requires PayMade(s1, mid, c, pay)
    ensures HeldAndOrdered(s, mid, c, hold, until, pay)
    ensures Creates(mid, c, if Made(s, c, hold, until, pay) then Stopped else Loading)
  {
    RowAfterBoth(s, s1, mid, c, hold, until, pay);
  }

  lemma {:induction false} HeldKeepsOwned(db: Db, db': Db, bk: Booking, until: int)
    requires SeatsOwned(db) && RowsOwned(db) && Held(db, db', bk, until)
    ensures SeatsOwned(db') && RowsOwned(db')
  {
  }

  lemma {:induction false} CreationRuns(s: Sys, mid: Sys, c: Copy, hold: Net, ttl: nat, pay: Net, net: nat -> Net)
    requires c.b in s.bookings && mid == Saga.Run(s, CreationCalls(s, c, hold, ttl, pay))
    ensures var until := Deadline(s.clock, ttl);
            Saga.Run(s, CreationSteps(s, c, hold, ttl, pay, net)) ==
              if Made(s, c, hold, until, pay) then mid
              else Saga.Run(mid, GiveUpSteps(c, CompletedSteps(AfterBoth(s, c, hold, until, pay).log), net))
  {
    var until := Deadline(s.clock, ttl);
    var calls := CreationCalls(s, c, hold, ttl, pay);
    RunAppend(s, calls, GiveUpSteps(c, CompletedSteps(AfterBoth(s, c, hold, until, pay).log), net));
    assert CreationSteps(s, c, hold, ttl, pay, net) ==
             calls + if Made(s, c, hold, until, pay) then []
                     else GiveUpSteps(c, CompletedSteps(AfterBoth(s, c, hold, until, pay).log), net);
    assert calls + [] == calls;
  }

  /** What createBooking comes to from its record on. */
  lemma {:induction false} CreationOutcome(s: Sys, c: Copy, hold: Net, ttl: nat, pay: Net, net: nat -> Net)
    returns (mid: Sys)
    requires Owned(s) && Creates(s, c, Holding)
    ensures CreationDid(s, mid, Saga.Run(s, CreationSteps(s, c, hold, ttl, pay, net)), c, hold, Deadline(s.clock, ttl),
                        pay, net)
  {
    mid := BothCalls(s, c, hold, ttl, pay);
    CreationRuns(s, mid, c, hold, ttl, pay, net);
    if !Made(s, c, hold, Deadline(s.clock, ttl), pay) { GiveUpIs(mid, c, Creation, net); }
  }

  lemma {:induction false} CallsRun(s: Sys, c: Copy, hold: Net, ttl: nat, pay: Net)
    requires c.b in s.bookings
    ensures var s1 := HoldStep(s, c.p, hold.up, Deadline(s.clock, ttl));
            Saga.Run(s, CreationCalls(s, c, hold, ttl, pay))
              == if Granted(s, c, hold, Deadline(s.clock, ttl)) then Saga.PayStep(s1, c.p, pay.up) else s1
  {
    var ask := Saga.Hold(c.p, hold.up, ttl);
    RunOne(s, ask);
    RunOneMore(s, [ask], Saga.Pay(c.p, pay.up));
    assert [ask] + [] == [ask];
  }

  lemma {:induction false} BothCalls(s: Sys, c: Copy, hold: Net, ttl: nat, pay: Net) returns (mid: Sys)
    requires Owned(s) && Creates(s, c, Holding)
    ensures mid == Saga.Run(s, CreationCalls(s, c, hold, ttl, pay)) && Owned(mid)
    ensures var until := Deadline(s.clock, ttl);
            && HeldAndOrdered(s, mid, c, hold, until, pay)
            && Creates(mid, c, if Made(s, c, hold, until, pay) then Stopped else Loading)
  {
    var until := Deadline(s.clock, ttl);
    CallsRun(s, c, hold, ttl, pay);
    mid := HoldStep(s, c.p, hold.up, until);
    HoldIs(s, c, hold, until);
    if Granted(s, c, hold, until) {
      PayIs(mid, c, pay);
      HoldThenPay(s, mid, Saga.PayStep(mid, c.p, pay.up), c, hold, until, pay);
      mid := Saga.PayStep(mid, c.p, pay.up);
      HeldKeepsOwned(s.db, mid.db, s.bookings[c.b], until);
    } else {
      HoldFailed(s, mid, c, hold, until, pay);
    }
  }
}
