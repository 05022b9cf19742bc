/** The optimistic versions: whoever wins the compare-and-swap owns the booking, alone. These
    results need no hypothesis on the inventory or the payments. */
module SagaControl {
  import opened Ledger
  import opened Saga
  import L = LedgerRuns
  import P = Payments

  /** The running confirmations: from a won claim to the last write. */
  predicate Owns(pr: Proc) {
    pr.kind == Success && (pr.pc == Calling || pr.pc == Finishing || pr.pc == Loading || pr.pc.Undoing?)
  }

  predicate PcFits(pr: Proc) {
    match pr.kind
    case Creation => pr.pc == Holding || pr.pc == Paying || pr.pc == Loading || pr.pc.Undoing? || pr.pc == Stopped
    case Success => pr.pc == Reading || pr.pc == Claiming || pr.pc == Calling || pr.pc == Finishing || pr.pc == Loading
                    || pr.pc.Undoing? || pr.pc == Stopped
    case Failure => pr.pc == Reading || pr.pc == Claiming || pr.pc.Undoing? || pr.pc == Stopped
    case Expiry => pr.pc == Reading || pr.pc == Claiming || pr.pc == Loading || pr.pc.Undoing? || pr.pc == Stopped
    case ScheduleClose => pr.pc == Reading || pr.pc == Claiming || pr.pc == Refunding || pr.pc == Stopped
  }

  /** A copy that still has the booking's version still has its status and its order. */
  predicate CopyIsOld(pr: Proc, bk: Booking) {
    && pr.seenVersion <= bk.version
    && (pr.seenVersion == bk.version ==> pr.seen == bk.status && pr.seenOrder == bk.ordered)
    && (pr.seenOrder ==> bk.ordered)
  }

  predicate ContenderFits(pr: Proc, p: ProcId, bk: Booking) {
    && !bk.creating
    && (pr.pc != Reading ==> CopyIsOld(pr, bk))
    && (pr.pc == Claiming ==> Claimable(pr.kind, pr.seen))
    && (Owns(pr) ==> bk.status == Confirming && bk.claimer == p)
    && (pr.kind == Failure && pr.pc.Undoing? ==> bk.status == FailedBooking)
    && (pr.kind == Expiry && (pr.pc == Loading || pr.pc.Undoing?) ==> bk.status == Expired)
    && (pr.pc == Refunding ==> bk.status == CancelledBooking)
  }

  predicate CreationFits(pr: Proc, p: ProcId, bk: Booking) {
    pr.pc != Stopped ==>
      && bk.creating && bk.maker == p && !pr.seenOrder
      && (pr.pc == Holding ==> bk.status == Pending && bk.log == [] && bk.hold == None)
      && (pr.pc == Paying ==> bk.status == SeatsHeld)
  }

  predicate ProcFits(s: Sys, p: ProcId)
    requires p in s.procs
  {
    var pr := s.procs[p];
    && pr.booking in s.bookings && PcFits(pr)
    && if pr.kind == Creation then CreationFits(pr, p, s.bookings[pr.booking])
       else ContenderFits(pr, p, s.bookings[pr.booking])
  }

  predicate BookingFits(s: Sys, b: BookingId)
    requires b in s.bookings
  {
    var bk := s.bookings[b];
    && (bk.creating ==> (bk.status == Pending || bk.status == SeatsHeld) && bk.version == 0)
    && (bk.status == Pending || bk.status == SeatsHeld ==> !bk.ordered)
    && (bk.status == PaymentPending || bk.status == Confirming || bk.status == Confirmed ==> bk.ordered)
    && (bk.status == Confirming ==>
          bk.claimer in s.procs && s.procs[bk.claimer].booking == b && Owns(s.procs[bk.claimer]))
  }

  predicate Control(s: Sys) {
    && (forall p {:trigger ProcFits(s, p)} | p in s.procs :: ProcFits(s, p))
    && (forall b {:trigger BookingFits(s, b)} | b in s.bookings :: BookingFits(s, b))
  }

  /** Only process `p` and booking `b` differ between the two systems. */
  predicate OnlyMoves(s: Sys, s': Sys, p: ProcId, b: BookingId) {
    && s'.procs.Keys == s.procs.Keys + {p} && s'.bookings.Keys == s.bookings.Keys + {b}
    && (forall q | q in s.procs && q != p :: s'.procs[q] == s.procs[q])
    && (forall c | c in s.bookings && c != b :: s'.bookings[c] == s.bookings[c])
  }

  /** What a booking may change into under other processes' feet. */
  predicate Steady(bk: Booking, bk': Booking) {
    && bk.version <= bk'.version && (bk.creating <==> bk'.creating)
    && (bk'.version == bk.version ==> bk'.status == bk.status && bk'.ordered == bk.ordered)
    && (bk.ordered ==> bk'.ordered) && bk'.maker == bk.maker
    && (bk'.status != bk.status ==> !bk.creating && (bk.status == Confirming || Claimable(ScheduleClose, bk.status)))
    && (bk.status == Confirming && bk'.status == Confirming ==> bk'.claimer == bk.claimer)
  }

  /** The frame: a step of `p` on `b` that fits itself, and is steady for the others, keeps control. */
  lemma {:induction false} MoveKeepsControl(s: Sys, s': Sys, p: ProcId, b: BookingId)
    requires Control(s) && OnlyMoves(s, s', p, b)
    requires p in s'.procs && s'.procs[p].booking == b && ProcFits(s', p)
    requires b in s'.bookings && BookingFits(s', b)
    requires p in s.procs ==> s.procs[p].booking == b
    requires forall q | q in s.procs && q != p && s.procs[q].booking == b :: ProcFits(s', q)
    ensures Control(s')
  {
    forall q | q in s'.procs ensures ProcFits(s', q) {
      if q != p { assert ProcFits(s, q); }
    }
    forall c | c in s'.bookings ensures BookingFits(s', c) {
      if c != b { assert BookingFits(s, c); }
    }
  }

  /** Steps of contenders: the other processes of the booking keep fitting. */
  lemma {:induction false} ContenderMoves(s: Sys, s': Sys, p: ProcId, b: BookingId)
    requires Control(s) && OnlyMoves(s, s', p, b) && p in s.procs && s.procs[p].booking == b && b in s.bookings
    requires s.procs[p].kind != Creation && s'.procs[p].booking == b
    requires ProcFits(s', p) && BookingFits(s', b)
    requires Steady(s.bookings[b], s'.bookings[b])
    requires s'.bookings[b].status == s.bookings[b].status
             || Claimable(ScheduleClose, s.bookings[b].status)
             || (s.bookings[b].status == Confirming && s.bookings[b].claimer == p)
    ensures Control(s')
  {
    assert ProcFits(s, p) && BookingFits(s, b);
    forall q | q in s.procs && q != p && s.procs[q].booking == b ensures ProcFits(s', q) {
      assert ProcFits(s, q);
    }
    MoveKeepsControl(s, s', p, b);
  }

  /** Steps of createBooking: nobody else has started on the booking. */
  lemma {:induction false} CreationMoves(s: Sys, s': Sys, p: ProcId, b: BookingId)
    requires Control(s) && OnlyMoves(s, s', p, b) && p in s.procs && s.procs[p].booking == b && b in s.bookings
    requires s.procs[p].kind == Creation && s.procs[p].pc != Stopped && s'.procs[p].booking == b
    requires ProcFits(s', p) && BookingFits(s', b)
    ensures Control(s')
  {
    assert ProcFits(s, p);
    forall q | q in s.procs && q != p && s.procs[q].booking == b ensures ProcFits(s', q) {
      assert ProcFits(s, q);
    }
    MoveKeepsControl(s, s', p, b);
  }

  lemma {:induction false} BookKeepsControl(s: Sys, e: Step)
    requires Control(s) && e.Book?
    ensures Control(Next(s, e))
  {
    var s' := Next(s, e);
    if s' != s {
      forall q | q in s.procs ensures s.procs[q].booking != e.b { assert ProcFits(s, q); }
      MoveKeepsControl(s, s', e.p, e.b);
    }
  }

  lemma {:induction false} HoldKeepsControl(s: Sys, p: ProcId, up: bool, until: int)
    requires Control(s)
    ensures Control(HoldStep(s, p, up, until))
  {
    if At(s, p, Creation, Holding) {
      assert ProcFits(s, p) && BookingFits(s, s.procs[p].booking);
      CreationMoves(s, HoldStep(s, p, up, until), p, s.procs[p].booking);
    }
  }

  lemma {:induction false} PayKeepsControl(s: Sys, p: ProcId, up: bool)
    requires Control(s)
    ensures Control(PayStep(s, p, up))
  {
    if At(s, p, Creation, Paying) {
      assert ProcFits(s, p) && BookingFits(s, s.procs[p].booking);
      CreationMoves(s, PayStep(s, p, up), p, s.procs[p].booking);
    }
  }

  lemma {:induction false} AbandonKeepsControl(s: Sys, p: ProcId)
    requires Control(s)
    ensures Control(AbandonStep(s, p))
  {
    var s' := AbandonStep(s, p);
    if s' != s {
      assert ProcFits(s, p) && BookingFits(s, s.procs[p].booking);
      CreationMoves(s, s', p, s.procs[p].booking);
    }
  }

  lemma {:induction false} SpawnKeepsControl(s: Sys, p: ProcId, kind: Kind, b: BookingId)
    requires Control(s)
    ensures Control(SpawnStep(s, p, kind, b))
  {
    var s' := SpawnStep(s, p, kind, b);
    if s' != s {
      assert BookingFits(s, b);
      forall q | q in s.procs && s.procs[q].booking == b ensures ProcFits(s', q) { assert ProcFits(s, q); }
      MoveKeepsControl(s, s', p, b);
    }
  }

  lemma {:induction false} ReadKeepsControl(s: Sys, p: ProcId)
    requires Control(s)
    ensures Control(ReadStep(s, p))
  {
    if p in s.procs && s.procs[p].pc == Reading && s.procs[p].booking in s.bookings {
      assert ProcFits(s, p) && BookingFits(s, s.procs[p].booking);
      ContenderMoves(s, ReadStep(s, p), p, s.procs[p].booking);
    }
  }

  lemma {:induction false} ClaimKeepsControl(s: Sys, p: ProcId)
    requires Control(s)
    ensures Control(ClaimStep(s, p))
  {
    if p in s.procs && s.procs[p].pc == Claiming && s.procs[p].booking in s.bookings {
      var b := s.procs[p].booking;
      assert ProcFits(s, p) && BookingFits(s, b);
      if s.bookings[b].version != s.procs[p].seenVersion {
        ContenderMoves(s, Move(s, p, Stopped), p, b);
      } else {
        ClaimWins(s, p, b);
      }
    }
  }

  lemma {:induction false} ClaimWins(s: Sys, p: ProcId, b: BookingId)
    requires Control(s) && p in s.procs && s.procs[p].pc == Claiming && s.procs[p].booking == b && b in s.bookings
    requires s.bookings[b].version == s.procs[p].seenVersion && s.procs[p].kind != Creation
    requires ProcFits(s, p) && BookingFits(s, b)
    ensures Control(Move(Put(s, b, Claimed(s.procs[p].kind, s.bookings[b], p)), p, AfterClaim(s.procs[p])))
  {
    var pr, bk := s.procs[p], s.bookings[b];
    var bk' := Claimed(pr.kind, bk, p);
    assert bk' == bk.(status := bk'.status, version := bk.version + 1, claimer := bk'.claimer);
    assert PcFits(pr.(pc := AfterClaim(pr))) && ContenderFits(pr.(pc := AfterClaim(pr)), p, bk');
    ContenderMoves(s, Move(Put(s, b, bk'), p, AfterClaim(pr)), p, b);
  }

  lemma {:induction false} CallKeepsControl(s: Sys, p: ProcId, up: bool)
    requires Control(s)
    ensures Control(CallStep(s, p, up))
  {
    if At(s, p, Success, Calling) {
      assert ProcFits(s, p) && BookingFits(s, s.procs[p].booking);
      ContenderMoves(s, CallStep(s, p, up), p, s.procs[p].booking);
    }
  }

  lemma {:induction false} FinishKeepsControl(s: Sys, p: ProcId, up: bool)
    requires Control(s)
    ensures Control(FinishStep(s, p, up))
  {
    if At(s, p, Success, Finishing) {
      assert ProcFits(s, p) && BookingFits(s, s.procs[p].booking);
      ContenderMoves(s, FinishStep(s, p, up), p, s.procs[p].booking);
    }
  }

  lemma {:induction false} LoadKeepsControl(s: Sys, p: ProcId)
    requires Control(s)
    ensures Control(LoadStep(s, p))
  {
    var s' := LoadStep(s, p);
    if p in s.procs && s.procs[p].pc == Loading && s.procs[p].booking in s.bookings {
      var b := s.procs[p].booking;
      assert ProcFits(s, p) && BookingFits(s, b);
      if s.procs[p].kind == Creation { CreationMoves(s, s', p, b); } else { ContenderMoves(s, s', p, b); }
    }
  }

  /** A compensation touches the booking's log, the rest of the list and nothing else here. */
  lemma {:induction false} UndoShape(s: Sys, p: ProcId, up: bool, answer: Option<P.GatewayRefundId>)
    requires p in s.procs && s.procs[p].pc.Undoing? && s.procs[p].pc.todo != [] && s.procs[p].booking in s.bookings
    ensures var s' := UndoStep(s, p, up, answer);
            var b := s.procs[p].booking;
            && OnlyMoves(s, s', p, b) && s'.procs[p] == s.procs[p].(pc := Undoing(s.procs[p].pc.todo[1..]))
            && s'.bookings[b] == s.bookings[b].(log := s'.bookings[b].log)
  {
  }

  /** What a call to hold the seats, answered by `reply`, makes of the machine. */
  lemma {:induction false} HoldShape(s: Sys, p: ProcId, up: bool, until: int, db: Db, reply: Reply)
    requires At(s, p, Creation, Holding)
    requires var bk := s.bookings[s.procs[p].booking];
             (db, reply) == Unless(up, s.db, LockSeats(s.db, bk.sched, bk.seats, bk.user, until, bk.from, bk.to))
    ensures var s' := HoldStep(s, p, up, until);
            var b := s.procs[p].booking;
            && s'.db == db && s'.pay == s.pay && s'.due == s.due
            && s'.procs == s.procs[p := s.procs[p].(pc := if reply.Done? then Paying else Loading)]
            && s'.bookings == s.bookings[b := HeldOr(s.bookings[b], s.db.nextHold, until, reply.Done?)]
  {
  }

  /** What a confirmation that is granted makes of it. */
  lemma {:induction false} CallShape(s: Sys, p: ProcId, db: Db, reply: Reply)
    requires At(s, p, Success, Calling) && reply.Done?
    requires var b := s.procs[p].booking;
             var bk := s.bookings[b];
             (db, reply) == ConfirmSeats(s.db, bk.sched, bk.seats, bk.user, b, bk.from, bk.to)
    ensures var s' := CallStep(s, p, true);
            var b := s.procs[p].booking;
            s' == s.(db := db, procs := s.procs[p := s.procs[p].(pc := Finishing)],
                     bookings := s.bookings[b := Logged(s.bookings[b], ConfirmStep, true)])
  {
  }

  /** What a call to release the seats makes of it. */
  lemma {:induction false} ReleaseShape(s: Sys, p: ProcId, up: bool, answer: Option<P.GatewayRefundId>, db: Db,
      reply: Reply, rest: seq<SagaStep>)
    requires p in s.procs && s.procs[p].booking in s.bookings && s.procs[p].pc == Undoing([HoldSeats] + rest)
    requires var bk := s.bookings[s.procs[p].booking];
             (db, reply) == Unless(up, s.db, UnlockSeats(s.db, bk.sched, bk.seats, bk.user, bk.from, bk.to))
    ensures var s' := UndoStep(s, p, up, answer);
            var b := s.procs[p].booking;
            var bk := s.bookings[b];
            && s'.db == (if reply.Done? then db else s.db) && s'.pay == s.pay
            && s'.procs == s.procs[p := s.procs[p].(pc := Undoing(rest))]
            && s'.bookings == if reply.Done? then s.bookings[b := bk.(log := Compensate(bk.log, HoldSeats))]
                               else s.bookings
  {
  }

  function HeldOr(bk: Booking, number: nat, until: int, ok: bool): Booking {
    if !ok then Logged(bk, HoldSeats, false)
    else
      var held := Logged(bk, HoldSeats, true).(status := SeatsHeld);
      if Segmented(bk) then held.(hold := Some(HoldRef(number, until))) else held
  }

  /** The tables after a compensation. */
  lemma {:induction false} UndoTables(s: Sys, p: ProcId, up: bool, answer: Option<P.GatewayRefundId>)
    requires p in s.procs && s.procs[p].pc.Undoing? && s.procs[p].pc.todo != [] && s.procs[p].booking in s.bookings
    ensures var s' := UndoStep(s, p, up, answer);
            var b := s.procs[p].booking;
            var bk := s.bookings[b];
            && s'.listed == s.listed && s'.clock == s.clock && s'.due == s.due
            && match s.procs[p].pc.todo[0] {
                 case HoldSeats =>
                   s'.db == s.db || s'.db == UnlockSeats(s.db, bk.sched, bk.seats, bk.user, bk.from, bk.to).0
                 case ConfirmStep => s'.db == s.db || s'.db == CancelBooking(s.db, bk.sched, b).0
                 case CreatePayment => s'.db == s.db
               }
  {
  }

  lemma {:induction false} UndoKeepsControl(s: Sys, p: ProcId, up: bool, answer: Option<P.GatewayRefundId>)
    requires Control(s)
    ensures Control(UndoStep(s, p, up, answer))
  {
    if p in s.procs && s.procs[p].pc.Undoing? && s.procs[p].pc.todo != [] && s.procs[p].booking in s.bookings {
      UndoShape(s, p, up, answer);
      LogMoveKeepsControl(s, UndoStep(s, p, up, answer), p, s.procs[p].booking);
    }
  }

  lemma {:induction false} LogMoveKeepsControl(s: Sys, s': Sys, p: ProcId, b: BookingId)
    requires Control(s) && OnlyMoves(s, s', p, b) && p in s.procs && s.procs[p].booking == b && b in s.bookings
    requires s.procs[p].pc.Undoing? && s'.procs[p].pc.Undoing? && s'.procs[p] == s.procs[p].(pc := s'.procs[p].pc)
    requires s'.bookings[b] == s.bookings[b].(log := s'.bookings[b].log)
    ensures Control(s')
  {
    assert ProcFits(s, p) && BookingFits(s, b);
    if s.procs[p].kind == Creation { CreationMoves(s, s', p, b); } else { ContenderMoves(s, s', p, b); }
  }

  lemma {:induction false} FailKeepsControl(s: Sys, p: ProcId)
    requires Control(s)
    ensures Control(FailStep(s, p))
  {
    if p in s.procs && s.procs[p].pc == Undoing([]) && s.procs[p].booking in s.bookings {
      var b := s.procs[p].booking;
      assert ProcFits(s, p) && BookingFits(s, b);
      if s.procs[p].kind == Creation {
        CreationMoves(s, FailStep(s, p), p, b);
      } else if s.procs[p].kind == Success {
        ContenderMoves(s, FailStep(s, p), p, b);
      } else {
        ContenderMoves(s, Move(s, p, Stopped), p, b);
      }
    }
  }

  lemma {:induction false} RefundKeepsControl(s: Sys, p: ProcId, up: bool, answer: Option<P.GatewayRefundId>)
    requires Control(s)
    ensures Control(RefundStep(s, p, up, answer))
  {
    if At(s, p, ScheduleClose, Refunding) {
      assert ProcFits(s, p) && BookingFits(s, s.procs[p].booking);
      ContenderMoves(s, RefundStep(s, p, up, answer), p, s.procs[p].booking);
    }
  }

  lemma {:induction false} OutsideKeepsControl(s: Sys, s': Sys)
    requires Control(s) && s'.procs == s.procs && s'.bookings == s.bookings
    ensures Control(s')
  {
    forall p | p in s'.procs ensures ProcFits(s', p) { assert ProcFits(s, p); }
    forall b | b in s'.bookings ensures BookingFits(s', b) { assert BookingFits(s, b); }
  }

  lemma {:induction false} CreationKeepsControl(s: Sys, e: Step)
    requires Control(s)
    requires e.Book? || e.Hold? || e.Pay? || e.Abandon?
    ensures Control(Next(s, e))
  {
    match e
    case Book(_, _, _, _, _, _, _, _) => BookKeepsControl(s, e);
    case Hold(p, up, ttl) => HoldKeepsControl(s, p, up, L.Deadline(s.clock, ttl));
    case Pay(p, up) => PayKeepsControl(s, p, up);
    case Abandon(p) => AbandonKeepsControl(s, p);
  }

  lemma {:induction false} ContenderKeepsControl(s: Sys, e: Step)
    requires Control(s)
    requires e.Spawn? || e.Read? || e.Claim?
    ensures Control(Next(s, e))
  {
    match e
    case Spawn(p, kind, b) => SpawnKeepsControl(s, p, kind, b);
    case Read(p) => ReadKeepsControl(s, p);
    case Claim(p) => ClaimKeepsControl(s, p);
  }

  lemma {:induction false} ClaimedKeepsControl(s: Sys, e: Step)
    requires Control(s)
    requires e.Call? || e.Finish? || e.Load? || e.Undo? || e.Fail? || e.Refund?
    ensures Control(Next(s, e))
  {
    match e
    case Call(p, up) => CallKeepsControl(s, p, up);
    case Finish(p, up) => FinishKeepsControl(s, p, up);
    case Load(p) => LoadKeepsControl(s, p);
    case Undo(p, up, answer) => UndoKeepsControl(s, p, up, answer);
    case Fail(p) => FailKeepsControl(s, p);
    case Refund(p, up, answer) => RefundKeepsControl(s, p, up, answer);
  }

  lemma {:induction false} NextKeepsControl(s: Sys, e: Step)
    requires Control(s)
    ensures Control(Next(s, e))
  {
    if e.Book? || e.Hold? || e.Pay? || e.Abandon? {
      CreationKeepsControl(s, e);
    } else if e.Spawn? || e.Read? || e.Claim? {
      ContenderKeepsControl(s, e);
    } else if e.Call? || e.Finish? || e.Load? || e.Undo? || e.Fail? || e.Refund? {
      ClaimedKeepsControl(s, e);
    } else {
      OutsideKeepsControl(s, Next(s, e));
    }
  }

  lemma {:induction false} RunKeepsControl(s: Sys, es: seq<Step>)
    requires Control(s)
    ensures Control(Run(s, es))
    decreases |es|
  {
    if es != [] {
      NextKeepsControl(s, es[0]);
      RunKeepsControl(Next(s, es[0]), es[1..]);
    }
  }

  // ----- what control gives -----

  /** While a booking is CONFIRMING, exactly one running handler owns it, in every run. */
  lemma {:induction false} OneHandlerConfirms(es: seq<Step>, b: BookingId)
    requires b in Run(START, es).bookings && Run(START, es).bookings[b].status == Confirming
    ensures var s := Run(START, es);
            exists p :: p in s.procs && s.procs[p].booking == b && Owns(s.procs[p])
              && forall q | q in s.procs && s.procs[q].booking == b && Owns(s.procs[q]) :: q == p
  {
    RunKeepsControl(START, es);
    var s := Run(START, es);
    assert BookingFits(s, b);
    forall q | q in s.procs && s.procs[q].booking == b && Owns(s.procs[q]) ensures q == s.bookings[b].claimer {
      assert ProcFits(s, q);
    }
  }

  /** The edges of a booking's life. */
  predicate Edge(x: BookingStatus, y: BookingStatus) {
    match x
    case Pending => y == SeatsHeld || y == FailedBooking || y == Expired || y == CancelledBooking
    case SeatsHeld => y == PaymentPending || y == FailedBooking || y == Expired || y == CancelledBooking
    case PaymentPending => y == Confirming || y == FailedBooking || y == Expired || y == CancelledBooking
    case Confirming => y == Confirmed || y == FailedBooking
    case Confirmed => y == CancelledBooking
    case _ => false
  }

  /** Still to be reached from `x` in one or more edges. */
  predicate Later(x: BookingStatus, y: BookingStatus) {
    match x
    case Pending => y != Pending
    case SeatsHeld => y != Pending && y != SeatsHeld
    case PaymentPending => y != Pending && y != SeatsHeld && y != PaymentPending
    case Confirming => y == Confirmed || y == FailedBooking || y == CancelledBooking
    case Confirmed => y == CancelledBooking
    case _ => false
  }

  predicate OneStep(bk: Booking, bk': Booking) {
    && bk'.version >= bk.version
    && (bk'.status == bk.status || (Edge(bk.status, bk'.status)
        && (bk.status == Pending || bk.status == SeatsHeld || bk'.version > bk.version)))
  }

  /** Each step moves a booking along one edge at most, and from PAYMENT_PENDING on no edge
      is taken without a new version. */
  lemma {:induction false} StepTakesAnEdge(s: Sys, e: Step, b: BookingId)
    requires Control(s) && b in s.bookings
    ensures b in Next(s, e).bookings && OneStep(s.bookings[b], Next(s, e).bookings[b])
  {
    if e.Book? || e.Abandon? || e.Spawn? || e.Read? || e.Load? || e.Refund? {
    } else if e.Hold? || e.Pay? || e.Call? {
      CallsTakeAnEdge(s, e, b);
    } else if e.Claim? || e.Finish? || e.Fail? {
      WritesTakeAnEdge(s, e, b);
    } else if e.Undo? {
      if e.p in s.procs && s.procs[e.p].pc.Undoing? && s.procs[e.p].pc.todo != []
         && s.procs[e.p].booking in s.bookings {
        UndoShape(s, e.p, e.up, e.answer);
      }
    } else {
      assert Next(s, e).bookings == s.bookings;
    }
  }

  lemma {:induction false} CallsTakeAnEdge(s: Sys, e: Step, b: BookingId)
    requires Control(s) && b in s.bookings && (e.Hold? || e.Pay? || e.Call?)
    ensures b in Next(s, e).bookings && OneStep(s.bookings[b], Next(s, e).bookings[b])
  {
    if e.p in s.procs { assert ProcFits(s, e.p); }
  }

  lemma {:induction false} WritesTakeAnEdge(s: Sys, e: Step, b: BookingId)
    requires Control(s) && b in s.bookings && (e.Claim? || e.Finish? || e.Fail?)
    ensures b in Next(s, e).bookings && OneStep(s.bookings[b], Next(s, e).bookings[b])
  {
    if e.p in s.procs { assert ProcFits(s, e.p); }
    assert BookingFits(s, b);
  }

  /** Exclusive claim: over any continuation of any run, a booking that has left a status never
      comes back to it; FAILED, EXPIRED and CANCELLED are absorbing, CONFIRMED can only become
      CANCELLED, and of the four contenders at most one takes it out of PAYMENT_PENDING. */
  lemma {:induction false} LifeIsOneWay(s: Sys, es: seq<Step>, b: BookingId)
    requires Control(s) && b in s.bookings
    ensures b in Run(s, es).bookings
    ensures var bk, bk' := s.bookings[b], Run(s, es).bookings[b];
            && bk'.version >= bk.version
            && (bk'.status == bk.status || Later(bk.status, bk'.status))
            && (bk'.status != bk.status ==> bk.status == Pending || bk.status == SeatsHeld || bk'.version > bk.version)
    decreases |es|
  {
    if es != [] {
      StepTakesAnEdge(s, es[0], b);
      NextKeepsControl(s, es[0]);
      LifeIsOneWay(Next(s, es[0]), es[1..], b);
    }
  }

  lemma {:induction false} RunSplits(s: Sys, es: seq<Step>, es': seq<Step>)
    ensures Run(s, es + es') == Run(Run(s, es), es')
    decreases |es|
  {
    if es == [] {
      assert [] + es' == es';
    } else {
      assert (es + es')[1..] == es[1..] + es';
      RunSplits(Next(s, es[0]), es[1..], es');
    }
  }

  /** The status of booking `b` after the first `i` steps of a run. */
  function StatusAt(es: seq<Step>, i: nat, b: BookingId): Option<BookingStatus>
    requires i <= |es|
  {
    var s := Run(START, es[..i]);
    if b in s.bookings then Some(s.bookings[b].status) else None
  }

  /** In every run at most one step takes a booking out of PAYMENT_PENDING, whichever of the four
      contenders makes it. */
  lemma {:induction false} TakenOnce(es: seq<Step>, i: nat, j: nat, b: BookingId)
    requires i < j < |es|
    requires StatusAt(es, i, b) == Some(PaymentPending) && StatusAt(es, i + 1, b) != Some(PaymentPending)
    ensures StatusAt(es, j, b).Some? && StatusAt(es, j, b) != Some(PaymentPending)
  {
    var before, after := Run(START, es[..i]), Run(START, es[..i + 1]);
    RunKeepsControl(START, es[..i]);
    RunKeepsControl(START, es[..i + 1]);
    assert es[..i + 1] == es[..i] + es[i..i + 1] && es[..j] == es[..i + 1] + es[i + 1..j];
    RunSplits(START, es[..i], es[i..i + 1]);
    RunSplits(START, es[..i + 1], es[i + 1..j]);
    LifeIsOneWay(before, es[i..i + 1], b);
    LifeIsOneWay(after, es[i + 1..j], b);
  }

  /** Of two claims on one booking that were prepared by the same version, one loses. */
  lemma {:induction false} SecondClaimLoses(s: Sys, p: ProcId, q: ProcId, es: seq<Step>)
    requires Control(s) && p != q && p in s.procs && q in s.procs && s.procs[p].booking == s.procs[q].booking
    requires s.procs[p].pc == Claiming && s.procs[q].pc == Claiming && s.procs[p].seenVersion == s.procs[q].seenVersion
    requires s.procs[p].booking in s.bookings && s.bookings[s.procs[p].booking].version == s.procs[p].seenVersion
    requires q in Run(Next(s, Claim(p)), es).procs && Run(Next(s, Claim(p)), es).procs[q] == s.procs[q]
    ensures var s2 := Run(Next(s, Claim(p)), es);
            && Claimed(s.procs[p].kind, s.bookings[s.procs[p].booking], p)
               == Next(s, Claim(p)).bookings[s.procs[p].booking]
            && Next(s2, Claim(q)).bookings == s2.bookings && Next(s2, Claim(q)).procs[q].pc == Stopped
  {
    var b := s.procs[p].booking;
    assert ProcFits(s, p) && ProcFits(s, q);
    NextKeepsControl(s, Claim(p));
    LifeIsOneWay(Next(s, Claim(p)), es, b);
  }
}
