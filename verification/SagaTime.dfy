/** Time in the saga: a hold that has not run out is still there, and the expiry job lists only what
    has. So a confirmation that arrives in time reaches its own rows, and the end-to-end results
    follow for all runs whose confirmations are on time. */
module SagaTime {
  import opened Ledger
  import opened Saga
  import opened SagaControl
  import opened SagaSeats
  import opened SagaCalls
  import L = LedgerRuns
  import P = Payments

  predicate NoConfirm(log: seq<LogEntry>) {
    forall e | e in log :: e.step != ConfirmStep
  }

  /** A hold that was taken, not released, not confirmed and has not run out is still LOCKED. */
  predicate LiveFits(s: Sys, b: BookingId)
    requires b in s.bookings
  {
    var bk := s.bookings[b];
    bk.hold.Some? && HoldDone(bk.log) && NoConfirm(bk.log) ==>
      (s.clock <= bk.hold.value.until ==> HoldsLocked(s.db.rows, bk))
  }

  /** Process `p` is at `pc` for booking `b`. */
  predicate Stands(s: Sys, p: ProcId, b: BookingId, pc: Pc) {
    p in s.procs && s.procs[p].booking == b && s.procs[p].pc == pc
  }

  /** On its way to a confirmation. */
  predicate Ready(s: Sys, b: BookingId)
    requires b in s.bookings
  {
    var bk := s.bookings[b];
    || bk.status == PaymentPending
    || (bk.status == Confirming && Stands(s, bk.claimer, b, Calling))
    || (bk.status == SeatsHeld && Stands(s, bk.maker, b, Paying))
  }

  predicate ReadyLog(bk: Booking) {
    HoldDone(bk.log) && NoConfirm(bk.log) && (Segmented(bk) ==> bk.hold.Some?)
  }

  predicate ReadyFits(s: Sys, b: BookingId)
    requires b in s.bookings
  {
    Ready(s, b) ==> ReadyLog(s.bookings[b])
  }

  /** What the expiry job has listed has run out and has not been confirmed since. */
  predicate PastList(s: Sys) {
    forall k | k in s.listed && k in s.db.rows ::
      s.db.rows[k].status == Locked && Before(s.db.rows[k].expires, s.clock)
  }

  predicate TimeInv(s: Sys) {
    && PastList(s)
    && (forall b {:trigger LiveFits(s, b)} | b in s.bookings :: LiveFits(s, b))
    && (forall b {:trigger ReadyFits(s, b)} | b in s.bookings :: ReadyFits(s, b))
  }

  // ----- a fair step is a proper one -----

  /** A confirmation on time names its own rows only. */
  lemma {:induction false} OnTimeNamesOwn(s: Sys, p: ProcId)
    requires SeatInv(s) && Control(s) && TimeInv(s) && At(s, p, Success, Calling)
    requires OnTime(s, s.bookings[s.procs[p].booking])
    ensures NamesOwn(s, s.bookings[s.procs[p].booking])
  {
    var b := s.procs[p].booking;
    var bk := s.bookings[b];
    assert ProcFits(s, p) && ReadyFits(s, b) && LiveFits(s, b) && SeatFits(s, b);
    if Segmented(bk) {
      forall k | k in NamedBy(s, bk) ensures bk.hold.Some? && k.hold == bk.hold.value.number {
        LiveHoldExcludes(s, b, k);
      }
    }
  }

  lemma {:induction false} FairIsProper(s: Sys, e: Step)
    requires SeatInv(s) && Control(s) && TimeInv(s) && Fair(s, e)
    ensures Proper(s, e)
  {
    if e.Call? && At(s, e.p, Success, Calling) { OnTimeNamesOwn(s, e.p); }
  }

  // ----- live holds stay -----

  /** The rows of every booking but `b` are as they were. */
  predicate OthersKept(s: Sys, rows': Rows, b: BookingId) {
    forall c | c in s.bookings && c != b :: Mine(rows', s.bookings[c]) == Mine(s.db.rows, s.bookings[c])
  }

  lemma {:induction false} OnlyHoldKeepsOthers(s: Sys, rows': Rows, b: BookingId, h: nat)
    requires SeatInv(s) && OnlyHold(s.db.rows, rows', h) && (h in s.holders ==> s.holders[h] == b)
    ensures OthersKept(s, rows', b)
  {
    forall c | c in s.bookings && c != b ensures Mine(rows', s.bookings[c]) == Mine(s.db.rows, s.bookings[c]) {
      assert SeatFits(s, c);
      OtherHoldKept(s, rows', b, c, h);
    }
  }

  /** Where a booking's rows and core stay, and its log does not newly ask for more, its hold fits. */
  lemma {:induction false} LiveStays(s: Sys, s': Sys, c: BookingId)
    requires c in s.bookings && c in s'.bookings && LiveFits(s, c) && s.clock <= s'.clock
    requires SameCore(s.bookings[c], s'.bookings[c])
    requires Mine(s'.db.rows, s.bookings[c]) == Mine(s.db.rows, s.bookings[c])
    requires HoldDone(s'.bookings[c].log) ==> HoldDone(s.bookings[c].log)
    requires NoConfirm(s'.bookings[c].log) ==> NoConfirm(s.bookings[c].log)
    ensures LiveFits(s', c)
  {
    var bk, bk' := s.bookings[c], s'.bookings[c];
    CoreDecides(s'.db.rows, c, bk, bk');
    if bk.hold.Some? { SameAll(Mine(s.db.rows, bk), bk, bk', LockedRow(bk)); }
  }

  /** A step of `p` on `b`: the others' holds are kept, and `b`'s fits. */
  lemma {:induction false} MoveKeepsLive(s: Sys, s': Sys, p: ProcId, b: BookingId)
    requires TimeInv(s) && OnlyMoves(s, s', p, b) && s'.clock == s.clock && OthersKept(s, s'.db.rows, b)
    requires b in s'.bookings && LiveFits(s', b)
    ensures forall c | c in s'.bookings :: LiveFits(s', c)
  {
    forall c | c in s'.bookings ensures LiveFits(s', c) {
      if c != b {
        assert LiveFits(s, c);
        LiveStays(s, s', c);
      }
    }
  }

  /** Process `p` and the status of `b` move, and neither the rows nor what the log and the hold of
      `b` say of it. */
  predicate MovesStatus(s: Sys, s': Sys, p: ProcId, b: BookingId) {
    && OnlyMoves(s, s', p, b) && s'.clock == s.clock && s'.db.rows == s.db.rows
    && b in s.bookings && b in s'.bookings && SameCore(s.bookings[b], s'.bookings[b])
    && s'.bookings[b].log == s.bookings[b].log
  }

  lemma {:induction false} StatusKeepsLive(s: Sys, s': Sys, p: ProcId, b: BookingId)
    requires TimeInv(s) && MovesStatus(s, s', p, b)
    ensures forall c | c in s'.bookings :: LiveFits(s', c)
  {
    QuietKeepsLive(s, s', p, b);
  }

  /** A step of `p` on `b` that touches no row and adds nothing to the log that its hold rests on. */
  lemma {:induction false} QuietKeepsLive(s: Sys, s': Sys, p: ProcId, b: BookingId)
    requires TimeInv(s) && OnlyMoves(s, s', p, b) && s'.clock == s.clock && s'.db.rows == s.db.rows
    requires b in s.bookings && b in s'.bookings && SameCore(s.bookings[b], s'.bookings[b])
    requires HoldDone(s'.bookings[b].log) ==> HoldDone(s.bookings[b].log)
    requires NoConfirm(s'.bookings[b].log) ==> NoConfirm(s.bookings[b].log)
    ensures forall c | c in s'.bookings :: LiveFits(s', c)
  {
    assert LiveFits(s, b);
    LiveStays(s, s', b);
    MoveKeepsLive(s, s', p, b);
  }

  /** The tables or the clock move on, but no booking and no segment row. */
  lemma {:induction false} AroundKeepsLive(s: Sys, s': Sys)
    requires TimeInv(s) && s'.bookings == s.bookings && s.clock <= s'.clock && s'.db.rows == s.db.rows
    ensures forall c | c in s'.bookings :: LiveFits(s', c)
  {
    forall c | c in s'.bookings ensures LiveFits(s', c) {
      assert LiveFits(s, c);
      LiveStays(s, s', c);
    }
  }

  lemma {:induction false} HoldKeepsLive(s: Sys, p: ProcId, up: bool, until: int)
    requires SeatInv(s) && Control(s) && TimeInv(s)
    ensures forall c | c in HoldStep(s, p, up, until).bookings :: LiveFits(HoldStep(s, p, up, until), c)
  {
    var s' := HoldStep(s, p, up, until);
    if At(s, p, Creation, Holding) {
      var b := s.procs[p].booking;
      var bk := s.bookings[b];
      var (db, reply) := Unless(up, s.db, LockSeats(s.db, bk.sched, bk.seats, bk.user, until, bk.from, bk.to));
      HoldShape(s, p, up, until, db, reply);
      assert ProcFits(s, p);
      if reply.Done? {
        LockGrants(s.db, bk, until);
        GrantedKeepsLive(s, s', p, b, until);
      } else {
        QuietKeepsLive(s, s', p, b);
      }
    } else {
      AroundKeepsLive(s, s');
    }
  }

  lemma {:induction false} GrantedKeepsLive(s: Sys, s': Sys, p: ProcId, b: BookingId, until: int)
    requires SeatInv(s) && TimeInv(s) && OnlyMoves(s, s', p, b) && s'.clock == s.clock
    requires b in s.bookings && b in s'.bookings
    requires s.bookings[b].hold == None && s.bookings[b].log == []
    requires s'.bookings[b] == HeldOr(s.bookings[b], s.db.nextHold, until, true)
    requires s'.db.rows == if Segmented(s.bookings[b])
      then s.db.rows + NewRows(s.db.nextHold, Members(s.bookings[b].seats), LockedRow(s'.bookings[b])) else s.db.rows
    ensures forall c | c in s'.bookings :: LiveFits(s', c)
  {
    if Segmented(s.bookings[b]) {
      NewHoldIsLocked(s, s', b);
      assert OnlyHold(s.db.rows, s'.db.rows, s.db.nextHold);
    }
    OnlyHoldKeepsOthers(s, s'.db.rows, b, s.db.nextHold);
    MoveKeepsLive(s, s', p, b);
  }

  lemma {:induction false} NewHoldIsLocked(s: Sys, s': Sys, b: BookingId)
    requires b in s'.bookings && s'.bookings[b].hold.Some?
    requires var bk' := s'.bookings[b];
             s'.db.rows == s.db.rows + NewRows(bk'.hold.value.number, Members(bk'.seats), LockedRow(bk'))
    ensures LiveFits(s', b)
  {
    var bk' := s'.bookings[b];
    var mine' := Mine(s'.db.rows, bk');
    forall seat | seat in bk'.seats ensures KeyFor(bk', seat) in mine' && mine'[KeyFor(bk', seat)] == LockedRow(bk') {}
  }

  /** A confirmation leaves its mark in the log. */
  lemma {:induction false} CallKeepsLive(s: Sys, p: ProcId, up: bool)
    requires SeatInv(s) && TimeInv(s) && Proper(s, Call(p, up))
    ensures forall c | c in CallStep(s, p, up).bookings :: LiveFits(CallStep(s, p, up), c)
  {
    var s' := CallStep(s, p, up);
    if At(s, p, Success, Calling) {
      var b := s.procs[p].booking;
      CallRows(s, p, up);
      var entry := LogEntry(ConfirmStep, if s'.procs[p].pc == Finishing then Completed else StepFailed);
      assert s'.bookings[b].log == s.bookings[b].log + [entry] && entry in s'.bookings[b].log;
      MoveKeepsLive(s, s', p, b);
    } else {
      AroundKeepsLive(s, s');
    }
  }

  lemma {:induction false} CallRows(s: Sys, p: ProcId, up: bool)
    requires SeatInv(s) && Proper(s, Call(p, up)) && At(s, p, Success, Calling)
    ensures OthersKept(s, CallStep(s, p, up).db.rows, s.procs[p].booking)
  {
    var b := s.procs[p].booking;
    var bk := s.bookings[b];
    var rows' := CallStep(s, p, up).db.rows;
    L.ServeRows(s.db, ConfirmOf(b, bk), 0);
    if rows' != s.db.rows {
      assert rows' == BookRows(s.db.rows, NamedBy(s, bk), b);
      OwnRowsChange(s, b, rows');
    }
  }

  /** Rows that differ only where the booking's own user, seats and segment name them. */
  lemma {:induction false} OwnRowsChange(s: Sys, b: BookingId, rows': Rows)
    requires SeatInv(s) && b in s.bookings && Segmented(s.bookings[b])
    requires NamesOwn(s, s.bookings[b]) && rows' != s.db.rows
    requires rows' == BookRows(s.db.rows, NamedBy(s, s.bookings[b]), b)
             || rows' == s.db.rows - NamedBy(s, s.bookings[b])
    ensures OthersKept(s, rows', b)
  {
    var bk := s.bookings[b];
    if k :| k in NamedBy(s, bk) {
      assert SeatFits(s, b);
      assert OnlyHold(s.db.rows, rows', bk.hold.value.number);
      OnlyHoldKeepsOthers(s, rows', b, bk.hold.value.number);
    }
  }

  lemma {:induction false} CompensateKeeps(log: seq<LogEntry>, step: SagaStep)
    ensures HoldDone(Compensate(log, step)) ==> HoldDone(log) && step != HoldSeats
    ensures NoConfirm(Compensate(log, step)) ==> NoConfirm(log)
  {
    var log' := Compensate(log, step);
    if HoldDone(log') {
      var i :| 0 <= i < |log'| && log'[i] == LogEntry(HoldSeats, Completed);
      assert log[i] == log'[i];
    }
    if NoConfirm(log') {
      forall i | 0 <= i < |log| ensures log[i].step != ConfirmStep { assert log'[i] in log'; }
    }
  }

  lemma {:induction false} UndoKeepsLive(s: Sys, p: ProcId, up: bool, answer: Option<P.GatewayRefundId>)
    requires SeatInv(s) && TimeInv(s) && Proper(s, Undo(p, up, answer))
    ensures forall c | c in UndoStep(s, p, up, answer).bookings :: LiveFits(UndoStep(s, p, up, answer), c)
  {
    var s' := UndoStep(s, p, up, answer);
    if p in s.procs && s.procs[p].pc.Undoing? && s.procs[p].pc.todo != [] && s.procs[p].booking in s.bookings {
      var b := s.procs[p].booking;
      var step := s.procs[p].pc.todo[0];
      UndoShape(s, p, up, answer);
      UndoRewrites(s, p, up, answer);
      CompensateKeeps(s.bookings[b].log, step);
      if s'.db.rows == s.db.rows {
        QuietKeepsLive(s, s', p, b);
      } else {
        UndoRows(s, p, up, answer);
        MoveKeepsLive(s, s', p, b);
      }
    } else {
      AroundKeepsLive(s, s');
    }
  }

  /** A compensation that removes rows removes the booking's own, and after it the hold is no live one. */
  lemma {:induction false} UndoRows(s: Sys, p: ProcId, up: bool, answer: Option<P.GatewayRefundId>)
    requires SeatInv(s) && TimeInv(s) && Proper(s, Undo(p, up, answer))
    requires p in s.procs && s.procs[p].pc.Undoing? && s.procs[p].pc.todo != [] && s.procs[p].booking in s.bookings
    requires UndoStep(s, p, up, answer).db.rows != s.db.rows
    ensures var s' := UndoStep(s, p, up, answer);
            var b := s.procs[p].booking;
            OthersKept(s, s'.db.rows, b) && b in s'.bookings && LiveFits(s', b) && s'.clock == s.clock
  {
    var b := s.procs[p].booking;
    var s' := UndoStep(s, p, up, answer);
    CompensateKeeps(s.bookings[b].log, s.procs[p].pc.todo[0]);
    UndoTables(s, p, up, answer);
    UndoRewrites(s, p, up, answer);
    if s.procs[p].pc.todo[0] == HoldSeats {
      ReleaseMarks(s, p, up, answer);
      ReleasedRows(s, b, s'.db.rows);
    } else {
      TakenBackRows(s, b, s'.db.rows);
      assert LiveFits(s, b);
    }
  }

  /** A release that changes the tables is marked in the log. */
  lemma {:induction false} ReleaseMarks(s: Sys, p: ProcId, up: bool, answer: Option<P.GatewayRefundId>)
    requires SeatInv(s) && p in s.procs && s.procs[p].pc.Undoing? && s.procs[p].pc.todo != []
    requires s.procs[p].booking in s.bookings
    requires s.procs[p].pc.todo[0] == HoldSeats && UndoStep(s, p, up, answer).db != s.db
    ensures var b := s.procs[p].booking;
            b in UndoStep(s, p, up, answer).bookings
            && UndoStep(s, p, up, answer).bookings[b].log == Compensate(s.bookings[b].log, HoldSeats)
  {
  }

  lemma {:induction false} ReleasedRows(s: Sys, b: BookingId, rows': Rows)
    requires SeatInv(s) && b in s.bookings && NamesOwn(s, s.bookings[b]) && rows' != s.db.rows
    requires var bk := s.bookings[b]; rows' == UnlockSeats(s.db, bk.sched, bk.seats, bk.user, bk.from, bk.to).0.rows
    ensures OthersKept(s, rows', b)
  {
    L.ServeRows(s.db, UnlockOf(s.bookings[b]), 0);
    OwnRowsChange(s, b, rows');
  }

  /** cancelBooking finds rows only where the hold has been confirmed. */
  lemma {:induction false} TakenBackRows(s: Sys, b: BookingId, rows': Rows)
    requires SeatInv(s) && b in s.bookings && rows' != s.db.rows
    requires rows' == CancelBooking(s.db, s.bookings[b].sched, b).0.rows
    ensures OthersKept(s, rows', b) && s.bookings[b].hold.Some? && !HoldsLocked(s.db.rows, s.bookings[b])
  {
    var bk := s.bookings[b];
    L.ServeRows(s.db, L.CancelOf(bk.sched, b), 0);
    var carrying := Carrying(s.db.rows, bk.sched, b);
    assert s.db.rows - {} == s.db.rows;
    CarryingMeansConfirmed(s, b);
    assert OnlyHold(s.db.rows, rows', bk.hold.value.number);
    assert SeatFits(s, b);
    OnlyHoldKeepsOthers(s, rows', b, bk.hold.value.number);
  }

  lemma {:induction false} CarryingMeansConfirmed(s: Sys, b: BookingId)
    requires SeatInv(s) && b in s.bookings && Carrying(s.db.rows, s.bookings[b].sched, b) != {}
    ensures var bk := s.bookings[b];
            bk.hold.Some? && !HoldsLocked(s.db.rows, bk)
            && forall k | k in Carrying(s.db.rows, bk.sched, b) :: k.hold == bk.hold.value.number
  {
    CarryingIsAllOrNone(s, b);
    var bk := s.bookings[b];
    var k :| k in Carrying(s.db.rows, bk.sched, b);
    assert RowFits(s, k) && KeyFor(bk, k.seat) == k && k in Mine(s.db.rows, bk);
  }

  /** The job deletes nothing that has not run out. */
  lemma {:induction false} DropKeepsLive(s: Sys)
    requires SeatInv(s) && TimeInv(s)
    ensures forall c | c in s.bookings :: LiveFits(Next(s, JobDrop), c)
  {
    var s' := Next(s, JobDrop);
    forall c | c in s.bookings ensures LiveFits(s', c) {
      assert LiveFits(s, c) && SeatFits(s, c);
      DropSpares(s, c);
    }
  }

  lemma {:induction false} DropSpares(s: Sys, c: BookingId)
    requires PastList(s) && c in s.bookings
    ensures HoldsLocked(s.db.rows, s.bookings[c]) && s.clock <= s.bookings[c].hold.value.until ==>
              HoldsLocked(s.db.rows - s.listed, s.bookings[c])
  {
    var bk := s.bookings[c];
    if HoldsLocked(s.db.rows, bk) && s.clock <= bk.hold.value.until {
      var mine, mine' := Mine(s.db.rows, bk), Mine(s.db.rows - s.listed, bk);
      forall seat | seat in bk.seats ensures KeyFor(bk, seat) in mine' && mine'[KeyFor(bk, seat)] == LockedRow(bk) {
        assert KeyFor(bk, seat) in mine && mine[KeyFor(bk, seat)] == LockedRow(bk);
      }
    }
  }

  lemma {:induction false} NextKeepsLive(s: Sys, e: Step)
    requires SeatInv(s) && Control(s) && TimeInv(s) && Proper(s, e)
    ensures forall c | c in Next(s, e).bookings :: LiveFits(Next(s, e), c)
  {
    match e
    case Book(_, _, _, _, _, _, _, _) => BookKeepsLive(s, e);
    case Hold(p, up, ttl) => HoldKeepsLive(s, p, up, L.Deadline(s.clock, ttl));
    case Pay(p, up) => if At(s, p, Creation, Paying) { PayKeepsLive(s, p, up); } else { AroundKeepsLive(s, s); }
    case Abandon(p) => if AbandonStep(s, p) != s { QuietKeepsLive(s, AbandonStep(s, p), p, s.procs[p].booking); }
    case Spawn(p, kind, b) => AroundKeepsLive(s, SpawnStep(s, p, kind, b));
    case Read(p) => AroundKeepsLive(s, ReadStep(s, p));
    case Claim(p) => ClaimKeepsLive(s, p);
    case Call(p, up) => CallKeepsLive(s, p, up);
    case Finish(p, up) => FinishKeepsLive(s, p, up);
    case Load(p) => AroundKeepsLive(s, LoadStep(s, p));
    case Undo(p, up, answer) => UndoKeepsLive(s, p, up, answer);
    case Fail(p) => FailKeepsLive(s, p);
    case Refund(p, up, answer) => AroundKeepsLive(s, RefundStep(s, p, up, answer));
    case JobDrop => DropKeepsLive(s);
    case _ => WorldKeepsLive(s, e);
  }

  lemma {:induction false} BookKeepsLive(s: Sys, e: Step)
    requires TimeInv(s) && e.Book?
    ensures forall c | c in BookStep(s, e).bookings :: LiveFits(BookStep(s, e), c)
  {
    if BookStep(s, e) != s { MoveKeepsLive(s, BookStep(s, e), e.p, e.b); } else { AroundKeepsLive(s, s); }
  }

  lemma {:induction false} PayKeepsLive(s: Sys, p: ProcId, up: bool)
    requires TimeInv(s) && At(s, p, Creation, Paying)
    ensures forall c | c in PayStep(s, p, up).bookings :: LiveFits(PayStep(s, p, up), c)
  {
    var b := s.procs[p].booking;
    var log, log' := s.bookings[b].log, PayStep(s, p, up).bookings[b].log;
    assert log <= log' && |log'| == |log| + 1 && log'[|log|].step == CreatePayment;
    QuietKeepsLive(s, PayStep(s, p, up), p, b);
  }

  /** A write of a booking that keeps its core and its log, and a move of its process. */
  lemma {:induction false} PutMovesStatus(s: Sys, p: ProcId, b: BookingId, bk': Booking, pc: Pc)
    requires p in s.procs && b in s.bookings && SameCore(s.bookings[b], bk') && bk'.log == s.bookings[b].log
    ensures MovesStatus(s, Move(Put(s, b, bk'), p, pc), p, b) && MovesStatus(s, Move(s, p, pc), p, b)
  {
  }

  lemma {:induction false} ClaimedKeepsCore(kind: Kind, bk: Booking, p: ProcId)
    ensures SameCore(bk, Claimed(kind, bk, p)) && Claimed(kind, bk, p).log == bk.log
  {
  }

  lemma {:induction false} ClaimMovesStatus(s: Sys, p: ProcId)
    requires p in s.procs && s.procs[p].booking in s.bookings && ClaimStep(s, p) != s
    ensures MovesStatus(s, ClaimStep(s, p), p, s.procs[p].booking)
  {
    var pr := s.procs[p];
    var bk' := Claimed(pr.kind, s.bookings[pr.booking], p);
    ClaimedKeepsCore(pr.kind, s.bookings[pr.booking], p);
    PutMovesStatus(s, p, pr.booking, bk', AfterClaim(pr));
    PutMovesStatus(s, p, pr.booking, bk', Stopped);
  }

  lemma {:induction false} ClaimKeepsLive(s: Sys, p: ProcId)
    requires TimeInv(s)
    ensures forall c | c in ClaimStep(s, p).bookings :: LiveFits(ClaimStep(s, p), c)
  {
    if ClaimStep(s, p) != s {
      ClaimMovesStatus(s, p);
      StatusKeepsLive(s, ClaimStep(s, p), p, s.procs[p].booking);
    } else {
      AroundKeepsLive(s, s);
    }
  }

  lemma {:induction false} FinishMovesStatus(s: Sys, p: ProcId, up: bool)
    requires p in s.procs && s.procs[p].booking in s.bookings
    ensures MovesStatus(s, FinishStep(s, p, up), p, s.procs[p].booking)
  {
  }

  lemma {:induction false} FinishKeepsLive(s: Sys, p: ProcId, up: bool)
    requires TimeInv(s)
    ensures forall c | c in FinishStep(s, p, up).bookings :: LiveFits(FinishStep(s, p, up), c)
  {
    if p in s.procs && s.procs[p].booking in s.bookings {
      FinishMovesStatus(s, p, up);
      StatusKeepsLive(s, FinishStep(s, p, up), p, s.procs[p].booking);
    } else {
      AroundKeepsLive(s, s);
    }
  }

  lemma {:induction false} FailMovesStatus(s: Sys, p: ProcId)
    requires p in s.procs && s.procs[p].booking in s.bookings && FailStep(s, p) != s
    ensures MovesStatus(s, FailStep(s, p), p, s.procs[p].booking)
  {
    var b := s.procs[p].booking;
    var bk := s.bookings[b];
    PutMovesStatus(s, p, b, bk.(status := FailedBooking, creating := false), Stopped);
    PutMovesStatus(s, p, b, bk.(status := FailedBooking, version := bk.version + 1), Stopped);
  }

  lemma {:induction false} FailKeepsLive(s: Sys, p: ProcId)
    requires TimeInv(s)
    ensures forall c | c in FailStep(s, p).bookings :: LiveFits(FailStep(s, p), c)
  {
    if FailStep(s, p) != s {
      FailMovesStatus(s, p);
      StatusKeepsLive(s, FailStep(s, p), p, s.procs[p].booking);
    } else {
      AroundKeepsLive(s, s);
    }
  }

  lemma {:induction false} WorldKeepsLive(s: Sys, e: Step)
    requires SeatInv(s) && TimeInv(s)
    requires e.Inventory? || e.JobFind? || e.JobRecompute? || e.JobFree? || e.JobRecount? || e.Gateway? || e.Tick?
    ensures forall c | c in Next(s, e).bookings :: LiveFits(Next(s, e), c)
  {
    if e.Inventory? { WorldRows(s, e); }
    AroundKeepsLive(s, Next(s, e));
  }

  // ----- who is on the way to a confirmation -----

  /** A step of `p` on `b` brings no other booking on its way. */
  lemma {:induction false} MoveKeepsReady(s: Sys, s': Sys, p: ProcId, b: BookingId)
    requires TimeInv(s) && OnlyMoves(s, s', p, b) && Stands(s', p, b, s'.procs[p].pc)
    requires b in s'.bookings && ReadyFits(s', b)
    ensures forall c | c in s'.bookings :: ReadyFits(s', c)
  {
    forall c | c in s'.bookings ensures ReadyFits(s', c) {
      if c != b { assert ReadyFits(s, c); }
    }
  }

  lemma {:induction false} AroundKeepsReady(s: Sys, s': Sys)
    requires TimeInv(s) && s'.bookings == s.bookings && s'.procs == s.procs
    ensures forall c | c in s'.bookings :: ReadyFits(s', c)
  {
    forall c | c in s'.bookings ensures ReadyFits(s', c) { assert ReadyFits(s, c); }
  }

  /** Processes move, but none to a place on the way. */
  lemma {:induction false} AsideKeepsReady(s: Sys, s': Sys)
    requires TimeInv(s) && s'.bookings == s.bookings
    requires forall q | q in s'.procs && (s'.procs[q].pc == Calling || s'.procs[q].pc == Paying) ::
      q in s.procs && s'.procs[q] == s.procs[q]
    ensures forall c | c in s'.bookings :: ReadyFits(s', c)
  {
    forall c | c in s'.bookings ensures ReadyFits(s', c) { assert ReadyFits(s, c); }
  }

  lemma {:induction false} BookKeepsReady(s: Sys, e: Step)
    requires TimeInv(s) && e.Book?
    ensures forall c | c in BookStep(s, e).bookings :: ReadyFits(BookStep(s, e), c)
  {
    if BookStep(s, e) != s { MoveKeepsReady(s, BookStep(s, e), e.p, e.b); } else { AroundKeepsReady(s, s); }
  }

  lemma {:induction false} HoldKeepsReady(s: Sys, p: ProcId, up: bool, until: int)
    requires Control(s) && TimeInv(s)
    ensures forall c | c in HoldStep(s, p, up, until).bookings :: ReadyFits(HoldStep(s, p, up, until), c)
  {
    var s' := HoldStep(s, p, up, until);
    if At(s, p, Creation, Holding) {
      var b := s.procs[p].booking;
      var bk := s.bookings[b];
      assert ProcFits(s, p);
      var (db, reply) := Unless(up, s.db, LockSeats(s.db, bk.sched, bk.seats, bk.user, until, bk.from, bk.to));
      HoldShape(s, p, up, until, db, reply);
      var log' := s'.bookings[b].log;
      assert |log'| == 1 && log'[0].step == HoldSeats;
      assert log'[0] in log';
      MoveKeepsReady(s, s', p, b);
    } else {
      AroundKeepsReady(s, s');
    }
  }

  lemma {:induction false} PayKeepsReady(s: Sys, p: ProcId, up: bool)
    requires Control(s) && TimeInv(s)
    ensures forall c | c in PayStep(s, p, up).bookings :: ReadyFits(PayStep(s, p, up), c)
  {
    var s' := PayStep(s, p, up);
    if At(s, p, Creation, Paying) {
      var b := s.procs[p].booking;
      assert ProcFits(s, p) && ReadyFits(s, b);
      var log, log' := s.bookings[b].log, s'.bookings[b].log;
      assert log <= log' && |log'| == |log| + 1 && log'[|log|].step == CreatePayment;
      MoveKeepsReady(s, s', p, b);
    } else {
      AroundKeepsReady(s, s');
    }
  }

  lemma {:induction false} AbandonKeepsReady(s: Sys, p: ProcId)
    requires Control(s) && TimeInv(s)
    ensures forall c | c in AbandonStep(s, p).bookings :: ReadyFits(AbandonStep(s, p), c)
  {
    var s' := AbandonStep(s, p);
    if s' != s {
      var b := s.procs[p].booking;
      assert ProcFits(s, p) && BookingFits(s, b);
      MoveKeepsReady(s, s', p, b);
    } else {
      AroundKeepsReady(s, s');
    }
  }

  lemma {:induction false} ClaimedIsReady(s: Sys, p: ProcId)
    requires Control(s) && TimeInv(s) && ClaimStep(s, p) != s
    ensures var b := s.procs[p].booking;
            var s' := ClaimStep(s, p);
            b in s'.bookings && ReadyFits(s', b) && Stands(s', p, b, s'.procs[p].pc)
  {
    assert ProcFits(s, p) && ReadyFits(s, s.procs[p].booking);
  }

  lemma {:induction false} ClaimKeepsReady(s: Sys, p: ProcId)
    requires Control(s) && TimeInv(s)
    ensures forall c | c in ClaimStep(s, p).bookings :: ReadyFits(ClaimStep(s, p), c)
  {
    var s' := ClaimStep(s, p);
    if s' != s {
      var b := s.procs[p].booking;
      ClaimedIsReady(s, p);
      ClaimMovesStatus(s, p);
      MoveKeepsReady(s, s', p, b);
    } else {
      AroundKeepsReady(s, s');
    }
  }

  /** The claimer's later steps leave the way. */
  lemma {:induction false} CallKeepsReady(s: Sys, p: ProcId, up: bool)
    requires Control(s) && TimeInv(s)
    ensures forall c | c in CallStep(s, p, up).bookings :: ReadyFits(CallStep(s, p, up), c)
  {
    var s' := CallStep(s, p, up);
    if At(s, p, Success, Calling) {
      assert ProcFits(s, p);
      MoveKeepsReady(s, s', p, s.procs[p].booking);
    } else {
      AroundKeepsReady(s, s');
    }
  }

  lemma {:induction false} FinishKeepsReady(s: Sys, p: ProcId, up: bool)
    requires Control(s) && TimeInv(s)
    ensures forall c | c in FinishStep(s, p, up).bookings :: ReadyFits(FinishStep(s, p, up), c)
  {
    var s' := FinishStep(s, p, up);
    if At(s, p, Success, Finishing) {
      assert ProcFits(s, p);
      MoveKeepsReady(s, s', p, s.procs[p].booking);
    } else {
      AroundKeepsReady(s, s');
    }
  }

  /** Who compensates is not on the way, and nor is its booking. */
  lemma {:induction false} UndoKeepsReady(s: Sys, p: ProcId, up: bool, answer: Option<P.GatewayRefundId>)
    requires Control(s) && TimeInv(s)
    ensures forall c | c in UndoStep(s, p, up, answer).bookings :: ReadyFits(UndoStep(s, p, up, answer), c)
  {
    var s' := UndoStep(s, p, up, answer);
    if p in s.procs && s.procs[p].pc.Undoing? && s.procs[p].pc.todo != [] && s.procs[p].booking in s.bookings {
      assert ProcFits(s, p) && BookingFits(s, s.procs[p].booking);
      UndoShape(s, p, up, answer);
      MoveKeepsReady(s, s', p, s.procs[p].booking);
    } else {
      AroundKeepsReady(s, s');
    }
  }

  lemma {:induction false} FailKeepsReady(s: Sys, p: ProcId)
    requires Control(s) && TimeInv(s)
    ensures forall c | c in FailStep(s, p).bookings :: ReadyFits(FailStep(s, p), c)
  {
    var s' := FailStep(s, p);
    if s' != s {
      assert ProcFits(s, p);
      MoveKeepsReady(s, s', p, s.procs[p].booking);
    } else {
      AroundKeepsReady(s, s');
    }
  }

  /** Steps that move a process and write no booking. */
  lemma {:induction false} SideKeepsReady(s: Sys, e: Step)
    requires TimeInv(s) && (e.Spawn? || e.Read? || e.Load? || e.Refund?)
    ensures forall c | c in Next(s, e).bookings :: ReadyFits(Next(s, e), c)
  {
    AsideKeepsReady(s, Next(s, e));
  }

  lemma {:induction false} NextKeepsReady(s: Sys, e: Step)
    requires Control(s) && TimeInv(s)
    ensures forall c | c in Next(s, e).bookings :: ReadyFits(Next(s, e), c)
  {
    match e
    case Book(_, _, _, _, _, _, _, _) => BookKeepsReady(s, e);
    case Hold(p, up, ttl) => HoldKeepsReady(s, p, up, L.Deadline(s.clock, ttl));
    case Pay(p, up) => PayKeepsReady(s, p, up);
    case Abandon(p) => AbandonKeepsReady(s, p);
    case Spawn(_, _, _) => SideKeepsReady(s, e);
    case Read(_) => SideKeepsReady(s, e);
    case Claim(p) => ClaimKeepsReady(s, p);
    case Call(p, up) => CallKeepsReady(s, p, up);
    case Finish(p, up) => FinishKeepsReady(s, p, up);
    case Load(_) => SideKeepsReady(s, e);
    case Undo(p, up, answer) => UndoKeepsReady(s, p, up, answer);
    case Fail(p) => FailKeepsReady(s, p);
    case Refund(_, _, _) => SideKeepsReady(s, e);
    case _ => AroundKeepsReady(s, Next(s, e));
  }

  // ----- the job's list -----

  /** Only a confirmation makes a listed row anything but LOCKED, and a fair one names no listed row. */
  lemma {:induction false} NextKeepsPast(s: Sys, e: Step)
    requires SeatInv(s) && Control(s) && TimeInv(s) && Fair(s, e)
    ensures PastList(Next(s, e))
  {
    if e.Hold? {
      HoldKeepsPast(s, e.p, e.up, L.Deadline(s.clock, e.ttl));
    } else if e.Call? {
      CallKeepsPast(s, e.p, e.up);
    } else if e.Undo? {
      UndoKeepsPast(s, e.p, e.up, e.answer);
    } else if e.Inventory? {
      WorldRows(s, e);
    } else if e.JobFind? || e.JobDrop? || e.Tick? {
      JobKeepsPast(s, e);
    } else {
      QuietRows(s, e);
    }
  }

  lemma {:induction false} JobKeepsPast(s: Sys, e: Step)
    requires PastList(s) && (e.JobFind? || e.JobDrop? || e.Tick?)
    ensures PastList(Next(s, e))
  {
  }

  lemma {:induction false} QuietRows(s: Sys, e: Step)
    requires !e.Hold? && !e.Call? && !e.Undo? && !e.Inventory? && !e.JobFind? && !e.JobDrop? && !e.Tick?
    ensures Next(s, e).db.rows == s.db.rows && Next(s, e).listed == s.listed && Next(s, e).clock == s.clock
  {
  }

  lemma {:induction false} WorldRows(s: Sys, e: Step)
    requires SeatInv(s) && e.Inventory?
    ensures Next(s, e).db.rows == s.db.rows && Next(s, e).listed == s.listed && Next(s, e).clock == s.clock
  {
    if Foreign(s.db, e.op) {
      L.ServeRows(s.db, e.op, L.Deadline(s.clock, e.ttl));
      ForeignIsQuiet(s.db, e.op, L.Deadline(s.clock, e.ttl));
    }
  }

  lemma {:induction false} HoldKeepsPast(s: Sys, p: ProcId, up: bool, until: int)
    requires SeatInv(s) && PastList(s)
    ensures PastList(HoldStep(s, p, up, until))
  {
    if At(s, p, Creation, Holding) {
      var bk := s.bookings[s.procs[p].booking];
      L.ServeRows(s.db, LockOf(bk), until);
      L.AnswersFit(s.db, LockOf(bk), until);
    }
  }

  lemma {:induction false} CallKeepsPast(s: Sys, p: ProcId, up: bool)
    requires SeatInv(s) && Control(s) && TimeInv(s) && Fair(s, Call(p, up))
    ensures PastList(CallStep(s, p, up))
  {
    if At(s, p, Success, Calling) {
      var b := s.procs[p].booking;
      var bk := s.bookings[b];
      L.ServeRows(s.db, ConfirmOf(b, bk), 0);
      OnTimeNamesOwn(s, p);
      assert SeatFits(s, b);
      forall k | Segmented(bk) && k in NamedBy(s, bk) ensures k !in s.listed { NamedIsNotListed(s, b, k); }
    }
  }

  /** A row of a hold that has not run out is not listed. */
  lemma {:induction false} NamedIsNotListed(s: Sys, b: BookingId, k: RowId)
    requires SeatInv(s) && PastList(s) && b in s.bookings && OnTime(s, s.bookings[b]) && s.bookings[b].hold.Some?
    requires k in s.db.rows && k.hold == s.bookings[b].hold.value.number && s.db.rows[k].status == Locked
    ensures k !in s.listed
  {
    assert RowFits(s, k) && SeatFits(s, b);
  }

  lemma {:induction false} UndoKeepsPast(s: Sys, p: ProcId, up: bool, answer: Option<P.GatewayRefundId>)
    requires SeatInv(s) && PastList(s)
    ensures PastList(UndoStep(s, p, up, answer))
  {
    if p in s.procs && s.procs[p].pc.Undoing? && s.procs[p].pc.todo != [] && s.procs[p].booking in s.bookings {
      UndoTables(s, p, up, answer);
      UndoneRowsGo(s, s.procs[p].booking);
    }
  }

  lemma {:induction false} UndoneRowsGo(s: Sys, b: BookingId)
    requires SeatInv(s) && b in s.bookings
    ensures var bk := s.bookings[b];
            forall k | k in UnlockSeats(s.db, bk.sched, bk.seats, bk.user, bk.from, bk.to).0.rows ::
              k in s.db.rows && s.db.rows[k] == UnlockSeats(s.db, bk.sched, bk.seats, bk.user, bk.from, bk.to).0.rows[k]
    ensures forall k | k in CancelBooking(s.db, s.bookings[b].sched, b).0.rows ::
              k in s.db.rows && s.db.rows[k] == CancelBooking(s.db, s.bookings[b].sched, b).0.rows[k]
  {
    L.ServeRows(s.db, UnlockOf(s.bookings[b]), 0);
    L.ServeRows(s.db, L.CancelOf(s.bookings[b].sched, b), 0);
  }

  // ----- runs -----

  lemma {:induction false} NextKeepsAll(s: Sys, e: Step)
    requires SeatInv(s) && Control(s) && TimeInv(s) && Fair(s, e)
    ensures SeatInv(Next(s, e)) && Control(Next(s, e)) && TimeInv(Next(s, e))
  {
    FairIsProper(s, e);
    NextKeepsSeats(s, e);
    NextKeepsControl(s, e);
    NextKeepsLive(s, e);
    NextKeepsReady(s, e);
    NextKeepsPast(s, e);
  }

  lemma {:induction false} RunKeepsAll(s: Sys, es: seq<Step>)
    requires SeatInv(s) && Control(s) && TimeInv(s) && FairRun(s, es)
    ensures SeatInv(Run(s, es)) && Control(Run(s, es)) && TimeInv(Run(s, es))
    decreases |es|
  {
    if es != [] {
      NextKeepsAll(s, es[0]);
      RunKeepsAll(Next(s, es[0]), es[1..]);
    }
  }

  /** Saga and seats agree: in every fair run, a CONFIRMED segment booking has, for each of its
      seats, a BOOKED row with its id and its exact segment. */
  lemma {:induction false} ConfirmedHasItsSeats(es: seq<Step>, b: BookingId, seat: SeatId)
    requires FairRun(START, es) && b in Run(START, es).bookings
    requires var bk := Run(START, es).bookings[b]; bk.status == Confirmed && Segmented(bk) && seat in bk.seats
    ensures var bk := Run(START, es).bookings[b];
            exists k :: k in Run(START, es).db.rows && k.seat == seat && Run(START, es).db.rows[k] == BookedRow(b, bk)
  {
    RunKeepsAll(START, es);
    var s := Run(START, es);
    assert SeatFits(s, b);
    assert KeyFor(s.bookings[b], seat) in s.db.rows;
  }

  /** Booking `b` is a confirmed ticket for this leg of this seat. */
  predicate Travels(s: Sys, b: BookingId, sc: ScheduleId, seat: SeatId, leg: int) {
    && b in s.bookings && s.bookings[b].status == Confirmed && Segmented(s.bookings[b])
    && s.bookings[b].sched == sc && seat in s.bookings[b].seats && L.Within(s.bookings[b].from, s.bookings[b].to, leg)
  }

  /** No double sale: in every fair run of saga, inventory and payments together, with crashes
      and failed calls anywhere, no two confirmed tickets share a leg of a seat. */
  lemma {:induction false} NoDoubleSale(es: seq<Step>, a: BookingId, b: BookingId, sc: ScheduleId, seat: SeatId,
      leg: int)
    requires FairRun(START, es)
    requires Travels(Run(START, es), a, sc, seat, leg) && Travels(Run(START, es), b, sc, seat, leg)
    ensures a == b
  {
    RunKeepsAll(START, es);
    var s := Run(START, es);
    assert SeatFits(s, a) && SeatFits(s, b);
    var k, l := KeyFor(s.bookings[a], seat), KeyFor(s.bookings[b], seat);
    assert s.db.rows[k] == BookedRow(a, s.bookings[a]) && s.db.rows[l] == BookedRow(b, s.bookings[b]);
    assert L.Apart(s.db.rows, k, l);
  }

  // ----- rollback -----

  lemma {:induction false} NewIsHoldLogged(s: Sys, e: Step, b: BookingId)
    requires b !in s.bookings && b in Next(s, e).bookings
    ensures HoldLogged(Next(s, e).bookings[b])
  {
  }

  lemma {:induction false} RunKeepsHoldLogged(s: Sys, es: seq<Step>)
    requires forall b | b in s.bookings :: HoldLogged(s.bookings[b])
    ensures forall b | b in Run(s, es).bookings :: HoldLogged(Run(s, es).bookings[b])
    decreases |es|
  {
    if es != [] {
      var s' := Next(s, es[0]);
      forall b | b in s'.bookings ensures HoldLogged(s'.bookings[b]) {
        if b in s.bookings { NextKeepsHoldLogged(s, es[0], b); } else { NewIsHoldLogged(s, es[0], b); }
      }
      RunKeepsHoldLogged(s', es[1..]);
    }
  }

  /** Saga rollback: when compensateAll has left no COMPLETED HOLD_SEATS step in a booking's log,
      no LOCKED row is left that was inserted for it, then or in any later state. */
  lemma {:induction false} RolledBackHoldsNothing(es: seq<Step>, b: BookingId, k: RowId)
    requires FairRun(START, es) && b in Run(START, es).bookings && !HoldDone(Run(START, es).bookings[b].log)
    requires k in Run(START, es).db.rows && k.hold in Run(START, es).holders && Run(START, es).holders[k.hold] == b
    ensures Run(START, es).db.rows[k].status == Booked
  {
    RunKeepsAll(START, es);
    RunKeepsHoldLogged(START, es);
    LockedRowMeansHold(Run(START, es), b, k);
  }
}
