/** The saga's calls to the inventory service keep the seats right, as long as they reach the rows of
    their own booking; and exactly when they do. */
module SagaCalls {
  import opened Ledger
  import opened Saga
  import opened SagaControl
  import opened SagaSeats
  import L = LedgerRuns
  import HoldRuns
  import P = Payments

  // ----- the calls to the inventory service -----

  lemma {:induction false} MembersAtMost(ids: seq<SeatId>)
    ensures |Members(ids)| <= |ids|
  {
    if ids != [] {
      MembersAtMost(ids[1..]);
      assert Members(ids) == {ids[0]} + Members(ids[1..]);
    }
  }

  /** As many found as asked for: all are. */
  lemma {:induction false} FoundIsMembers(seats: Seats, sc: ScheduleId, ids: seq<SeatId>)
    requires |Found(seats, sc, ids)| == |ids|
    ensures Found(seats, sc, ids) == Members(ids)
  {
    MembersAtMost(ids);
    var found, members := Found(seats, sc, ids), Members(ids);
    assert found <= members;
    assert members == found + (members - found);
    assert |members - found| == 0;
  }

  /** No process is about to write CONFIRMED for a booking that is still being created. */
  lemma {:induction false} NobodyFinishes(s: Sys, b: BookingId, q: ProcId)
    requires Control(s) && b in s.bookings && s.bookings[b].status != Confirming
    requires q in s.procs && s.procs[q].booking == b
    ensures s.procs[q].pc != Finishing
  {
    assert ProcFits(s, q);
  }

  function LockOf(bk: Booking): L.Op {
    L.Lock(bk.sched, bk.seats, bk.user, bk.from, bk.to)
  }

  lemma {:induction false} HoldKeepsSeats(s: Sys, p: ProcId, up: bool, until: int)
    requires SeatInv(s) && Control(s)
    ensures SeatInv(HoldStep(s, p, up, until))
  {
    if At(s, p, Creation, Holding) {
      var b := s.procs[p].booking;
      var bk := s.bookings[b];
      assert ProcFits(s, p);
      if up && LockSeats(s.db, bk.sched, bk.seats, bk.user, until, bk.from, bk.to).1.Done? {
        HoldAnswered(s, p, b, until);
      } else {
        RewriteKeepsSeats(s, p, b, Logged(bk, HoldSeats, false), Loading);
      }
    }
  }

  /** What the lock leaves when it is granted. */
  lemma {:induction false} LockGrants(db: Db, bk: Booking, until: int)
    requires Sound(db) && LockSeats(db, bk.sched, bk.seats, bk.user, until, bk.from, bk.to).1.Done?
    ensures var db' := LockSeats(db, bk.sched, bk.seats, bk.user, until, bk.from, bk.to).0;
            && Sound(db') && |Found(db.seats, bk.sched, bk.seats)| == |bk.seats|
            && db'.nextHold == db.nextHold + (if Segmented(bk) then 1 else 0)
            && db'.rows == if Segmented(bk)
                 then db.rows + NewRows(db.nextHold, Members(bk.seats),
                      SegRow(bk.sched, bk.from, bk.to, Locked, bk.user, Some(until), None))
                 else db.rows
  {
    ServeKeepsSound(db, LockOf(bk), until);
    L.ServeRows(db, LockOf(bk), until);
    FoundIsMembers(db.seats, bk.sched, bk.seats);
  }

  lemma {:induction false} HoldAnswered(s: Sys, p: ProcId, b: BookingId, until: int)
    requires SeatInv(s) && Control(s) && At(s, p, Creation, Holding) && s.procs[p].booking == b && ProcFits(s, p)
    requires var bk := s.bookings[b]; LockSeats(s.db, bk.sched, bk.seats, bk.user, until, bk.from, bk.to).1.Done?
    ensures SeatInv(HoldStep(s, p, true, until))
  {
    var bk := s.bookings[b];
    var db := LockSeats(s.db, bk.sched, bk.seats, bk.user, until, bk.from, bk.to).0;
    var held := Logged(bk, HoldSeats, true).(status := SeatsHeld);
    LockGrants(s.db, bk, until);
    assert SeatFits(s, b);
    if Segmented(bk) {
      HoldGranted(s, p, b, db, until);
    } else {
      OutsideKeepsSeats(s, s.(db := db));
      RewriteKeepsSeats(s.(db := db), p, b, held, Paying);
    }
  }

  lemma {:induction false} HoldGranted(s: Sys, p: ProcId, b: BookingId, db: Db, until: int)
    requires SeatInv(s) && Control(s) && b in s.bookings && SeatFits(s, b) && Sound(db)
    requires p in s.procs && s.procs[p].booking == b && s.procs[p].pc == Holding
    requires Segmented(s.bookings[b]) && s.bookings[b].hold == None
    requires s.bookings[b].log == [] && s.bookings[b].status == Pending
    requires var bk := s.bookings[b];
             var row := SegRow(bk.sched, bk.from, bk.to, Locked, bk.user, Some(until), None);
             db.rows == s.db.rows + NewRows(s.db.nextHold, Members(bk.seats), row)
    requires db.nextHold == s.db.nextHold + 1
    ensures var ref := HoldRef(s.db.nextHold, until);
            var bk' := Logged(s.bookings[b], HoldSeats, true).(status := SeatsHeld, hold := Some(ref));
            SeatInv(Move(Put(s.(db := db, holders := s.holders[s.db.nextHold := b]), b, bk'), p, Paying))
  {
    var h := s.db.nextHold;
    var bk' := Logged(s.bookings[b], HoldSeats, true).(status := SeatsHeld, hold := Some(HoldRef(h, until)));
    var s' := Move(Put(s.(db := db, holders := s.holders[h := b]), b, bk'), p, Paying);
    UniformHolds(s);
    HoldRuns.InsertionIsTogether(s.db, Members(bk'.seats), LockedRow(bk'));
    HoldRuns.ListStaysWhole(s.db.rows, db.rows, s.listed, h);
    assert ListFits(s');
    NewHoldFits(s, s', b, bk', h);
    forall q | q in s'.procs && s'.procs[q].booking == b ensures FinishFits(s', q) {
      if q != p { NobodyFinishes(s, b, q); }
    }
    ConfinedStep(s, s', p, b, h);
  }

  lemma {:induction false} NewHoldFits(s: Sys, s': Sys, b: BookingId, bk': Booking, h: nat)
    requires L.RowsOwned(s.db) && h == s.db.nextHold && h < s'.db.nextHold && b in s'.bookings && s'.bookings[b] == bk'
    requires bk'.hold.Some? && bk'.hold.value.number == h
    requires bk'.status == SeatsHeld && Segmented(bk') && bk'.from < bk'.to
    requires bk'.log == [LogEntry(HoldSeats, Completed)] && bk'.seats != []
    requires s'.db.rows == s.db.rows + NewRows(h, Members(bk'.seats), LockedRow(bk')) && s'.holders == s.holders[h := b]
    ensures SeatFits(s', b) && (forall k | k in s'.db.rows && k.hold == h :: RowFits(s', k))
    ensures OnlyHold(s.db.rows, s'.db.rows, h)
  {
    var mine := Mine(s'.db.rows, bk');
    forall seat | seat in bk'.seats ensures KeyFor(bk', seat) in mine && mine[KeyFor(bk', seat)] == LockedRow(bk') {}
    assert AllAre(mine, bk', LockedRow(bk'));
  }

  /** While this booking's user and segment name only its own rows, they name all of them or none. */
  lemma {:induction false} NamedIsAllOrNone(s: Sys, b: BookingId)
    requires SeatInv(s) && b in s.bookings && Segmented(s.bookings[b]) && NamesOwn(s, s.bookings[b])
    requires |Found(s.db.seats, s.bookings[b].sched, s.bookings[b].seats)| == |s.bookings[b].seats|
    ensures var bk := s.bookings[b];
            var named := Named(s.db.rows, bk.sched, Found(s.db.seats, bk.sched, bk.seats), bk.user, bk.from, bk.to);
            var mine := Mine(s.db.rows, bk);
            && (named == {} || named == mine.Keys)
            && (HoldsLocked(s.db.rows, bk) <==> named != {})
  {
    var bk := s.bookings[b];
    assert SeatFits(s, b);
    FoundIsMembers(s.db.seats, bk.sched, bk.seats);
    var named := Named(s.db.rows, bk.sched, Members(bk.seats), bk.user, bk.from, bk.to);
    var mine := Mine(s.db.rows, bk);
    forall k | k in mine ensures KeyFor(bk, k.seat) == k && k.seat in bk.seats { assert RowFits(s, k); }
    forall k | k in named ensures bk.hold.Some? && AllAre(mine, bk, LockedRow(bk)) {
      assert k in mine && mine[k].status == Locked;
    }
    if bk.hold.Some? && AllAre(mine, bk, LockedRow(bk)) {
      assert named == mine.Keys;
      assert KeyFor(bk, bk.seats[0]) in mine;
    }
  }

  /** The rows of the hold turn into `rows'`; whoever would lose by it is not there. */
  lemma {:induction false} HoldRowsChange(s: Sys, db: Db, p: ProcId, b: BookingId)
    requires SeatInv(s) && p in s.procs && s.procs[p].booking == b && b in s.bookings && s.bookings[b].hold.Some?
    requires Sound(db) && db.nextHold == s.db.nextHold && OnlyHold(s.db.rows, db.rows, s.bookings[b].hold.value.number)
    requires HoldRuns.Together(s.db.rows, db.rows, s.db.nextHold)
    requires SeatFits(s.(db := db), b)
    requires forall k | k in db.rows && k.hold == s.bookings[b].hold.value.number :: RowFits(s.(db := db), k)
    requires forall q | q in s.procs && s.procs[q].booking == b :: FinishFits(s.(db := db), q)
    ensures SeatInv(s.(db := db))
  {
    UniformHolds(s);
    HoldRuns.ListStaysWhole(s.db.rows, db.rows, s.listed, s.db.nextHold);
    assert SeatFits(s, b);
    ConfinedStep(s, s.(db := db), p, b, s.bookings[b].hold.value.number);
  }

  lemma {:induction false} MineIsWhole(rows: Rows, bk: Booking)
    ensures HoldRuns.WholeHolds(rows, Mine(rows, bk).Keys)
  {
  }

  lemma {:induction false} BookingTheHold(rows: Rows, b: BookingId, bk: Booking)
    requires HoldsLocked(rows, bk) && bk.seats != []
    ensures var rows' := BookRows(rows, Mine(rows, bk).Keys, b);
            && SeatsBooked(rows', b, bk) && !HoldsLocked(rows', bk) && OnlyHold(rows, rows', bk.hold.value.number)
  {
    var rows' := BookRows(rows, Mine(rows, bk).Keys, b);
    var mine, mine' := Mine(rows, bk), Mine(rows', bk);
    forall seat | seat in bk.seats ensures KeyFor(bk, seat) in mine' && mine'[KeyFor(bk, seat)] == BookedRow(b, bk) {
      assert KeyFor(bk, seat) in mine;
    }
    assert KeyFor(bk, bk.seats[0]) in mine';
  }

  lemma {:induction false} DroppingTheHold(rows: Rows, bk: Booking)
    requires bk.hold.Some? && bk.seats != []
    ensures var rows' := rows - Mine(rows, bk).Keys;
            Mine(rows', bk) == map[] && !HoldsLocked(rows', bk) && OnlyHold(rows, rows', bk.hold.value.number)
  {
    var mine' := Mine(rows - Mine(rows, bk).Keys, bk);
    assert mine' == map[];
    assert KeyFor(bk, bk.seats[0]) !in mine';
  }

  /** The hold is confirmed, all of it. */
  lemma {:induction false} BookedKeepsSeats(s: Sys, db: Db, p: ProcId, b: BookingId)
    requires SeatInv(s) && p in s.procs && s.procs[p].booking == b && b in s.bookings
    requires Sound(db) && db.nextHold == s.db.nextHold && HoldsLocked(s.db.rows, s.bookings[b])
    requires db.rows == BookRows(s.db.rows, Mine(s.db.rows, s.bookings[b]).Keys, b)
    ensures SeatInv(s.(db := db)) && SeatsBooked(db.rows, b, s.bookings[b])
  {
    var bk := s.bookings[b];
    assert SeatFits(s, b);
    BookingTheHold(s.db.rows, b, bk);
    UniformHolds(s);
    MineIsWhole(s.db.rows, bk);
    HoldRuns.BookingIsTogether(s.db.rows, Mine(s.db.rows, bk).Keys, b, s.db.nextHold);
    forall k | k in db.rows && k.hold == bk.hold.value.number ensures RowFits(s.(db := db), k) {
      assert RowFits(s, k) && KeyFor(bk, k.seat) == k;
    }
    HoldRowsChange(s, db, p, b);
  }

  /** The hold is gone, all of it. */
  lemma {:induction false} GoneKeepsSeats(s: Sys, db: Db, p: ProcId, b: BookingId)
    requires SeatInv(s) && p in s.procs && s.procs[p].booking == b && b in s.bookings && s.bookings[b].hold.Some?
    requires Sound(db) && db.nextHold == s.db.nextHold && s.bookings[b].status != Confirmed
    requires db.rows == s.db.rows - Mine(s.db.rows, s.bookings[b]).Keys
    requires forall q | q in s.procs && s.procs[q].booking == b :: s.procs[q].pc != Finishing
    ensures SeatInv(s.(db := db)) && !HoldsLocked(db.rows, s.bookings[b])
  {
    var bk := s.bookings[b];
    assert SeatFits(s, b);
    DroppingTheHold(s.db.rows, bk);
    UniformHolds(s);
    MineIsWhole(s.db.rows, bk);
    HoldRuns.RemovalIsTogether(s.db.rows, Mine(s.db.rows, bk).Keys, s.db.nextHold);
    HoldRowsChange(s, db, p, b);
  }

  function ConfirmOf(b: BookingId, bk: Booking): L.Op {
    L.Confirm(bk.sched, bk.seats, bk.user, b, bk.from, bk.to)
  }

  lemma {:induction false} CallKeepsSeats(s: Sys, p: ProcId, up: bool)
    requires SeatInv(s) && Control(s) && Proper(s, Call(p, up))
    ensures SeatInv(CallStep(s, p, up))
  {
    if At(s, p, Success, Calling) {
      var b := s.procs[p].booking;
      var bk := s.bookings[b];
      var answer := ConfirmSeats(s.db, bk.sched, bk.seats, bk.user, b, bk.from, bk.to);
      if up && answer.1.Done? {
        ConfirmGranted(s, p, b);
        RewriteKeepsSeats(s.(db := answer.0), p, b, Logged(bk, ConfirmStep, true), Finishing);
      } else {
        if up { L.AnswersFit(s.db, ConfirmOf(b, bk), 0); }
        RewriteKeepsSeats(s, p, b, Logged(bk, ConfirmStep, false), Loading);
      }
    }
  }

  lemma {:induction false} ConfirmGranted(s: Sys, p: ProcId, b: BookingId)
    requires SeatInv(s) && p in s.procs && s.procs[p].booking == b && b in s.bookings && NamesOwn(s, s.bookings[b])
    requires var bk := s.bookings[b]; ConfirmSeats(s.db, bk.sched, bk.seats, bk.user, b, bk.from, bk.to).1.Done?
    ensures var bk := s.bookings[b];
            var db := ConfirmSeats(s.db, bk.sched, bk.seats, bk.user, b, bk.from, bk.to).0;
            SeatInv(s.(db := db)) && (Segmented(bk) ==> SeatsBooked(db.rows, b, bk))
  {
    var bk := s.bookings[b];
    var db := ConfirmSeats(s.db, bk.sched, bk.seats, bk.user, b, bk.from, bk.to).0;
    ServeKeepsSound(s.db, ConfirmOf(b, bk), 0);
    L.ServeRows(s.db, ConfirmOf(b, bk), 0);
    if Segmented(bk) {
      NamedIsAllOrNone(s, b);
      BookedKeepsSeats(s, db, p, b);
    } else {
      OutsideKeepsSeats(s, s.(db := db));
    }
  }

  /** Beside a process that compensates, no other is about to write CONFIRMED. */
  lemma {:induction false} UndoneAlone(s: Sys, p: ProcId, q: ProcId)
    requires Control(s) && p in s.procs && q in s.procs && s.procs[p].booking == s.procs[q].booking
    requires s.procs[p].pc.Undoing? && s.procs[p].booking in s.bookings
    ensures s.procs[q].pc != Finishing && s.bookings[s.procs[p].booking].status != Confirmed
  {
    assert ProcFits(s, p) && ProcFits(s, q) && BookingFits(s, s.procs[p].booking);
  }

  lemma {:induction false} CompensateMarks(log: seq<LogEntry>, step: SagaStep)
    ensures HoldUndone(Compensate(log, step)) && step != HoldSeats ==> HoldUndone(log)
  {
    var log' := Compensate(log, step);
    if HoldUndone(log') {
      var i :| 0 <= i < |log'| && log'[i] == LogEntry(HoldSeats, Compensated);
      assert step != HoldSeats ==> log[i] == log'[i];
    }
  }

  lemma {:induction false} UndoKeepsSeats(s: Sys, p: ProcId, up: bool, answer: Option<P.GatewayRefundId>)
    requires SeatInv(s) && Control(s) && Proper(s, Undo(p, up, answer))
    ensures SeatInv(UndoStep(s, p, up, answer))
  {
    if p in s.procs && s.procs[p].pc.Undoing? && s.procs[p].pc.todo != [] && s.procs[p].booking in s.bookings {
      forall q | q in s.procs && s.procs[q].booking == s.procs[p].booking
        ensures s.procs[q].pc != Finishing && s.bookings[s.procs[p].booking].status != Confirmed
      {
        UndoneAlone(s, p, q);
      }
      match s.procs[p].pc.todo[0]
      case HoldSeats => ReleaseKeepsSeats(s, p, up, answer);
      case ConfirmStep => TakeBackKeepsSeats(s, p, up, answer);
      case CreatePayment => PayBackKeepsSeats(s, p, up, answer);
    }
  }

  /** Process `p` is at a compensation of this step, and nobody is about to confirm its booking. */
  predicate Undoes(s: Sys, p: ProcId, step: SagaStep) {
    && p in s.procs && s.procs[p].pc.Undoing? && s.procs[p].pc.todo != [] && s.procs[p].pc.todo[0] == step
    && s.procs[p].booking in s.bookings && s.bookings[s.procs[p].booking].status != Confirmed
    && forall q | q in s.procs && s.procs[q].booking == s.procs[p].booking :: s.procs[q].pc != Finishing
  }

  lemma {:induction false} PayBackKeepsSeats(s: Sys, p: ProcId, up: bool, answer: Option<P.GatewayRefundId>)
    requires SeatInv(s) && Undoes(s, p, CreatePayment)
    ensures SeatInv(UndoStep(s, p, up, answer))
  {
    var pr := s.procs[p];
    var bk := s.bookings[pr.booking];
    var rest := Undoing(pr.pc.todo[1..]);
    var pay := P.InitiateRefund(s.pay, pr.booking, bk.amount, P.Compensation(pr.booking), answer).0;
    CompensateMarks(bk.log, CreatePayment);
    SidewaysKeepsSeats(s, Move(s, p, rest));
    SidewaysKeepsSeats(s, s.(pay := pay));
    RewriteKeepsSeats(s.(pay := pay), p, pr.booking, bk.(log := Compensate(bk.log, CreatePayment)), rest);
  }

  lemma {:induction false} TakeBackKeepsSeats(s: Sys, p: ProcId, up: bool, answer: Option<P.GatewayRefundId>)
    requires SeatInv(s) && Undoes(s, p, ConfirmStep)
    ensures SeatInv(UndoStep(s, p, up, answer))
  {
    var pr := s.procs[p];
    var b := pr.booking;
    var bk := s.bookings[b];
    var rest := Undoing(pr.pc.todo[1..]);
    var db := CancelBooking(s.db, bk.sched, b).0;
    CompensateMarks(bk.log, ConfirmStep);
    SidewaysKeepsSeats(s, Move(s, p, rest));
    CancelledKeepsSeats(s, p, b);
    RewriteKeepsSeats(s.(db := db), p, b, bk.(log := Compensate(bk.log, ConfirmStep)), rest);
  }

  lemma {:induction false} CancelledKeepsSeats(s: Sys, p: ProcId, b: BookingId)
    requires SeatInv(s) && p in s.procs && s.procs[p].booking == b
    requires b in s.bookings && s.bookings[b].status != Confirmed
    requires forall q | q in s.procs && s.procs[q].booking == b :: s.procs[q].pc != Finishing
    ensures SeatInv(s.(db := CancelBooking(s.db, s.bookings[b].sched, b).0))
  {
    var bk := s.bookings[b];
    var db := CancelBooking(s.db, bk.sched, b).0;
    var op := L.CancelOf(bk.sched, b);
    ServeKeepsSound(s.db, op, 0);
    L.ServeRows(s.db, op, 0);
    CarryingIsAllOrNone(s, b);
    if Carrying(s.db.rows, bk.sched, b) == {} || db.rows == s.db.rows {
      assert db.rows == s.db.rows;
      OutsideKeepsSeats(s, s.(db := db));
    } else {
      GoneKeepsSeats(s, db, p, b);
    }
  }

  /** The booking's id is on all rows of its hold or on none, and on no other row. */
  lemma {:induction false} CarryingIsAllOrNone(s: Sys, b: BookingId)
    requires SeatInv(s) && b in s.bookings
    ensures var carrying := Carrying(s.db.rows, s.bookings[b].sched, b);
            carrying == {} || (s.bookings[b].hold.Some? && carrying == Mine(s.db.rows, s.bookings[b]).Keys)
  {
    var bk := s.bookings[b];
    var carrying := Carrying(s.db.rows, bk.sched, b);
    var mine := Mine(s.db.rows, bk);
    if k :| k in carrying {
      forall l | l in carrying ensures l in mine { assert RowFits(s, l); }
      UniformHolds(s);
      forall l | l in mine ensures l in carrying { assert s.db.rows[l] == s.db.rows[k]; }
      assert carrying == mine.Keys;
    }
  }

  function UnlockOf(bk: Booking): L.Op {
    L.Unlock(bk.sched, bk.seats, bk.user, bk.from, bk.to)
  }

  lemma {:induction false} ReleaseKeepsSeats(s: Sys, p: ProcId, up: bool, answer: Option<P.GatewayRefundId>)
    requires SeatInv(s) && Undoes(s, p, HoldSeats) && NamesOwn(s, s.bookings[s.procs[p].booking])
    ensures SeatInv(UndoStep(s, p, up, answer))
  {
    var pr := s.procs[p];
    var b := pr.booking;
    var bk := s.bookings[b];
    var rest := Undoing(pr.pc.todo[1..]);
    var (db, reply) := UnlockSeats(s.db, bk.sched, bk.seats, bk.user, bk.from, bk.to);
    SidewaysKeepsSeats(s, Move(s, p, rest));
    if up && reply.Done? {
      ReleasedKeepsSeats(s, p, b);
      RewriteKeepsSeats(s.(db := db), p, b, bk.(log := Compensate(bk.log, HoldSeats)), rest);
    }
  }

  lemma {:induction false} ReleasedKeepsSeats(s: Sys, p: ProcId, b: BookingId)
    requires SeatInv(s) && p in s.procs && s.procs[p].booking == b
    requires b in s.bookings && s.bookings[b].status != Confirmed
    requires forall q | q in s.procs && s.procs[q].booking == b :: s.procs[q].pc != Finishing
    requires NamesOwn(s, s.bookings[b])
    requires var bk := s.bookings[b]; UnlockSeats(s.db, bk.sched, bk.seats, bk.user, bk.from, bk.to).1.Done?
    ensures var bk := s.bookings[b];
            var db := UnlockSeats(s.db, bk.sched, bk.seats, bk.user, bk.from, bk.to).0;
            SeatInv(s.(db := db)) && !HoldsLocked(db.rows, bk)
  {
    var bk := s.bookings[b];
    var db := UnlockSeats(s.db, bk.sched, bk.seats, bk.user, bk.from, bk.to).0;
    ServeKeepsSound(s.db, UnlockOf(bk), 0);
    L.ServeRows(s.db, UnlockOf(bk), 0);
    assert SeatFits(s, b);
    if !Segmented(bk) {
      OutsideKeepsSeats(s, s.(db := db));
    } else {
      NamedIsAllOrNone(s, b);
      if HoldsLocked(s.db.rows, bk) {
        GoneKeepsSeats(s, db, p, b);
      } else {
        assert db.rows == s.db.rows;
        OutsideKeepsSeats(s, s.(db := db));
      }
    }
  }

  // ----- runs -----

  lemma {:induction false} WorldKeepsSeats(s: Sys, e: Step)
    requires SeatInv(s) && Proper(s, e)
    requires e.Inventory? || e.JobFind? || e.JobDrop? || e.JobRecompute?
             || e.JobFree? || e.JobRecount? || e.Gateway? || e.Tick?
    ensures SeatInv(Next(s, e))
  {
    match e
    case Inventory(op, ttl) => InventoryKeepsSeats(s, op, ttl);
    case JobFind => FindKeepsSeats(s);
    case JobDrop => DropKeepsSeats(s);
    case JobRecompute(sc, S) => JobRecomputeKeepsSeats(s, sc, S);
    case JobFree(sc, S) => JobFreeKeepsSeats(s, sc, S);
    case JobRecount(sc, counts) => JobRecountKeepsSeats(s, sc, counts);
    case Gateway(a) => SidewaysKeepsSeats(s, GatewayStep(s, a));
    case Tick(now) => SidewaysKeepsSeats(s, Next(s, e));
  }

  lemma {:induction false} CreationKeepsSeats(s: Sys, e: Step)
    requires SeatInv(s) && Control(s) && Proper(s, e)
    requires e.Book? || e.Hold? || e.Pay? || e.Abandon?
    ensures SeatInv(Next(s, e))
  {
    match e
    case Book(_, _, _, _, _, _, _, _) => BookKeepsSeats(s, e);
    case Hold(p, up, ttl) => HoldKeepsSeats(s, p, up, L.Deadline(s.clock, ttl));
    case Pay(p, up) => PayKeepsSeats(s, p, up);
    case Abandon(p) => AbandonKeepsSeats(s, p);
  }

  lemma {:induction false} ContenderKeepsSeats(s: Sys, e: Step)
    requires SeatInv(s) && Control(s) && Proper(s, e)
    requires e.Spawn? || e.Read? || e.Claim?
    ensures SeatInv(Next(s, e))
  {
    match e
    case Spawn(p, kind, b) => SpawnKeepsSeats(s, p, kind, b);
    case Read(p) => ReadKeepsSeats(s, p);
    case Claim(p) => ClaimKeepsSeats(s, p);
  }

  lemma {:induction false} ClaimedKeepsSeats(s: Sys, e: Step)
    requires SeatInv(s) && Control(s) && Proper(s, e)
    requires e.Call? || e.Finish? || e.Load? || e.Undo? || e.Fail? || e.Refund?
    ensures SeatInv(Next(s, e))
  {
    match e
    case Call(p, up) => CallKeepsSeats(s, p, up);
    case Finish(p, up) => FinishKeepsSeats(s, p, up);
    case Load(p) => LoadKeepsSeats(s, p);
    case Undo(p, up, answer) => UndoKeepsSeats(s, p, up, answer);
    case Fail(p) => FailKeepsSeats(s, p);
    case Refund(p, up, answer) => RefundKeepsSeats(s, p, up, answer);
  }

  lemma {:induction false} NextKeepsSeats(s: Sys, e: Step)
    requires SeatInv(s) && Control(s) && Proper(s, e)
    ensures SeatInv(Next(s, e))
  {
    if e.Book? || e.Hold? || e.Pay? || e.Abandon? {
      CreationKeepsSeats(s, e);
    } else if e.Spawn? || e.Read? || e.Claim? {
      ContenderKeepsSeats(s, e);
    } else if e.Call? || e.Finish? || e.Load? || e.Undo? || e.Fail? || e.Refund? {
      ClaimedKeepsSeats(s, e);
    } else {
      WorldKeepsSeats(s, e);
    }
  }

  // ----- exactly when a call reaches its own rows -----

  function NamedBy(s: Sys, bk: Booking): set<RowId> {
    Named(s.db.rows, bk.sched, Found(s.db.seats, bk.sched, bk.seats), bk.user, bk.from, bk.to)
  }

  /** A release or confirmation names no other booking's rows exactly when the booking's own hold
      is still there, or nothing is named at all. So the hypothesis of a fair run fails only when a
      hold has run out and the same user has by then taken another on a seat and segment of it. */
  lemma {:induction false} NamesOwnIff(s: Sys, b: BookingId)
    requires SeatInv(s) && b in s.bookings && Segmented(s.bookings[b])
    requires |Found(s.db.seats, s.bookings[b].sched, s.bookings[b].seats)| == |s.bookings[b].seats|
    ensures NamesOwn(s, s.bookings[b]) <==> HoldsLocked(s.db.rows, s.bookings[b]) || NamedBy(s, s.bookings[b]) == {}
  {
    var bk := s.bookings[b];
    if NamesOwn(s, bk) {
      NamedIsAllOrNone(s, b);
    }
    if HoldsLocked(s.db.rows, bk) {
      FoundIsMembers(s.db.seats, bk.sched, bk.seats);
      assert SeatFits(s, b);
      forall k | k in NamedBy(s, bk) ensures k.hold == bk.hold.value.number { LiveHoldExcludes(s, b, k); }
    }
  }

  /** Where a live hold has a LOCKED row, no other row of its segment can be. */
  lemma {:induction false} LiveHoldExcludes(s: Sys, b: BookingId, k: RowId)
    requires SeatInv(s) && b in s.bookings && HoldsLocked(s.db.rows, s.bookings[b])
    requires s.bookings[b].from < s.bookings[b].to
    requires k in s.db.rows && k.seat in s.bookings[b].seats && s.db.rows[k].sched == s.bookings[b].sched
    requires s.db.rows[k].from == s.bookings[b].from && s.db.rows[k].to == s.bookings[b].to
    ensures k.hold == s.bookings[b].hold.value.number
  {
    var bk := s.bookings[b];
    var l := KeyFor(bk, k.seat);
    assert l in Mine(s.db.rows, bk) && Mine(s.db.rows, bk)[l] == LockedRow(bk);
    assert L.Apart(s.db.rows, k, l);
  }

  /** A granted segment confirmation has booked the booking's own rows exactly when it named only
      them, which confirmSeats does not check. */
  lemma {:induction false} ConfirmIsRightIff(s: Sys, b: BookingId)
    requires SeatInv(s) && b in s.bookings && Segmented(s.bookings[b]) && !SeatsBooked(s.db.rows, b, s.bookings[b])
    requires var bk := s.bookings[b]; ConfirmSeats(s.db, bk.sched, bk.seats, bk.user, b, bk.from, bk.to).1.Done?
    ensures var bk := s.bookings[b];
            var rows' := ConfirmSeats(s.db, bk.sched, bk.seats, bk.user, b, bk.from, bk.to).0.rows;
            SeatsBooked(rows', b, bk) <==> NamesOwn(s, bk)
  {
    var bk := s.bookings[b];
    L.ServeRows(s.db, ConfirmOf(b, bk), 0);
    NamesOwnIff(s, b);
    assert SeatFits(s, b);
    var rows' := BookRows(s.db.rows, NamedBy(s, bk), b);
    if HoldsLocked(s.db.rows, bk) {
      NamedIsAllOrNone(s, b);
      BookingTheHold(s.db.rows, b, bk);
    } else {
      NothingOwnBooked(s, b, NamedBy(s, bk));
    }
  }

  lemma {:induction false} NothingOwnBooked(s: Sys, b: BookingId, hit: set<RowId>)
    requires SeatInv(s) && b in s.bookings && !SeatsBooked(s.db.rows, b, s.bookings[b])
    requires !HoldsLocked(s.db.rows, s.bookings[b])
    ensures !SeatsBooked(BookRows(s.db.rows, hit, b), b, s.bookings[b])
  {
    var bk := s.bookings[b];
    assert SeatFits(s, b);
    if bk.hold.Some? {
      assert Mine(s.db.rows, bk) == map[];
      assert KeyFor(bk, bk.seats[0]) !in Mine(s.db.rows, bk) && KeyFor(bk, bk.seats[0]) !in s.db.rows;
      assert KeyFor(bk, bk.seats[0]) !in Mine(BookRows(s.db.rows, hit, b), bk);
    }
  }

  // ----- rollback -----

  predicate HoldDone(log: seq<LogEntry>) {
    LogEntry(HoldSeats, Completed) in log
  }

  /** A hold has left its step in the saga log, compensated or not. */
  predicate HoldLogged(bk: Booking) {
    bk.hold.Some? ==> HoldDone(bk.log) || HoldUndone(bk.log)
  }

  lemma {:induction false} CompensateRewrites(log: seq<LogEntry>, step: SagaStep)
    ensures HoldDone(log) || HoldUndone(log) ==> HoldDone(Compensate(log, step)) || HoldUndone(Compensate(log, step))
  {
    var log' := Compensate(log, step);
    if HoldUndone(log) {
      var i :| 0 <= i < |log| && log[i] == LogEntry(HoldSeats, Compensated);
      assert log'[i] == log[i];
    } else if HoldDone(log) {
      var i :| 0 <= i < |log| && log[i] == LogEntry(HoldSeats, Completed);
      assert log'[i] == LogEntry(HoldSeats, Completed) || log'[i] == LogEntry(HoldSeats, Compensated);
    }
  }

  lemma {:induction false} NextKeepsHoldLogged(s: Sys, e: Step, b: BookingId)
    requires b in s.bookings && HoldLogged(s.bookings[b])
    ensures b in Next(s, e).bookings && HoldLogged(Next(s, e).bookings[b])
  {
    if e.Undo? {
      if e.p in s.procs && s.procs[e.p].pc.Undoing? && s.procs[e.p].pc.todo != []
         && s.procs[e.p].booking in s.bookings {
        CompensateRewrites(s.bookings[b].log, s.procs[e.p].pc.todo[0]);
        UndoRewrites(s, e.p, e.up, e.answer);
      }
    } else if e.Hold? || e.Pay? || e.Call? {
      LoggedKeepsHoldLogged(s, e, b);
    } else if e.Claim? || e.Finish? || e.Fail? || e.Abandon? {
      WriteKeepsLog(s, e, b);
    } else {
      OthersKeepBooking(s, e, b);
    }
  }

  lemma {:induction false} WriteKeepsLog(s: Sys, e: Step, b: BookingId)
    requires b in s.bookings && (e.Claim? || e.Finish? || e.Fail? || e.Abandon?)
    ensures b in Next(s, e).bookings && SameLog(s.bookings[b], Next(s, e).bookings[b])
  {
    match e
    case Claim(p) => ClaimKeepsLog(s, p, b);
    case Finish(p, up) =>
      assert b in FinishStep(s, p, up).bookings && SameLog(s.bookings[b], FinishStep(s, p, up).bookings[b]);
    case Fail(p) =>
      assert b in FailStep(s, p).bookings && SameLog(s.bookings[b], FailStep(s, p).bookings[b]);
    case Abandon(p) =>
      assert b in AbandonStep(s, p).bookings && SameLog(s.bookings[b], AbandonStep(s, p).bookings[b]);
  }

  predicate SameLog(bk: Booking, bk': Booking) {
    bk'.log == bk.log && bk'.hold == bk.hold
  }

  lemma {:induction false} ClaimKeepsLog(s: Sys, p: ProcId, b: BookingId)
    requires b in s.bookings
    ensures b in ClaimStep(s, p).bookings && SameLog(s.bookings[b], ClaimStep(s, p).bookings[b])
  {
  }

  lemma {:induction false} OthersKeepBooking(s: Sys, e: Step, b: BookingId)
    requires b in s.bookings && !e.Undo? && !e.Hold? && !e.Pay? && !e.Call?
    requires !e.Claim? && !e.Finish? && !e.Fail? && !e.Abandon?
    ensures b in Next(s, e).bookings && Next(s, e).bookings[b] == s.bookings[b]
  {
  }

  lemma {:induction false} UndoRewrites(s: Sys, p: ProcId, up: bool, answer: Option<P.GatewayRefundId>)
    requires p in s.procs && s.procs[p].pc.Undoing? && s.procs[p].pc.todo != [] && s.procs[p].booking in s.bookings
    ensures var b, step := s.procs[p].booking, s.procs[p].pc.todo[0];
            var bk := s.bookings[b];
            var s' := UndoStep(s, p, up, answer);
            s'.bookings == s.bookings || s'.bookings == s.bookings[b := bk.(log := Compensate(bk.log, step))]
  {
  }

  /** One more entry in the log. */
  lemma {:induction false} LoggedIsHoldLogged(bk: Booking, step: SagaStep, ok: bool)
    ensures var bk' := Logged(bk, step, ok);
            (HoldLogged(bk) ==> HoldLogged(bk')) && (step == HoldSeats && ok ==> HoldDone(bk'.log))
  {
    var log, log' := bk.log, Logged(bk, step, ok).log;
    assert log <= log' && log'[|log|] == LogEntry(step, if ok then Completed else StepFailed);
    assert log'[|log|] in log' && forall e | e in log :: e in log';
  }

  lemma {:induction false} LoggedKeepsHoldLogged(s: Sys, e: Step, b: BookingId)
    requires b in s.bookings && HoldLogged(s.bookings[b]) && (e.Hold? || e.Pay? || e.Call?)
    ensures b in Next(s, e).bookings && HoldLogged(Next(s, e).bookings[b])
  {
    var step := if e.Hold? then HoldSeats else if e.Pay? then CreatePayment else ConfirmStep;
    LoggedIsHoldLogged(s.bookings[b], step, true);
    LoggedIsHoldLogged(s.bookings[b], step, false);
  }

  lemma {:induction false} LockedRowMeansHold(s: Sys, b: BookingId, k: RowId)
    requires SeatInv(s) && b in s.bookings && HoldLogged(s.bookings[b]) && !HoldDone(s.bookings[b].log)
    requires k in s.db.rows && k.hold in s.holders && s.holders[k.hold] == b
    ensures s.db.rows[k].status == Booked
  {
    assert SeatFits(s, b) && RowFits(s, k) && KeyFor(s.bookings[b], k.seat) == k;
    assert k in Mine(s.db.rows, s.bookings[b]);
  }
}
