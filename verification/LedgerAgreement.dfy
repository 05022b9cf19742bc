/** When the summary columns of seat_inventories can be trusted.

    `M` is the set of segment-managed seats: they are only ever locked, unlocked and confirmed
    with a segment, the other seats only without one. The source has no such rule of its own;
    it is the hypothesis under which a seat's status means anything, because locking a segment
    does not look at it. */
module LedgerAgreement {
  import opened Ledger
  import opened LedgerRuns

  predicate Respects(op: Op, M: set<SeatKey>) {
    match op
    case Lock(sc, ids, _, from, to) => forall s | s in ids :: SeatKey(sc, s) in M <==> IsSegment(from, to)
    case Unlock(sc, ids, _, from, to) => forall s | s in ids :: SeatKey(sc, s) in M <==> IsSegment(from, to)
    case Confirm(sc, ids, _, _, from, to) => forall s | s in ids :: SeatKey(sc, s) in M <==> IsSegment(from, to)
    case _ => true
  }

  predicate Closed(db: Db, sc: ScheduleId) {
    sc in db.schedules && !db.schedules[sc].active
  }

  /** The seat's status is the function of its rows, or the seat was cancelled with its schedule. */
  predicate SeatAgrees(db: Db, k: SeatKey)
    requires k in db.seats
  {
    || db.seats[k].status == Summary(db.rows, k.sched, k.seat)
    || (db.seats[k].status == Cancelled && Closed(db, k.sched))
  }

  predicate Agrees(db: Db, M: set<SeatKey>, stale: set<SeatKey>) {
    forall k {:trigger SeatAgrees(db, k)} | k in M && k in db.seats && k !in stale :: SeatAgrees(db, k)
  }

  function KeyOf(rows: Rows, k: RowId): SeatKey
    requires k in rows
  {
    SeatKey(rows[k].sched, k.seat)
  }

  /** Expiry dominance: a LOCKED row has an expiry, its seat has one unless the job has freed it
      since it was last locked, and the seat's is no earlier. */
  predicate Dominates(db: Db, undated: set<SeatKey>) {
    forall k | k in db.rows && db.rows[k].status == Locked ::
      && KeyOf(db.rows, k) in db.seats && db.rows[k].expires.Some?
      && DatedBy(db.seats[KeyOf(db.rows, k)].expires, db.rows[k].expires.value, KeyOf(db.rows, k) in undated)
  }

  predicate DatedBy(seat: Option<int>, row: int, undated: bool) {
    if seat.None? then undated else row <= seat.value
  }

  predicate RowsWithin(rows: Rows, M: set<SeatKey>) {
    forall k | k in rows :: KeyOf(rows, k) in M
  }

  predicate NeverBookedWhole(seats: Seats, M: set<SeatKey>) {
    forall k | k in M && k in seats :: seats[k].booking == None
  }

  predicate ExpireBy(rows: Rows, bound: int) {
    forall k | k in rows && rows[k].expires.Some? :: rows[k].expires.value <= bound
  }

  predicate Trusted(db: Db, M: set<SeatKey>, stale: set<SeatKey>, undated: set<SeatKey>, bound: int) {
    && SeatsOwned(db) && RowsOwned(db) && BookedCarry(db.rows)
    && Agrees(db, M, stale) && Dominates(db, undated)
    && RowsWithin(db.rows, M) && NeverBookedWhole(db.seats, M) && ExpireBy(db.rows, bound)
  }

  function KeysFor(sc: ScheduleId, S: set<SeatId>): set<SeatKey> {
    set s | s in S :: SeatKey(sc, s)
  }

  lemma {:induction false} SummaryFrame(before: Db, db: Db, sc: ScheduleId, S: set<SeatId>, k: SeatKey)
    requires OnlyTouches(before, db, sc, S) && !(k.sched == sc && k.seat in S)
    ensures Summary(db.rows, k.sched, k.seat) == Summary(before.rows, k.sched, k.seat)
  {
    forall i | i in db.rows && IsFor(db.rows, i, k.sched, k.seat)
      ensures i in before.rows && before.rows[i] == db.rows[i] {}
    forall i | i in before.rows && IsFor(before.rows, i, k.sched, k.seat)
      ensures i in db.rows && before.rows[i] == db.rows[i] {}
  }

  /** Recomputing the touched seats restores the agreement, also of those that had lost it. */
  lemma {:induction false} SettleAgrees(before: Db, db: Db, sc: ScheduleId, S: set<SeatId>, M: set<SeatKey>,
      stale: set<SeatKey>)
    requires SeatsOwned(before) && Agrees(before, M, stale) && OnlyTouches(before, db, sc, S)
    requires sc in db.schedules
    ensures Agrees(Settle(db, sc, S).0, M, stale - KeysFor(sc, S))
  {
    var after := Settle(db, sc, S).0;
    forall k | k in M && k in after.seats && k !in stale - KeysFor(sc, S) ensures SeatAgrees(after, k) {
      if k.sched == sc && k.seat in S {
        assert SeatKey(sc, k.seat) == k;
      } else {
        assert k !in KeysFor(sc, S);
        SummaryFrame(before, db, sc, S, k);
        assert SeatAgrees(before, k);
      }
    }
  }

  lemma {:induction false} RecomputeDominates(db: Db, sc: ScheduleId, S: set<SeatId>, undated: set<SeatKey>)
    requires RowsOwned(db) && Dominates(db, undated)
    ensures Dominates(Recompute(db, sc, S), undated)
  {
    var after := Recompute(db, sc, S);
    forall k | k in db.rows && db.rows[k].status == Locked
      ensures KeyOf(db.rows, k) in after.seats
              && after.seats[KeyOf(db.rows, k)].expires == db.seats[KeyOf(db.rows, k)].expires
    {
      assert IsFor(db.rows, k, db.rows[k].sched, k.seat);
    }
  }

  lemma {:induction false} SettleIsTrusted(before: Db, db: Db, sc: ScheduleId, S: set<SeatId>, M: set<SeatKey>,
      stale: set<SeatKey>, undated: set<SeatKey>, bound: int)
    requires SeatsOwned(before) && Agrees(before, M, stale) && OnlyTouches(before, db, sc, S)
    requires sc in db.schedules && RowsOwned(db) && BookedCarry(db.rows) && Dominates(db, undated)
    requires RowsWithin(db.rows, M) && NeverBookedWhole(db.seats, M) && ExpireBy(db.rows, bound)
    ensures Trusted(Settle(db, sc, S).0, M, stale - KeysFor(sc, S), undated, bound)
  {
    SettleAgrees(before, db, sc, S, M, stale);
    RecomputeDominates(db, sc, S, undated);
    assert Recompute(db, sc, S).seats.Keys == db.seats.Keys;
  }

  /** A full-journey update of seats outside `M` is not felt inside. */
  lemma {:induction false} ShiftIsTrusted(db: Db, sc: ScheduleId, S: set<SeatId>, e: Edit, a: Status, b: Status,
      M: set<SeatKey>, stale: set<SeatKey>, undated: set<SeatKey>, bound: int)
    requires Trusted(db, M, stale, undated, bound)
    requires forall s | s in S :: SeatKey(sc, s) !in M
    ensures Trusted(Shift(db, sc, S, e, a, b).0, M, stale, undated, bound)
  {
    var after := Shift(db, sc, S, e, a, b).0;
    forall k | k in M && k in db.seats ensures k in after.seats && after.seats[k] == db.seats[k] {
      assert k.sched == sc && k.seat in S ==> SeatKey(sc, k.seat) == k;
    }
    assert after.seats.Keys == db.seats.Keys;
    UntouchedIsTrusted(db, after, M, stale, undated, bound);
  }

  /** Trust rests on the rows, on the seats of `M` and on which schedules are active. */
  lemma {:induction false} UntouchedIsTrusted(db: Db, after: Db, M: set<SeatKey>, stale: set<SeatKey>,
      undated: set<SeatKey>, bound: int)
    requires Trusted(db, M, stale, undated, bound)
    requires after.rows == db.rows && after.nextHold == db.nextHold && db.seats.Keys <= after.seats.Keys
    requires SeatsOwned(after)
    requires forall k | k in M && k in db.seats :: after.seats[k] == db.seats[k]
    requires forall k | k in M && k in after.seats && k !in db.seats ::
      after.seats[k] == FREE && Summary(db.rows, k.sched, k.seat) == Available
    requires forall sc | sc in db.schedules ::
      sc in after.schedules && after.schedules[sc].active == db.schedules[sc].active
    ensures Trusted(after, M, stale, undated, bound)
  {
    forall k | k in M && k in after.seats && k !in stale ensures SeatAgrees(after, k) {
      if k in db.seats { assert SeatAgrees(db, k); }
    }
  }

  /** A granted segment lock settles and dates its seats. */
  lemma {:induction false} LockIsTrusted(db: Db, op: Op, expires: int, M: set<SeatKey>, stale: set<SeatKey>,
      undated: set<SeatKey>)
    requires op.Lock? && Respects(op, M) && Trusted(db, M, stale, undated, expires) && NonOverlapping(db.rows)
    ensures var settled := Settled(db, op, expires);
            Trusted(Serve(db, op, expires), M, stale - settled, undated - settled, expires)
  {
    var S := Found(db.seats, op.sc, op.ids);
    if Settles(db, op, expires) {
      assert Settled(db, op, expires) == KeysFor(op.sc, S);
      LockSegmentIsTrusted(db, op.sc, S, op.user, expires, op.from, op.to, M, stale, undated);
    } else {
      assert stale - Settled(db, op, expires) == stale && undated - Settled(db, op, expires) == undated;
      if op.sc in db.schedules && !IsSegment(op.from, op.to) {
        ShiftIsTrusted(db, op.sc, S, TakeWhole(op.user, expires), Available, Locked, M, stale, undated, expires);
      } else {
        LockAnswers(db, op.sc, op.ids, op.user, expires, op.from, op.to);
      }
    }
  }

  lemma {:induction false} LockSegmentIsTrusted(db: Db, sc: ScheduleId, S: set<SeatId>, user: UserId, expires: int,
      from: int, to: int, M: set<SeatKey>, stale: set<SeatKey>, undated: set<SeatKey>)
    requires Trusted(db, M, stale, undated, expires) && NonOverlapping(db.rows) && sc in db.schedules
    requires forall s | s in S :: SeatKey(sc, s) in db.seats && SeatKey(sc, s) in M
    requires !Blocked(db.rows, sc, S, from, to)
    ensures Trusted(LockSegment(db, sc, S, user, expires, from, to).0, M, stale - KeysFor(sc, S),
                    undated - KeysFor(sc, S), expires)
  {
    var row := SegRow(sc, from, to, Locked, user, Some(expires), None);
    var db1 := Inserted(db, sc, S, row, expires);
    LockTouches(db, sc, S, user, expires, row);
    InsertedDominates(db, sc, S, row, expires, M, undated);
    SettleIsTrusted(db, db1, sc, S, M, stale, undated - KeysFor(sc, S), expires);
  }

  lemma {:induction false} InsertedDominates(db: Db, sc: ScheduleId, S: set<SeatId>, row: SegRow, expires: int,
      M: set<SeatKey>, undated: set<SeatKey>)
    requires RowsOwned(db) && Dominates(db, undated) && ExpireBy(db.rows, expires)
    requires RowsWithin(db.rows, M) && NeverBookedWhole(db.seats, M)
    requires row == SegRow(sc, row.from, row.to, Locked, row.user, Some(expires), None)
    requires forall s | s in S :: SeatKey(sc, s) in db.seats && SeatKey(sc, s) in M
    ensures var db1 := Inserted(db, sc, S, row, expires);
            && Dominates(db1, undated - KeysFor(sc, S)) && ExpireBy(db1.rows, expires)
            && RowsWithin(db1.rows, M) && NeverBookedWhole(db1.seats, M)
  {
    forall k | k in KeysFor(sc, S) ensures k.sched == sc && k.seat in S {}
  }

  lemma {:induction false} UnlockIsTrusted(db: Db, op: Op, expires: int, M: set<SeatKey>, stale: set<SeatKey>,
      undated: set<SeatKey>)
    requires op.Unlock? && Respects(op, M) && Trusted(db, M, stale, undated, expires) && NonOverlapping(db.rows)
    ensures Trusted(Serve(db, op, expires), M, stale - Settled(db, op, expires), undated, expires)
  {
    var S := Found(db.seats, op.sc, op.ids);
    FoundHasSchedule(db, op.sc, op.ids);
    if Settles(db, op, expires) {
      assert Settled(db, op, expires) == KeysFor(op.sc, S);
      UnlockTouches(db, op.sc, S, op.user, op.from, op.to);
      SettleIsTrusted(db, db.(rows := db.rows - Named(db.rows, op.sc, S, op.user, op.from, op.to)), op.sc, S,
                      M, stale, undated, expires);
    } else {
      assert stale - Settled(db, op, expires) == stale;
      AnswersFit(db, op, expires);
      if !IsSegment(op.from, op.to) {
        ShiftIsTrusted(db, op.sc, S, ReleaseWhole, Locked, Available, M, stale, undated, expires);
      }
    }
  }

  lemma {:induction false} ConfirmIsTrusted(db: Db, op: Op, expires: int, M: set<SeatKey>, stale: set<SeatKey>,
      undated: set<SeatKey>)
    requires op.Confirm? && Respects(op, M) && Trusted(db, M, stale, undated, expires) && NonOverlapping(db.rows)
    ensures Trusted(Serve(db, op, expires), M, stale - Settled(db, op, expires), undated, expires)
  {
    var S := Found(db.seats, op.sc, op.ids);
    FoundHasSchedule(db, op.sc, op.ids);
    if Settles(db, op, expires) {
      assert Settled(db, op, expires) == KeysFor(op.sc, S);
      var hit := Named(db.rows, op.sc, S, op.user, op.from, op.to);
      BookingIsTrusted(db, op.sc, S, hit, op.booking, M, stale, undated, expires);
    } else {
      assert stale - Settled(db, op, expires) == stale;
      AnswersFit(db, op, expires);
      if !IsSegment(op.from, op.to) {
        ShiftIsTrusted(db, op.sc, S, BookWhole(op.booking), Locked, Booked, M, stale, undated, expires);
      }
    }
  }

  lemma {:induction false} BookingIsTrusted(db: Db, sc: ScheduleId, S: set<SeatId>, hit: set<RowId>,
      booking: BookingId, M: set<SeatKey>, stale: set<SeatKey>, undated: set<SeatKey>, bound: int)
    requires Trusted(db, M, stale, undated, bound) && NonOverlapping(db.rows) && sc in db.schedules
    requires forall k | k in hit :: k in db.rows && db.rows[k].sched == sc && k.seat in S
    ensures Trusted(Settle(db.(rows := BookRows(db.rows, hit, booking)), sc, S).0,
            M, stale - KeysFor(sc, S), undated, bound)
  {
    ConfirmTouches(db, sc, S, hit, booking);
    SettleIsTrusted(db, db.(rows := BookRows(db.rows, hit, booking)), sc, S, M, stale, undated, bound);
  }

  lemma {:induction false} CancelIsTrusted(db: Db, op: Op, expires: int, M: set<SeatKey>, stale: set<SeatKey>,
      undated: set<SeatKey>)
    requires op.CancelOf? && Trusted(db, M, stale, undated, expires)
    ensures Trusted(Serve(db, op, expires), M, stale - Settled(db, op, expires), undated, expires)
  {
    var affected := BookedSeatsOf(db.rows, op.sc, op.booking);
    AnswersFit(db, op, expires);
    if Settles(db, op, expires) {
      assert Settled(db, op, expires) == KeysFor(op.sc, affected);
      CancelTouches(db, op.sc, op.booking);
      SettleIsTrusted(db, db.(rows := db.rows - Carrying(db.rows, op.sc, op.booking)), op.sc, affected,
                      M, stale, undated, expires);
    } else {
      assert stale - Settled(db, op, expires) == stale;
      if affected == {} {
        var S := BookedWhole(db.seats, op.sc, op.booking);
        forall s | s in S ensures SeatKey(op.sc, s) !in M { assert SeatKey(op.sc, s) in db.seats; }
        ShiftIsTrusted(db, op.sc, S, Clear, Booked, Available, M, stale, undated, expires);
      }
    }
  }

  lemma {:induction false} CreateIsTrusted(db: Db, sc: ScheduleId, ids: seq<SeatId>, M: set<SeatKey>,
      stale: set<SeatKey>, undated: set<SeatKey>, bound: int)
    requires Trusted(db, M, stale, undated, bound)
    ensures Trusted(InitializeInventory(db, sc, ids), M, stale, undated, bound)
  {
    var after := InitializeInventory(db, sc, ids);
    if after != db {
      forall k | k in after.seats && k !in db.seats ensures Summary(db.rows, k.sched, k.seat) == Available {
        forall i | i in db.rows ensures !IsFor(db.rows, i, k.sched, k.seat) { assert KeyOf(db.rows, i) in db.seats; }
      }
      forall k | k in db.seats ensures after.seats[k] == db.seats[k] {}
      UntouchedIsTrusted(db, after, M, stale, undated, bound);
    }
  }

  lemma {:induction false} CloseIsTrusted(db: Db, sc: ScheduleId, M: set<SeatKey>, stale: set<SeatKey>,
      undated: set<SeatKey>, bound: int)
    requires Trusted(db, M, stale, undated, bound)
    ensures Trusted(CancelSchedule(db, sc), M, stale, undated, bound)
  {
    var after := CancelSchedule(db, sc);
    if after != db {
      assert after.seats.Keys == db.seats.Keys;
      forall k | k in M && k in after.seats && k !in stale ensures SeatAgrees(after, k) {
        assert SeatAgrees(db, k);
      }
    }
  }

  lemma {:induction false} RequestIsTrusted(db: Db, op: Op, expires: int, M: set<SeatKey>, debt: Debt)
    requires Respects(op, M) && Trusted(db, M, debt.stale, debt.undated, expires) && NonOverlapping(db.rows)
    ensures var debt' := AfterRequest(debt, db, op, expires);
            Trusted(Serve(db, op, expires), M, debt'.stale, debt'.undated, expires)
  {
    match op
    case Lock(_, _, _, _, _) => LockIsTrusted(db, op, expires, M, debt.stale, debt.undated);
    case Unlock(_, _, _, _, _) => UnlockIsTrusted(db, op, expires, M, debt.stale, debt.undated);
    case Confirm(_, _, _, _, _, _) => ConfirmIsTrusted(db, op, expires, M, debt.stale, debt.undated);
    case CancelOf(_, _) => CancelIsTrusted(db, op, expires, M, debt.stale, debt.undated);
    case Create(sc, ids) =>
      assert debt.stale - Settled(db, op, expires) == debt.stale;
      CreateIsTrusted(db, sc, ids, M, debt.stale, debt.undated, expires);
    case Close(sc) =>
      assert debt.stale - Settled(db, op, expires) == debt.stale;
      CloseIsTrusted(db, sc, M, debt.stale, debt.undated, expires);
  }

  // ----- the job, whatever fails in it -----

  /** What the leader's snapshot still tells about the tables. */
  predicate JobKnows(w: World) {
    match w.job
    case Idle => true
    case FoundRows(now, ids, seats) =>
      && now <= w.clock
      && (forall k | k in w.db.rows && w.db.rows[k].status == Locked && Before(w.db.rows[k].expires, now) :: k in ids)
      && (forall k | k in ids :: k.hold < w.db.nextHold)
      && (forall k | k in ids && k in w.db.rows :: KeyOf(w.db.rows, k) in seats)
    case PhaseOne(now, _, _) =>
      && now <= w.clock
      && (forall k | k in w.db.rows && w.db.rows[k].status == Locked :: !Before(w.db.rows[k].expires, now))
    case PhaseOneFailed(now) => now <= w.clock
    case PhaseTwo(_, _) => true
  }

  predicate TrustedWorld(w: World, M: set<SeatKey>, ttl: nat) {
    Trusted(w.db, M, w.debt.stale, w.debt.undated, Deadline(w.clock, ttl)) && JobKnows(w)
  }

  /** A request puts no row under the leader's feet: new rows expire after its clock reading,
      and the others keep their key, their schedule and, while LOCKED, their expiry. */
  lemma {:induction false} RequestKeepsKnowledge(w: World, op: Op, ttl: nat)
    requires SeatsOwned(w.db) && RowsOwned(w.db) && JobKnows(w)
    ensures JobKnows(Next(w, Request(op), ttl))
  {
    ServeRows(w.db, op, Deadline(w.clock, ttl));
    RowsKeepIdentity(w.db, op, Deadline(w.clock, ttl));
  }

  lemma {:induction false} RowsKeepIdentity(db: Db, op: Op, expires: int)
    requires SeatsOwned(db) && RowsOwned(db)
    ensures var db' := Serve(db, op, expires);
            && db.nextHold <= db'.nextHold
            && (forall k | k in db'.rows && k in db.rows ::
                  && db'.rows[k].sched == db.rows[k].sched
                  && (db'.rows[k].status == Locked ==> db'.rows[k] == db.rows[k]))
            && (forall k | k in db'.rows && k !in db.rows ::
                  k.hold == db.nextHold && db'.rows[k].status == Locked && db'.rows[k].expires == Some(expires))
  {
    ServeRows(db, op, expires);
  }

  lemma {:induction false} DropIsTrusted(w: World, M: set<SeatKey>, ttl: nat)
    requires TrustedWorld(w, M, ttl) && w.job.FoundRows?
    ensures TrustedWorld(Next(w, DropRows, ttl), M, ttl)
  {
    var after := DeleteRows(w.db, w.job.ids);
    forall k | k in M && k in after.seats && k !in w.debt.stale + w.job.seats ensures SeatAgrees(after, k) {
      assert SeatAgrees(w.db, k);
      forall i | i in w.db.rows && IsFor(w.db.rows, i, k.sched, k.seat) ensures i in after.rows {
        assert KeyOf(w.db.rows, i) == k;
      }
    }
  }

  lemma {:induction false} RecomputeIsTrusted(w: World, sc: ScheduleId, M: set<SeatKey>, ttl: nat)
    requires TrustedWorld(w, M, ttl) && w.job.PhaseOne? && w.job.tally.NoTally?
    ensures TrustedWorld(Next(w, RecomputeGroup(sc), ttl), M, ttl)
  {
    var S := Group(w.job.todo, sc);
    var after := Recompute(w.db, sc, S);
    assert after.seats.Keys == w.db.seats.Keys;
    RecomputeDominates(w.db, sc, S, w.debt.undated);
    forall k | k in M && k in after.seats && k !in w.debt.stale - InSchedule(w.job.todo, sc)
      ensures SeatAgrees(after, k) {
      if k.sched == sc && k.seat in S {
      } else {
        assert k !in InSchedule(w.job.todo, sc);
        assert SeatAgrees(w.db, k);
      }
    }
    JobMoves(w, Next(w, RecomputeGroup(sc), ttl), M, ttl);
  }

  /** The seats that phase two frees are the ones it owes from then on. */
  lemma {:induction false} FreeIsTrusted(w: World, sc: ScheduleId, M: set<SeatKey>, ttl: nat)
    requires TrustedWorld(w, M, ttl) && w.job.PhaseTwo? && w.job.tally.NoTally?
    ensures TrustedWorld(Next(w, FreeGroup(sc), ttl), M, ttl)
  {
    var S := Group(w.job.free, sc);
    var freed := LockedOf(w.db.seats, InSchedule(w.job.free, sc));
    var after := FreeSeats(w.db, sc, S);
    assert after.seats.Keys == w.db.seats.Keys;
    forall k | k in w.db.seats && k !in freed ensures after.seats[k] == w.db.seats[k] {
      if k.sched == sc && k.seat in S { InGroup(w.job.free, sc, k); }
    }
    forall k | k in freed ensures after.seats[k].expires.None? && after.seats[k].booking == w.db.seats[k].booking {
      assert k.seat in S;
    }
    forall k | k in M && k in after.seats && k !in w.debt.stale + freed ensures SeatAgrees(after, k) {
      assert SeatAgrees(w.db, k);
    }
    JobMoves(w, Next(w, FreeGroup(sc), ttl), M, ttl);
  }

  lemma {:induction false} InGroup(keys: set<SeatKey>, sc: ScheduleId, k: SeatKey)
    requires k.sched == sc && k.seat in Group(keys, sc)
    ensures k in InSchedule(keys, sc)
  {
    var l :| l in keys && l.sched == sc && l.seat == k.seat;
    assert l == k;
  }

  /** The job's own move: trust in the tables carries over to the next world. */
  lemma {:induction false} JobMoves(w: World, w': World, M: set<SeatKey>, ttl: nat)
    requires TrustedWorld(w, M, ttl) && w'.clock == w.clock
    requires w'.db.rows == w.db.rows && w'.db.nextHold == w.db.nextHold
    requires Trusted(w'.db, M, w'.debt.stale, w'.debt.undated, Deadline(w.clock, ttl))
    requires w'.job.PhaseOne? ==> w.job.PhaseOne? && w'.job.now == w.job.now
    requires w'.job.PhaseOne? || w'.job.PhaseTwo?
    ensures TrustedWorld(w', M, ttl)
  {
  }

  lemma {:induction false} WriteIsTrusted(w: World, M: set<SeatKey>, ttl: nat)
    requires TrustedWorld(w, M, ttl) && Counting(w.job) && w.job.tally.ToWrite?
    ensures TrustedWorld(Next(w, WriteCounts, ttl), M, ttl)
  {
    var db := SetCounts(w.db, w.job.tally.sc, w.job.tally.counts);
    UntouchedIsTrusted(w.db, db, M, w.debt.stale, w.debt.undated, Deadline(w.clock, ttl));
    JobMoves(w, Next(w, WriteCounts, ttl), M, ttl);
  }

  lemma {:induction false} NextIsTrusted(w: World, e: Event, M: set<SeatKey>, ttl: nat)
    requires SafeWorld(w) && TrustedWorld(w, M, ttl) && (e.Request? ==> Respects(e.op, M))
    ensures TrustedWorld(Next(w, e, ttl), M, ttl)
  {
    match e
    case Request(op) =>
      RequestIsTrusted(w.db, op, Deadline(w.clock, ttl), M, w.debt);
      RequestKeepsKnowledge(w, op, ttl);
    case DropRows => if w.job.FoundRows? { DropIsTrusted(w, M, ttl); }
    case RecomputeGroup(sc) => if w.job.PhaseOne? && w.job.tally.NoTally? { RecomputeIsTrusted(w, sc, M, ttl); }
    case WriteCounts => if Counting(w.job) && w.job.tally.ToWrite? { WriteIsTrusted(w, M, ttl); }
    case FreeGroup(sc) => if w.job.PhaseTwo? && w.job.tally.NoTally? { FreeIsTrusted(w, sc, M, ttl); }
    case _ => QuietStepIsTrusted(w, e, M, ttl);
  }

  /** The steps that leave the tables alone. */
  lemma {:induction false} QuietStepIsTrusted(w: World, e: Event, M: set<SeatKey>, ttl: nat)
    requires SafeWorld(w) && TrustedWorld(w, M, ttl)
    requires !e.Request? && !e.DropRows? && !e.RecomputeGroup? && !e.WriteCounts? && !e.FreeGroup?
    ensures TrustedWorld(Next(w, e, ttl), M, ttl)
  {
    var w' := Next(w, e, ttl);
    assert w'.db == w.db && w'.debt == w.debt && w.clock <= w'.clock;
  }

  /** Every request of the run keeps to the modes of the seats. */
  predicate Moded(es: seq<Event>, M: set<SeatKey>) {
    forall e | e in es && e.Request? :: Respects(e.op, M)
  }

  lemma {:induction false} RunIsTrusted(w: World, es: seq<Event>, M: set<SeatKey>, ttl: nat)
    requires SafeWorld(w) && TrustedWorld(w, M, ttl) && Moded(es, M)
    ensures TrustedWorld(Run(w, es, ttl), M, ttl)
    decreases |es|
  {
    if es != [] {
      assert es[0] in es;
      NextIsSafe(w, es[0], ttl);
      NextIsTrusted(w, es[0], M, ttl);
      RunIsTrusted(Next(w, es[0], ttl), es[1..], M, ttl);
    }
  }

  /** Summary agreement and expiry dominance in every run whose requests keep to the modes, with any
      statement of the job failing and any crash of it: a segment-managed seat of an active schedule
      shows exactly what its rows say, unless the job has deleted its rows or freed it and it has not
      been summarised since; and it never expires before one of its LOCKED rows, though it has no
      expiry at all when the job has freed it and it has not been locked since. */
  lemma {:induction false} SummariesAgree(es: seq<Event>, M: set<SeatKey>, ttl: nat, k: SeatKey)
    requires Moded(es, M) && k in M && k in Run(START, es, ttl).db.seats
    ensures var w := Run(START, es, ttl);
            && (k !in w.debt.stale && k.sched in w.db.schedules && w.db.schedules[k.sched].active ==>
                  w.db.seats[k].status == Summary(w.db.rows, k.sched, k.seat))
            && (forall i | i in w.db.rows && w.db.rows[i].status == Locked && KeyOf(w.db.rows, i) == k ::
                  w.db.rows[i].expires.Some?
                  && DatedBy(w.db.seats[k].expires, w.db.rows[i].expires.value, k in w.debt.undated))
  {
    RunIsTrusted(START, es, M, ttl);
    var w := Run(START, es, ttl);
    if k !in w.debt.stale { assert SeatAgrees(w.db, k); }
  }

  // ----- exactly when phase two spares the segment-managed seats -----

  /** When phase one read the clock. */
  function Reading(job: Job): int {
    match job
    case FoundRows(now, _, _) => now
    case PhaseOne(now, _, _) => now
    case PhaseOneFailed(now) => now
    case _ => 0
  }

  /** No segment-managed LOCKED seat runs out between the two clock readings of the job. */
  predicate Quiet(w: World, M: set<SeatKey>) {
    forall k | k in M && k in w.db.seats && w.db.seats[k].status == Locked ::
      !(Before(w.db.seats[k].expires, w.clock) && !Before(w.db.seats[k].expires, Reading(w.job)))
  }

  predicate HasExpiredRow(rows: Rows, k: SeatKey, now: int) {
    exists i :: i in rows && IsFor(rows, i, k.sched, k.seat) && rows[i].status == Locked && Before(rows[i].expires, now)
  }

  /** A seat that phase one should have dealt with and has not: it still has an expired row, or its
      rows have been deleted and it has not been summarised since. */
  predicate LeftOver(w: World, k: SeatKey)
    requires k in w.db.seats
  {
    && w.db.seats[k].status == Locked && Before(w.db.seats[k].expires, Reading(w.job))
    && (k in w.debt.stale || HasExpiredRow(w.db.rows, k, Reading(w.job)))
  }

  predicate NoneLeftOver(w: World, M: set<SeatKey>) {
    forall k | k in M && k in w.db.seats :: !LeftOver(w, k)
  }

  /** When phase one is over, successfully or not, phase two finds no segment-managed seat exactly
      when the window between the job's two clock readings is quiet and phase one has left nothing
      over. */
  lemma {:induction false} PhaseTwoSparesIff(w: World, M: set<SeatKey>, ttl: nat)
    requires TrustedWorld(w, M, ttl) && PhaseOneIsOver(w.job)
    ensures ExpiredSeats(w.db.seats, w.clock) !! M <==> Quiet(w, M) && NoneLeftOver(w, M)
  {
    forall k | k in M && k in ExpiredSeats(w.db.seats, w.clock) && NoneLeftOver(w, M)
      ensures !Before(w.db.seats[k].expires, Reading(w.job))
    {
      if k !in w.debt.stale { SettledSeatHasRow(w, M, ttl, k); }
    }
    forall k | k in M && k in w.db.seats && w.db.seats[k].status == Locked && Before(w.db.seats[k].expires, w.clock)
      ensures k in ExpiredSeats(w.db.seats, w.clock) {}
  }

  /** A LOCKED seat that is not stale expires no earlier than some LOCKED row of it. */
  lemma {:induction false} SettledSeatHasRow(w: World, M: set<SeatKey>, ttl: nat, k: SeatKey)
    requires TrustedWorld(w, M, ttl) && k in M && k in w.db.seats && k !in w.debt.stale
    requires w.db.seats[k].status == Locked && w.db.seats[k].expires.Some?
    ensures Before(w.db.seats[k].expires, Reading(w.job)) ==> HasExpiredRow(w.db.rows, k, Reading(w.job))
  {
    assert SeatAgrees(w.db, k);
    var i :| i in w.db.rows && IsFor(w.db.rows, i, k.sched, k.seat) && w.db.rows[i].status == Locked;
    assert KeyOf(w.db.rows, i) == k;
  }

  /** A phase one that has completed, with nothing owed from an earlier job, leaves nothing over. */
  lemma {:induction false} CompletedLeavesNothing(w: World, M: set<SeatKey>, ttl: nat)
    requires TrustedWorld(w, M, ttl) && w.job.PhaseOne? && w.debt.stale !! M
    ensures NoneLeftOver(w, M)
  {
  }

  /** Freeing a segment-managed seat that is rightly LOCKED hides a live row. */
  lemma {:induction false} FreeingHidesARow(db: Db, sc: ScheduleId, S: set<SeatId>, M: set<SeatKey>, k: SeatKey)
    requires Agrees(db, M, {}) && k in M && k in db.seats && k.sched == sc && k.seat in S
    requires db.seats[k].status == Locked
    ensures !Agrees(FreeSeats(db, sc, S), M, {})
  {
    assert SeatAgrees(db, k);
    assert !SeatAgrees(FreeSeats(db, sc, S), k);
  }

  // ----- jobs in which nothing fails, with quiet windows -----

  predicate AllowedStep(w: World, e: Event, M: set<SeatKey>) {
    && (e.Request? ==> Respects(e.op, M)) && !Failure(e)
    && (e.FindSeats? && PhaseOneIsOver(w.job) ==> Quiet(w, M))
  }

  predicate AllowedRun(w: World, es: seq<Event>, M: set<SeatKey>, ttl: nat)
    decreases |es|
  {
    es != [] ==> AllowedStep(w, es[0], M) && AllowedRun(Next(w, es[0], ttl), es[1..], M, ttl)
  }

  /** What phase one has still to summarise. */
  function Pending(job: Job): set<SeatKey> {
    if job.PhaseOne? then job.todo else {}
  }

  /** The job owes a segment-managed seat nothing but what it is about to do. */
  predicate Prompt(w: World, M: set<SeatKey>) {
    && (forall k | k in w.debt.stale && k in M :: k in Pending(w.job)) && (forall k | k in M :: k !in w.debt.undated)
    && (w.job.PhaseTwo? ==> forall k | k in M :: k !in w.job.free) && !w.job.PhaseOneFailed?
  }

  lemma {:induction false} NextIsPrompt(w: World, e: Event, M: set<SeatKey>, ttl: nat)
    requires TrustedWorld(w, M, ttl) && Prompt(w, M) && AllowedStep(w, e, M)
    ensures Prompt(Next(w, e, ttl), M)
  {
    if e.FindSeats? && PhaseOneIsOver(w.job) {
      assert w.debt.stale !! M;
      CompletedLeavesNothing(w, M, ttl);
      PhaseTwoSparesIff(w, M, ttl);
    } else if e.Request? {
      assert AfterRequest(w.debt, w.db, e.op, Deadline(w.clock, ttl)).stale <= w.debt.stale;
    }
  }

  lemma {:induction false} RunIsPrompt(w: World, es: seq<Event>, M: set<SeatKey>, ttl: nat)
    requires SafeWorld(w) && TrustedWorld(w, M, ttl) && Prompt(w, M) && AllowedRun(w, es, M, ttl)
    ensures TrustedWorld(Run(w, es, ttl), M, ttl) && Prompt(Run(w, es, ttl), M)
    decreases |es|
  {
    if es != [] {
      NextIsSafe(w, es[0], ttl);
      NextIsTrusted(w, es[0], M, ttl);
      NextIsPrompt(w, es[0], M, ttl);
      RunIsPrompt(Next(w, es[0], ttl), es[1..], M, ttl);
    }
  }

  /** In a run whose requests keep to the modes and whose jobs neither fail nor find a noisy window, a
      segment-managed seat of an active schedule shows exactly what its rows say whenever phase one
      is not about to summarise it, and it always has an expiry, no earlier than any LOCKED row's. */
  lemma {:induction false} SummariesAgreeThroughout(es: seq<Event>, M: set<SeatKey>, ttl: nat, k: SeatKey)
    requires AllowedRun(START, es, M, ttl) && k in M && k in Run(START, es, ttl).db.seats
    ensures var w := Run(START, es, ttl);
            && (k !in Pending(w.job) && k.sched in w.db.schedules && w.db.schedules[k.sched].active ==>
                  w.db.seats[k].status == Summary(w.db.rows, k.sched, k.seat))
            && (forall i | i in w.db.rows && w.db.rows[i].status == Locked && KeyOf(w.db.rows, i) == k ::
                  w.db.rows[i].expires.Some? && w.db.seats[k].expires.Some?
                  && w.db.rows[i].expires.value <= w.db.seats[k].expires.value)
  {
    RunIsPrompt(START, es, M, ttl);
    var w := Run(START, es, ttl);
    if k !in Pending(w.job) { assert SeatAgrees(w.db, k); }
  }
}
