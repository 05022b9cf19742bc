/** What every run of the seat ledger keeps, with the lock-expiry job running beside the
    requests, one SQL statement or transaction at a time. */
module LedgerRuns {
  import opened Ledger

  // ----- the machine -----

  /** A request to the inventory service, or an event it consumes. */
  datatype Op =
    | Lock(sc: ScheduleId, ids: seq<SeatId>, user: UserId, from: int, to: int)
    | Unlock(sc: ScheduleId, ids: seq<SeatId>, user: UserId, from: int, to: int)
    | Confirm(sc: ScheduleId, ids: seq<SeatId>, user: UserId, booking: BookingId, from: int, to: int)
    | CancelOf(sc: ScheduleId, booking: BookingId)
    | Create(sc: ScheduleId, ids: seq<SeatId>)
    | Close(sc: ScheduleId)

  function Serve(db: Db, op: Op, expires: int): Db {
    match op
    case Lock(sc, ids, user, from, to) => LockSeats(db, sc, ids, user, expires, from, to).0
    case Unlock(sc, ids, user, from, to) => UnlockSeats(db, sc, ids, user, from, to).0
    case Confirm(sc, ids, user, booking, from, to) => ConfirmSeats(db, sc, ids, user, booking, from, to).0
    case CancelOf(sc, booking) => CancelBooking(db, sc, booking).0
    case Create(sc, ids) => InitializeInventory(db, sc, ids)
    case Close(sc) => CancelSchedule(db, sc)
  }

  /** What the four requests answer; the events have no answer. */
  function Answer(db: Db, op: Op, expires: int): (Db, Reply)
  {
    match op
    case Lock(sc, ids, user, from, to) => LockSeats(db, sc, ids, user, expires, from, to)
    case Unlock(sc, ids, user, from, to) => UnlockSeats(db, sc, ids, user, from, to)
    case Confirm(sc, ids, user, booking, from, to) => ConfirmSeats(db, sc, ids, user, booking, from, to)
    case CancelOf(sc, booking) => CancelBooking(db, sc, booking)
    case _ => (db, Refused(Internal))
  }

  /** Where the leader of the expiry job stands with the schedule whose seats it has just changed: the
      seats are still to be counted, or have been counted and the counts are still to be written. */
  datatype Recounting = NoTally | ToCount(sc: ScheduleId) | ToWrite(sc: ScheduleId, counts: Counts)

  /** Where it stands with the whole. */
  datatype Job =
    | Idle
    | FoundRows(now: int, ids: set<RowId>, seats: set<SeatKey>)
    | PhaseOne(now: int, todo: set<SeatKey>, tally: Recounting)
    | PhaseOneFailed(now: int)
    | PhaseTwo(free: set<SeatKey>, tally: Recounting)

  /** What the job has left undone, for the proofs: `dirty`, the schedules whose seats it changed
      and that have not been recounted since, or whose counters it has overwritten with counts that
      the seats had overtaken; `stale`, the seats whose rows it deleted or that it
      freed, and that have not been summarised since; `undated`, the seats that it freed and that
      have not been locked for a segment since. */
  datatype Debt = Debt(dirty: set<ScheduleId>, stale: set<SeatKey>, undated: set<SeatKey>)

  const NOTHING := Debt({}, {}, {})

  datatype World = World(db: Db, job: Job, clock: int, debt: Debt)

  /** The failures are those that the job's code catches, and a crash. A failed statement of phase
      one, its first query included, leads to phase two; in phase two a failed update or recount
      leads to the next schedule, and a failed query ends the job as a crash does. */
  datatype Event =
    | Request(op: Op)
    | Tick(now: int)
    | FindRows | DropRows | RecomputeGroup(sc: ScheduleId) | CountSchedule | WriteCounts
    | FindSeats | FreeGroup(sc: ScheduleId) | Finish
    | FailPhaseOne | FailRecount | SkipGroup(sc: ScheduleId) | Crash

  predicate Failure(e: Event) {
    e.FailPhaseOne? || e.FailRecount? || e.SkipGroup? || e.Crash?
  }

  function Without(keys: set<SeatKey>, sc: ScheduleId): set<SeatKey> {
    set k | k in keys && k.sched != sc
  }

  function InSchedule(keys: set<SeatKey>, sc: ScheduleId): set<SeatKey> {
    set k | k in keys && k.sched == sc
  }

  /** When a lock taken now expires. */
  function Deadline(clock: int, ttl: nat): int {
    clock + ttl
  }

  /** The schedule that a request recounts: on the segment paths, and when it is closed. */
  function Counted(db: Db, op: Op, expires: int): set<ScheduleId> {
    if op.Close? then (if op.sc in db.schedules && ScheduleCancelled(op.sc) !in db.events then {op.sc} else {})
    else if Settles(db, op, expires) then {op.sc}
    else {}
  }

  /** The request is granted on the segment path, so it recomputes seats and recounts. */
  predicate Settles(db: Db, op: Op, expires: int) {
    match op
    case Lock(_, _, _, from, to) => IsSegment(from, to) && Answer(db, op, expires).1.Done?
    case Unlock(_, _, _, from, to) => IsSegment(from, to) && Answer(db, op, expires).1.Done?
    case Confirm(_, _, _, _, from, to) => IsSegment(from, to) && Answer(db, op, expires).1.Done?
    case CancelOf(sc, booking) => BookedSeatsOf(db.rows, sc, booking) != {} && Answer(db, op, expires).1.Done?
    case _ => false
  }

  /** The seats that it recomputes. */
  function Settled(db: Db, op: Op, expires: int): set<SeatKey> {
    if Settles(db, op, expires) then set s | s in Answer(db, op, expires).1.seats :: SeatKey(op.sc, s) else {}
  }

  function AfterRequest(debt: Debt, db: Db, op: Op, expires: int): Debt {
    var settled := Settled(db, op, expires);
    Debt(debt.dirty - Counted(db, op, expires), debt.stale - settled,
         if op.Lock? then debt.undated - settled else debt.undated)
  }

  /** Counts that the seats have overtaken leave the schedule dirty. */
  function AfterWrite(dirty: set<ScheduleId>, seats: Seats, sc: ScheduleId, counts: Counts): set<ScheduleId> {
    if counts == CountSeats(seats, sc) then dirty - {sc} else dirty + {sc}
  }

  /** The seats of `keys` that are LOCKED at this moment. */
  function LockedOf(seats: Seats, keys: set<SeatKey>): set<SeatKey> {
    set k | k in keys && k in seats && seats[k].status == Locked
  }

  /** One step; an event that cannot happen here changes nothing. */
  function Next(w: World, e: Event, ttl: nat): World {
    match e
    case Request(op) =>
      w.(db := Serve(w.db, op, Deadline(w.clock, ttl)), debt := AfterRequest(w.debt, w.db, op, Deadline(w.clock, ttl)))
    case Tick(now) => if w.clock <= now then w.(clock := now) else w
    case FindRows =>
      if w.job != Idle then w else
        var ids := ExpiredRows(w.db.rows, w.clock);
        w.(job := FoundRows(w.clock, ids, SeatsOfRows(w.db.rows, ids)))
    case DropRows =>
      if !w.job.FoundRows? then w else
        w.(db := DeleteRows(w.db, w.job.ids), job := PhaseOne(w.job.now, w.job.seats, NoTally),
           debt := w.debt.(stale := w.debt.stale + w.job.seats))
    case RecomputeGroup(sc) =>
      if !w.job.PhaseOne? || !w.job.tally.NoTally? then w else
        w.(db := Recompute(w.db, sc, Group(w.job.todo, sc)),
           job := PhaseOne(w.job.now, Without(w.job.todo, sc), ToCount(sc)),
           debt := w.debt.(dirty := w.debt.dirty + {sc}, stale := w.debt.stale - InSchedule(w.job.todo, sc)))
    case CountSchedule =>
      if !Counting(w.job) || !w.job.tally.ToCount? then w else
        w.(job := w.job.(tally := ToWrite(w.job.tally.sc, CountSeats(w.db.seats, w.job.tally.sc))))
    case WriteCounts =>
      if !Counting(w.job) || !w.job.tally.ToWrite? then w else
        var ToWrite(sc, counts) := w.job.tally;
        w.(db := SetCounts(w.db, sc, counts), job := w.job.(tally := NoTally),
           debt := w.debt.(dirty := AfterWrite(w.debt.dirty, w.db.seats, sc, counts)))
    case FindSeats =>
      if !PhaseOneIsOver(w.job) then w else
        w.(job := PhaseTwo(ExpiredSeats(w.db.seats, w.clock), NoTally))
    case FreeGroup(sc) =>
      if !w.job.PhaseTwo? || !w.job.tally.NoTally? then w else
        var freed := LockedOf(w.db.seats, InSchedule(w.job.free, sc));
        w.(db := FreeSeats(w.db, sc, Group(w.job.free, sc)),
           job := PhaseTwo(Without(w.job.free, sc), ToCount(sc)),
           debt := Debt(w.debt.dirty + {sc}, w.debt.stale + freed, w.debt.undated + freed))
    case Finish =>
      if !w.job.PhaseTwo? || !w.job.tally.NoTally? || w.job.free != {} then w else w.(job := Idle)
    case FailPhaseOne =>
      match w.job {
        case Idle => w.(job := PhaseOneFailed(w.clock))
        case FoundRows(now, _, _) => w.(job := PhaseOneFailed(now))
        case PhaseOne(now, _, _) => w.(job := PhaseOneFailed(now))
        case _ => w
      }
    case FailRecount => if w.job.PhaseTwo? then w.(job := w.job.(tally := NoTally)) else w
    case SkipGroup(sc) =>
      if !w.job.PhaseTwo? || !w.job.tally.NoTally? then w else w.(job := PhaseTwo(Without(w.job.free, sc), NoTally))
    case Crash => w.(job := Idle)
  }

  predicate Counting(job: Job) {
    (job.PhaseOne? || job.PhaseTwo?) && !job.tally.NoTally?
  }

  /** Phase one has come to its end, or to a failure. */
  predicate PhaseOneIsOver(job: Job) {
    job.PhaseOneFailed? || (job.PhaseOne? && job.tally.NoTally? && job.todo == {})
  }

  function Run(w: World, es: seq<Event>, ttl: nat): World
    decreases |es|
  {
    if es == [] then w else Run(Next(w, es[0], ttl), es[1..], ttl)
  }

  const START := World(EMPTY, Idle, 0, NOTHING)

  // ----- ledger safety and counters, in any mix of modes -----

  predicate SeatsOwned(db: Db) {
    forall k | k in db.seats :: k.sched in db.schedules
  }

  predicate RowsOwned(db: Db) {
    forall k | k in db.rows :: k.hold < db.nextHold && Active(db.rows[k])
                               && SeatKey(db.rows[k].sched, k.seat) in db.seats
  }

  function SeatsOf(seats: Seats, sc: ScheduleId): set<SeatKey> {
    set k | k in seats && k.sched == sc
  }

  predicate TotalsTrue(db: Db) {
    forall sc | sc in db.schedules :: db.schedules[sc].total == |SeatsOf(db.seats, sc)|
  }

  /** Counters equal the numbers of seat rows with those statuses, off the dirty schedules. */
  predicate CountersTrue(db: Db, dirty: set<ScheduleId>) {
    forall sc | sc in db.schedules && sc !in dirty :: db.schedules[sc].counts == CountSeats(db.seats, sc)
  }

  /** Two different rows for one seat of one schedule do not overlap. */
  predicate Apart(rows: Rows, k: RowId, l: RowId)
    requires k in rows && l in rows
  {
    k != l && k.seat == l.seat && rows[k].sched == rows[l].sched ==>
      !Overlap(rows[k].from, rows[k].to, rows[l].from, rows[l].to)
  }

  predicate NonOverlapping(rows: Rows) {
    forall k, l {:trigger Apart(rows, k, l)} | k in rows && l in rows :: Apart(rows, k, l)
  }

  /** Rows carry a booking's id exactly when they are BOOKED. */
  predicate BookedCarry(rows: Rows) {
    forall k | k in rows :: rows[k].booking.Some? <==> rows[k].status == Booked
  }

  predicate Safe(db: Db, dirty: set<ScheduleId>) {
    && SeatsOwned(db) && RowsOwned(db) && TotalsTrue(db)
    && CountersTrue(db, dirty) && NonOverlapping(db.rows) && BookedCarry(db.rows)
  }

  /** The interval [from, to) has the leg from stop `leg` to stop `leg + 1`. */
  predicate Within(from: int, to: int, leg: int) {
    from <= leg < to
  }

  predicate Covers(r: SegRow, leg: int) {
    Within(r.from, r.to, leg)
  }

  lemma {:induction false} OverlapIsSharedLeg(f1: int, t1: int, f2: int, t2: int)
    requires f1 < t1 && f2 < t2
    ensures Overlap(f1, t1, f2, t2) <==> exists leg :: Within(f1, t1, leg) && Within(f2, t2, leg)
  {
    var leg := if f1 < f2 then f2 else f1;
    assert Overlap(f1, t1, f2, t2) ==> Within(f1, t1, leg) && Within(f2, t2, leg);
  }

  /** Rows that only go away, or change in place without moving, stay apart. */
  predicate Derives(rows': Rows, rows: Rows) {
    forall k | k in rows' :: k in rows && rows'[k].sched == rows[k].sched
                             && rows'[k].from == rows[k].from && rows'[k].to == rows[k].to
  }

  lemma {:induction false} DerivedStayApart(rows': Rows, rows: Rows)
    requires NonOverlapping(rows) && Derives(rows', rows)
    ensures NonOverlapping(rows')
  {
    forall k, l | k in rows' && l in rows' ensures Apart(rows', k, l) {
      assert Apart(rows, k, l);
    }
  }

  /** The seats `S` of `sc` are the only ones whose rows or seat row differ. */
  predicate OnlyTouches(db: Db, db': Db, sc: ScheduleId, S: set<SeatId>) {
    && db'.schedules == db.schedules
    && db'.seats.Keys == db.seats.Keys
    && (forall k | k in db.seats && !(k.sched == sc && k.seat in S) :: db'.seats[k] == db.seats[k])
    && (forall k | k in db.rows && !(db.rows[k].sched == sc && k.seat in S) ::
        k in db'.rows && db'.rows[k] == db.rows[k])
    && (forall k | k in db'.rows && !(db'.rows[k].sched == sc && k.seat in S) ::
        k in db.rows && db'.rows[k] == db.rows[k])
  }

  lemma {:induction false} CountFrame(seats: Seats, seats': Seats, sc: ScheduleId)
    requires forall k | k in seats && k.sched == sc :: k in seats' && seats'[k] == seats[k]
    requires forall k | k in seats' && k.sched == sc :: k in seats
    ensures CountSeats(seats', sc) == CountSeats(seats, sc) && SeatsOf(seats', sc) == SeatsOf(seats, sc)
  {
    forall status ensures Showing(seats', sc, status) == Showing(seats, sc, status) {}
    assert SeatsOf(seats', sc) == SeatsOf(seats, sc);
  }

  lemma {:induction false} SameKeysSameTotals(seats: Seats, seats': Seats)
    requires seats.Keys == seats'.Keys
    ensures forall sc :: SeatsOf(seats', sc) == SeatsOf(seats, sc)
  {
    forall sc ensures SeatsOf(seats', sc) == SeatsOf(seats, sc) {}
  }

  /** A recount leaves the truth for its schedule and touches no other. */
  lemma {:induction false} RecountIsTrue(before: Db, db: Db, sc: ScheduleId, dirty: set<ScheduleId>)
    requires CountersTrue(before, dirty) && db.schedules == before.schedules
    requires forall k | k in before.seats && k.sched != sc :: k in db.seats && db.seats[k] == before.seats[k]
    requires forall k | k in db.seats && k.sched != sc :: k in before.seats
    ensures CountersTrue(Recount(db, sc), dirty - {sc})
  {
    var after := Recount(db, sc);
    forall s | s in after.schedules && s !in dirty - {sc}
      ensures after.schedules[s].counts == CountSeats(after.seats, s)
    {
      if s != sc { CountFrame(before.seats, db.seats, s); }
    }
  }

  lemma {:induction false} SettleIsSafe(before: Db, db: Db, sc: ScheduleId, S: set<SeatId>, dirty: set<ScheduleId>)
    requires Safe(before, dirty) && OnlyTouches(before, db, sc, S)
    requires RowsOwned(db) && NonOverlapping(db.rows) && BookedCarry(db.rows)
    ensures Safe(Settle(db, sc, S).0, dirty)
  {
    var mid := Recompute(db, sc, S);
    assert mid.seats.Keys == before.seats.Keys;
    SameKeysSameTotals(before.seats, mid.seats);
    RecountIsTrue(before, mid, sc, dirty);
    if sc !in mid.schedules { assert CountersTrue(db, dirty) by { SettleFrame(before, db, sc, S, dirty); } }
  }

  lemma {:induction false} SettleFrame(before: Db, db: Db, sc: ScheduleId, S: set<SeatId>, dirty: set<ScheduleId>)
    requires Safe(before, dirty) && OnlyTouches(before, db, sc, S) && sc !in before.schedules
    ensures CountersTrue(db, dirty) && TotalsTrue(db)
  {
    forall s | s in db.schedules ensures CountSeats(db.seats, s) == CountSeats(before.seats, s)
                                       && SeatsOf(db.seats, s) == SeatsOf(before.seats, s) {
      CountFrame(before.seats, db.seats, s);
    }
  }

  lemma {:induction false} KeysOfSchedule(sc: ScheduleId, S: set<SeatId>) returns (K: set<SeatKey>)
    ensures |K| == |S| && forall k :: k in K <==> k.sched == sc && k.seat in S
  {
    if S == {} {
      K := {};
    } else {
      var s :| s in S;
      var K' := KeysOfSchedule(sc, S - {s});
      K := K' + {SeatKey(sc, s)};
    }
  }

  /** Seats `K` all go from status `a` to `b`: how many show `c` afterwards. */
  lemma {:induction false} MovedCount(seats: Seats, seats': Seats, sc: ScheduleId, K: set<SeatKey>, a: Status,
      b: Status, c: Status)
    requires a != b && seats'.Keys == seats.Keys
    requires forall k | k in K :: k in seats && k.sched == sc && seats[k].status == a && seats'[k].status == b
    requires forall k | k in seats && k !in K :: seats'[k] == seats[k]
    ensures |Showing(seats', sc, c)|
         == |Showing(seats, sc, c)| + (if c == b then |K| else 0) - (if c == a then |K| else 0)
  {
    var before := Showing(seats, sc, c);
    var after := Showing(seats', sc, c);
    if c == a {
      assert K <= before && after == before - K;
    } else if c == b {
      assert K !! before && after == before + K;
    } else {
      assert after == before;
    }
  }

  /** The arithmetic of the full-journey paths: moving the seats `S` from status `a` to `b`
      gives the counters that a recount would give. */
  lemma {:induction false} MovedIsRecounted(seats: Seats, sc: ScheduleId, S: set<SeatId>, e: Edit, a: Status, b: Status)
    requires AllShow(seats, sc, S, a) && a != b
    requires forall k | k in seats && seats[k].status == a :: Edited(e, seats[k]).status == b
    ensures CountSeats(EditSeats(seats, sc, S, e), sc) == Moved(CountSeats(seats, sc), |S|, a, b)
  {
    var K := KeysOfSchedule(sc, S);
    var seats' := EditSeats(seats, sc, S, e);
    forall k | k in K ensures k in seats && seats[k].status == a && seats'[k].status == b {
      assert SeatKey(sc, k.seat) == k;
    }
    assert seats'.Keys == seats.Keys;
    MovedCount(seats, seats', sc, K, a, b, Available);
    MovedCount(seats, seats', sc, K, a, b, Locked);
    MovedCount(seats, seats', sc, K, a, b, Booked);
  }

  lemma {:induction false} ShiftIsSafe(db: Db, sc: ScheduleId, S: set<SeatId>, e: Edit, a: Status, b: Status,
      dirty: set<ScheduleId>)
    requires Safe(db, dirty) && AllShow(db.seats, sc, S, a) && a != b
    requires forall k | k in db.seats && db.seats[k].status == a :: Edited(e, db.seats[k]).status == b
    ensures Safe(Shift(db, sc, S, e, a, b).0, dirty)
  {
    if sc in db.schedules {
      var db' := Shift(db, sc, S, e, a, b).0;
      MovedIsRecounted(db.seats, sc, S, e, a, b);
      assert db'.seats.Keys == db.seats.Keys;
      SameKeysSameTotals(db.seats, db'.seats);
      forall s | s in db.schedules && s != sc ensures CountSeats(db'.seats, s) == CountSeats(db.seats, s) {
        CountFrame(db.seats, db'.seats, s);
      }
    }
  }

  lemma {:induction false} LockIsSafe(db: Db, sc: ScheduleId, ids: seq<SeatId>, user: UserId, expires: int, from: int,
      to: int, dirty: set<ScheduleId>)
    requires Safe(db, dirty)
    ensures Safe(LockSeats(db, sc, ids, user, expires, from, to).0, dirty)
  {
    var S := Found(db.seats, sc, ids);
    if IsSegment(from, to) {
      LockSegmentIsSafe(db, sc, S, user, expires, from, to, dirty);
    } else if AllShow(db.seats, sc, S, Available) {
      ShiftIsSafe(db, sc, S, TakeWhole(user, expires), Available, Locked, dirty);
    }
  }

  lemma {:induction false} LockSegmentIsSafe(db: Db, sc: ScheduleId, S: set<SeatId>, user: UserId, expires: int,
      from: int, to: int, dirty: set<ScheduleId>)
    requires Safe(db, dirty) && forall s | s in S :: SeatKey(sc, s) in db.seats
    ensures Safe(LockSegment(db, sc, S, user, expires, from, to).0, dirty)
  {
    if !Blocked(db.rows, sc, S, from, to) {
      var row := SegRow(sc, from, to, Locked, user, Some(expires), None);
      LockTouches(db, sc, S, user, expires, row);
      SettleIsSafe(db, Inserted(db, sc, S, row, expires), sc, S, dirty);
    }
  }

  lemma {:induction false} LockTouches(db: Db, sc: ScheduleId, S: set<SeatId>, user: UserId, expires: int, row: SegRow)
    requires RowsOwned(db) && NonOverlapping(db.rows) && BookedCarry(db.rows)
    requires row == SegRow(sc, row.from, row.to, Locked, user, Some(expires), None)
    requires !Blocked(db.rows, sc, S, row.from, row.to)
    requires forall s | s in S :: SeatKey(sc, s) in db.seats
    ensures var db' := Inserted(db, sc, S, row, expires);
            OnlyTouches(db, db', sc, S) && RowsOwned(db') && NonOverlapping(db'.rows) && BookedCarry(db'.rows)
  {
    LockStaysApart(db, sc, S, row);
    assert EditSeats(db.seats, sc, S, Stamp(user, expires)).Keys == db.seats.Keys;
  }

  lemma {:induction false} LockStaysApart(db: Db, sc: ScheduleId, S: set<SeatId>, row: SegRow)
    requires RowsOwned(db) && NonOverlapping(db.rows)
    requires row.sched == sc && !Blocked(db.rows, sc, S, row.from, row.to)
    ensures NonOverlapping(db.rows + NewRows(db.nextHold, S, row))
  {
    var rows' := db.rows + NewRows(db.nextHold, S, row);
    forall k, l | k in rows' && l in rows' ensures Apart(rows', k, l) {
      if k in db.rows && l in db.rows {
        assert Apart(db.rows, k, l);
      } else if k in db.rows {
        assert l.seat in S && (k.seat == l.seat && db.rows[k].sched == sc ==> IsFor(db.rows, k, sc, k.seat));
      } else if l in db.rows {
        assert k.seat in S && (k.seat == l.seat && db.rows[l].sched == sc ==> IsFor(db.rows, l, sc, l.seat));
      }
    }
  }

  lemma {:induction false} UnlockTouches(db: Db, sc: ScheduleId, S: set<SeatId>, user: UserId, from: int, to: int)
    requires RowsOwned(db) && NonOverlapping(db.rows) && BookedCarry(db.rows)
    ensures var db' := db.(rows := db.rows - Named(db.rows, sc, S, user, from, to));
            OnlyTouches(db, db', sc, S) && RowsOwned(db') && NonOverlapping(db'.rows) && BookedCarry(db'.rows)
  {
    DerivedStayApart(db.rows - Named(db.rows, sc, S, user, from, to), db.rows);
  }

  lemma {:induction false} UnlockIsSafe(db: Db, sc: ScheduleId, ids: seq<SeatId>, user: UserId, from: int, to: int,
      dirty: set<ScheduleId>)
    requires Safe(db, dirty)
    ensures Safe(UnlockSeats(db, sc, ids, user, from, to).0, dirty)
  {
    var S := Found(db.seats, sc, ids);
    if IsSegment(from, to) {
      UnlockTouches(db, sc, S, user, from, to);
      SettleIsSafe(db, db.(rows := db.rows - Named(db.rows, sc, S, user, from, to)), sc, S, dirty);
    } else if AllShow(db.seats, sc, S, Locked) {
      ShiftIsSafe(db, sc, S, ReleaseWhole, Locked, Available, dirty);
    }
  }

  lemma {:induction false} ConfirmTouches(db: Db, sc: ScheduleId, S: set<SeatId>, hit: set<RowId>, booking: BookingId)
    requires RowsOwned(db) && NonOverlapping(db.rows) && BookedCarry(db.rows)
    requires forall k | k in hit :: k in db.rows && db.rows[k].sched == sc && k.seat in S
    ensures var db' := db.(rows := BookRows(db.rows, hit, booking));
            OnlyTouches(db, db', sc, S) && RowsOwned(db') && NonOverlapping(db'.rows) && BookedCarry(db'.rows)
  {
    DerivedStayApart(BookRows(db.rows, hit, booking), db.rows);
  }

  lemma {:induction false} ConfirmIsSafe(db: Db, sc: ScheduleId, ids: seq<SeatId>, user: UserId, booking: BookingId,
      from: int, to: int, dirty: set<ScheduleId>)
    requires Safe(db, dirty)
    ensures Safe(ConfirmSeats(db, sc, ids, user, booking, from, to).0, dirty)
  {
    var S := Found(db.seats, sc, ids);
    if IsSegment(from, to) {
      var hit := Named(db.rows, sc, S, user, from, to);
      ConfirmTouches(db, sc, S, hit, booking);
      SettleIsSafe(db, db.(rows := BookRows(db.rows, hit, booking)), sc, S, dirty);
    } else if AllShow(db.seats, sc, S, Locked) {
      ShiftIsSafe(db, sc, S, BookWhole(booking), Locked, Booked, dirty);
    }
  }

  lemma {:induction false} CancelTouches(db: Db, sc: ScheduleId, booking: BookingId)
    requires RowsOwned(db) && BookedCarry(db.rows)
    ensures var S := BookedSeatsOf(db.rows, sc, booking);
            OnlyTouches(db, db.(rows := db.rows - Carrying(db.rows, sc, booking)), sc, S)
  {
    var S := BookedSeatsOf(db.rows, sc, booking);
    forall k | k in Carrying(db.rows, sc, booking) ensures k.seat in S {
      assert db.rows[k].status == Booked;
    }
  }

  lemma {:induction false} CancelIsSafe(db: Db, sc: ScheduleId, booking: BookingId, dirty: set<ScheduleId>)
    requires Safe(db, dirty)
    ensures Safe(CancelBooking(db, sc, booking).0, dirty)
  {
    var affected := BookedSeatsOf(db.rows, sc, booking);
    if affected != {} {
      CancelTouches(db, sc, booking);
      DerivedStayApart(db.rows - Carrying(db.rows, sc, booking), db.rows);
      SettleIsSafe(db, db.(rows := db.rows - Carrying(db.rows, sc, booking)), sc, affected, dirty);
    } else {
      var S := BookedWhole(db.seats, sc, booking);
      ShiftIsSafe(db, sc, S, Clear, Booked, Available, dirty);
    }
  }

  lemma {:induction false} FreshCounts(seats: Seats, sc: ScheduleId, ids: seq<SeatId>)
    requires SeatsOf(seats, sc) == {} && |Members(ids)| == |ids|
    ensures var seats' := seats + FreshSeats(sc, ids);
            && |SeatsOf(seats', sc)| == |ids|
            && CountSeats(seats', sc) == Counts(|ids|, 0, 0)
            && forall k | k in seats' && k !in seats :: k.sched == sc
  {
    var seats' := seats + FreshSeats(sc, ids);
    var K := KeysOfSchedule(sc, Members(ids));
    forall k | k in seats ensures k.sched != sc { assert k !in SeatsOf(seats, sc); }
    assert SeatsOf(seats', sc) == K;
    assert Showing(seats', sc, Available) == K;
    assert Showing(seats', sc, Locked) == {} && Showing(seats', sc, Booked) == {};
  }

  lemma {:induction false} OthersKeepCounts(db: Db, db': Db, sc: ScheduleId)
    requires forall k | k in db.seats :: k in db'.seats && db'.seats[k] == db.seats[k]
    requires forall k | k in db'.seats && k !in db.seats :: k.sched == sc
    ensures forall s | s in db.schedules && s != sc ::
              CountSeats(db'.seats, s) == CountSeats(db.seats, s) && SeatsOf(db'.seats, s) == SeatsOf(db.seats, s)
  {
    forall s | s in db.schedules && s != sc
      ensures CountSeats(db'.seats, s) == CountSeats(db.seats, s) && SeatsOf(db'.seats, s) == SeatsOf(db.seats, s)
    {
      CountFrame(db.seats, db'.seats, s);
    }
  }

  lemma {:induction false} CreateIsSafe(db: Db, sc: ScheduleId, ids: seq<SeatId>, dirty: set<ScheduleId>)
    requires Safe(db, dirty)
    ensures Safe(InitializeInventory(db, sc, ids), dirty)
  {
    var db' := InitializeInventory(db, sc, ids);
    if db' != db {
      assert SeatsOf(db.seats, sc) == {};
      FreshCounts(db.seats, sc, ids);
      OthersKeepCounts(db, db', sc);
    }
  }

  lemma {:induction false} CloseIsSafe(db: Db, sc: ScheduleId, dirty: set<ScheduleId>)
    requires Safe(db, dirty)
    ensures Safe(CancelSchedule(db, sc), dirty)
  {
    var db' := CancelSchedule(db, sc);
    if db' != db {
      assert db'.seats.Keys == db.seats.Keys;
      SameKeysSameTotals(db.seats, db'.seats);
      assert Showing(db'.seats, sc, Available) == {} && Showing(db'.seats, sc, Locked) == {};
      assert Showing(db'.seats, sc, Booked) == {};
      forall s | s in db.schedules && s != sc ensures CountSeats(db'.seats, s) == CountSeats(db.seats, s) {
        CountFrame(db.seats, db'.seats, s);
      }
    }
  }

  /** The job changes statuses without counting, so the schedule turns dirty; it never adds a row. */
  lemma {:induction false} SeatChangeIsSafe(db: Db, seats': Seats, sc: ScheduleId, dirty: set<ScheduleId>)
    requires Safe(db, dirty) && seats'.Keys == db.seats.Keys
    requires forall k | k in seats' && k.sched != sc :: seats'[k] == db.seats[k]
    ensures Safe(db.(seats := seats'), dirty + {sc})
  {
    SameKeysSameTotals(db.seats, seats');
    forall s | s in db.schedules && s != sc ensures CountSeats(seats', s) == CountSeats(db.seats, s) {
      CountFrame(db.seats, seats', s);
    }
  }

  // ----- what each request does to the segment rows -----

  /** The segment rows after a request: only a request that is not refused changes them, and
      only on the segment path. */
  function RowsAfter(db: Db, op: Op, expires: int): Rows {
    match op
    case Lock(sc, ids, user, from, to) =>
      if IsSegment(from, to) && LockSeats(db, sc, ids, user, expires, from, to).1.Done?
      then db.rows + NewRows(db.nextHold, Found(db.seats, sc, ids),
              SegRow(sc, from, to, Locked, user, Some(expires), None))
      else db.rows
    case Unlock(sc, ids, user, from, to) =>
      if IsSegment(from, to) && UnlockSeats(db, sc, ids, user, from, to).1.Done?
      then db.rows - Named(db.rows, sc, Found(db.seats, sc, ids), user, from, to)
      else db.rows
    case Confirm(sc, ids, user, booking, from, to) =>
      if IsSegment(from, to) && ConfirmSeats(db, sc, ids, user, booking, from, to).1.Done?
      then BookRows(db.rows, Named(db.rows, sc, Found(db.seats, sc, ids), user, from, to), booking)
      else db.rows
    case CancelOf(sc, booking) =>
      if BookedSeatsOf(db.rows, sc, booking) != {} && CancelBooking(db, sc, booking).1.Done?
      then db.rows - Carrying(db.rows, sc, booking)
      else db.rows
    case Create(_, _) => db.rows
    case Close(_) => db.rows
  }

  lemma {:induction false} ServeRows(db: Db, op: Op, expires: int)
    requires SeatsOwned(db) && RowsOwned(db)
    ensures Serve(db, op, expires).rows == RowsAfter(db, op, expires)
  {
    match op
    case Lock(sc, ids, user, from, to) =>
    case Unlock(sc, ids, user, from, to) => FoundHasSchedule(db, sc, ids);
    case Confirm(sc, ids, user, booking, from, to) => FoundHasSchedule(db, sc, ids);
    case CancelOf(sc, booking) =>
      if s :| s in BookedSeatsOf(db.rows, sc, booking) { assert SeatKey(sc, s) in db.seats; }
    case Create(_, _) =>
    case Close(_) =>
  }

  lemma {:induction false} FoundHasSchedule(db: Db, sc: ScheduleId, ids: seq<SeatId>)
    requires SeatsOwned(db)
    ensures ids != [] && |Found(db.seats, sc, ids)| == |ids| ==> sc in db.schedules
  {
    if s :| s in Found(db.seats, sc, ids) { assert SeatKey(sc, s) in db.seats; }
  }

  predicate SafeWorld(w: World) {
    Safe(w.db, w.debt.dirty)
  }

  lemma {:induction false} ServeIsSafe(db: Db, op: Op, expires: int, dirty: set<ScheduleId>)
    requires Safe(db, dirty)
    ensures Safe(Serve(db, op, expires), dirty)
  {
    match op
    case Lock(sc, ids, user, from, to) => LockIsSafe(db, sc, ids, user, expires, from, to, dirty);
    case Unlock(sc, ids, user, from, to) => UnlockIsSafe(db, sc, ids, user, from, to, dirty);
    case Confirm(sc, ids, user, booking, from, to) => ConfirmIsSafe(db, sc, ids, user, booking, from, to, dirty);
    case CancelOf(sc, booking) => CancelIsSafe(db, sc, booking, dirty);
    case Create(sc, ids) => CreateIsSafe(db, sc, ids, dirty);
    case Close(sc) => CloseIsSafe(db, sc, dirty);
  }

  /** A refused request changes nothing; a granted one answers with the schedule's counts. */
  lemma {:induction false} AnswersFit(db: Db, op: Op, expires: int)
    requires SeatsOwned(db) && RowsOwned(db) && (op.Lock? || op.Unlock? || op.Confirm? || op.CancelOf?)
    ensures var (db', reply) := Answer(db, op, expires);
            (reply.Refused? ==> db' == db)
            && (reply.Done? ==> op.sc in db'.schedules && reply.counts == db'.schedules[op.sc].counts)
  {
    match op
    case Lock(sc, ids, user, from, to) => LockAnswers(db, sc, ids, user, expires, from, to);
    case Unlock(sc, ids, _, _, _) => FoundHasSchedule(db, sc, ids);
    case Confirm(sc, ids, _, _, _, _) => FoundHasSchedule(db, sc, ids);
    case CancelOf(sc, booking) =>
      if s :| s in BookedSeatsOf(db.rows, sc, booking) { assert SeatKey(sc, s) in db.seats; }
  }

  /** And those counts are the true ones, where the schedule's were true before or the request counts
      anew, as it does on the segment path. */
  lemma {:induction false} AnswersAreTrue(db: Db, op: Op, expires: int, dirty: set<ScheduleId>)
    requires Safe(db, dirty) && (op.Lock? || op.Unlock? || op.Confirm? || op.CancelOf?)
    ensures var (db', reply) := Answer(db, op, expires);
            (reply.Refused? ==> db' == db)
            && (reply.Done? && op.sc !in dirty - Counted(db, op, expires) ==>
                  reply.counts == CountSeats(db'.seats, op.sc))
  {
    AnswersFit(db, op, expires);
    ServeIsSafe(db, op, expires, dirty);
    ServeCounts(db, op, expires);
    assert Answer(db, op, expires).0 == Serve(db, op, expires);
  }

  lemma {:induction false} LockAnswers(db: Db, sc: ScheduleId, ids: seq<SeatId>, user: UserId, expires: int,
      from: int, to: int)
    ensures var (db', reply) := LockSeats(db, sc, ids, user, expires, from, to);
            (reply.Refused? ==> db' == db)
            && (reply.Done? ==> sc in db'.schedules && reply.counts == db'.schedules[sc].counts)
  {
  }

  /** A schedule that a request recounts, or closes, has true counters after it. */
  lemma {:induction false} ServeCounts(db: Db, op: Op, expires: int)
    ensures var db' := Serve(db, op, expires);
            forall sc | sc in Counted(db, op, expires) && sc in db'.schedules ::
              db'.schedules[sc].counts == CountSeats(db'.seats, sc)
  {
    if op.Close? {
      if Counted(db, op, expires) != {} { ClosedCounts(db, op.sc); }
    } else if Settles(db, op, expires) {
      SettledCounts(db, op, expires);
    }
  }

  lemma {:induction false} ClosedCounts(db: Db, sc: ScheduleId)
    requires sc in db.schedules && ScheduleCancelled(sc) !in db.events
    ensures var db' := CancelSchedule(db, sc); db'.schedules[sc].counts == CountSeats(db'.seats, sc)
  {
    var seats' := CancelSchedule(db, sc).seats;
    assert Showing(seats', sc, Available) == Showing(seats', sc, Locked) == Showing(seats', sc, Booked) == {};
  }

  lemma {:induction false} SettledCounts(db: Db, op: Op, expires: int)
    requires Settles(db, op, expires)
    ensures var db' := Serve(db, op, expires);
            op.sc in db'.schedules && db'.schedules[op.sc].counts == CountSeats(db'.seats, op.sc)
  {
  }

  lemma {:induction false} RequestIsSafe(w: World, op: Op, ttl: nat)
    requires SafeWorld(w)
    ensures SafeWorld(Next(w, Request(op), ttl))
  {
    ServeIsSafe(w.db, op, Deadline(w.clock, ttl), w.debt.dirty);
    ServeCounts(w.db, op, Deadline(w.clock, ttl));
  }

  lemma {:induction false} RecomputeGroupIsSafe(w: World, sc: ScheduleId, ttl: nat)
    requires SafeWorld(w)
    ensures SafeWorld(Next(w, RecomputeGroup(sc), ttl))
  {
    if w.job.PhaseOne? && w.job.tally.NoTally? {
      SeatChangeIsSafe(w.db, Recompute(w.db, sc, Group(w.job.todo, sc)).seats, sc, w.debt.dirty);
    }
  }

  lemma {:induction false} FreeGroupIsSafe(w: World, sc: ScheduleId, ttl: nat)
    requires SafeWorld(w)
    ensures SafeWorld(Next(w, FreeGroup(sc), ttl))
  {
    if w.job.PhaseTwo? && w.job.tally.NoTally? {
      SeatChangeIsSafe(w.db, FreeSeats(w.db, sc, Group(w.job.free, sc)).seats, sc, w.debt.dirty);
    }
  }

  lemma {:induction false} NextIsSafe(w: World, e: Event, ttl: nat)
    requires SafeWorld(w)
    ensures SafeWorld(Next(w, e, ttl))
  {
    if e.Request? { RequestIsSafe(w, e.op, ttl); }
    else if e.RecomputeGroup? { RecomputeGroupIsSafe(w, e.sc, ttl); }
    else if e.FreeGroup? { FreeGroupIsSafe(w, e.sc, ttl); }
    else if e.DropRows? && w.job.FoundRows? { DropIsSafe(w.db, w.job.ids, w.debt.dirty); }
    else if e.WriteCounts? && Counting(w.job) && w.job.tally.ToWrite? {
      WriteKeepsSafe(w.db, w.job.tally.sc, w.job.tally.counts, w.debt.dirty);
    }
    else { assert Next(w, e, ttl).db == w.db && Next(w, e, ttl).debt == w.debt; }
  }

  lemma {:induction false} DropIsSafe(db: Db, ids: set<RowId>, dirty: set<ScheduleId>)
    requires Safe(db, dirty)
    ensures Safe(DeleteRows(db, ids), dirty)
  {
    DerivedStayApart(db.rows - ids, db.rows);
  }

  lemma {:induction false} WriteKeepsSafe(db: Db, sc: ScheduleId, counts: Counts, dirty: set<ScheduleId>)
    requires Safe(db, dirty)
    ensures Safe(SetCounts(db, sc, counts), AfterWrite(dirty, db.seats, sc, counts))
  {
    if counts == CountSeats(db.seats, sc) { RecountIsTrue(db, db, sc, dirty); }
  }

  /** The write leaves true counters exactly when the seats still number what was counted. */
  lemma {:induction false} WriteIsTrueIff(w: World, ttl: nat)
    requires Counting(w.job) && w.job.tally.ToWrite? && w.job.tally.sc in w.db.schedules
    ensures var db := Next(w, WriteCounts, ttl).db;
            var sc := w.job.tally.sc;
            db.schedules[sc].counts == CountSeats(db.seats, sc) <==> w.job.tally.counts == CountSeats(w.db.seats, sc)
  {
  }

  lemma {:induction false} RunIsSafe(w: World, es: seq<Event>, ttl: nat)
    requires SafeWorld(w)
    ensures SafeWorld(Run(w, es, ttl))
    decreases |es|
  {
    if es != [] {
      NextIsSafe(w, es[0], ttl);
      RunIsSafe(Next(w, es[0], ttl), es[1..], ttl);
    }
  }

  /** Ledger safety: in every run, in any mix of modes, each leg of each seat of each schedule
      has at most one active row. */
  lemma {:induction false} EveryLegHasOneOwner(es: seq<Event>, ttl: nat, k: RowId, l: RowId, leg: int)
    requires var rows := Run(START, es, ttl).db.rows;
             && k in rows && l in rows && k.seat == l.seat && rows[k].sched == rows[l].sched
             && Covers(rows[k], leg) && Covers(rows[l], leg)
    ensures k == l
  {
    RunIsSafe(START, es, ttl);
    assert Apart(Run(START, es, ttl).db.rows, k, l);
  }

  /** Counter truth: in every run, whatever fails in the job, the seats of a schedule number
      totalSeats, and its counters are the numbers of seats with those statuses, unless the job has
      changed its seats, or overwritten its counters with overtaken counts, and neither the job nor a
      segment request has recounted it since. */
  lemma {:induction false} CountersAreTrue(es: seq<Event>, ttl: nat, sc: ScheduleId)
    requires sc in Run(START, es, ttl).db.schedules
    ensures var w := Run(START, es, ttl);
            && w.db.schedules[sc].total == |SeatsOf(w.db.seats, sc)|
            && (sc !in w.debt.dirty ==> w.db.schedules[sc].counts == CountSeats(w.db.seats, sc))
  {
    RunIsSafe(START, es, ttl);
  }

  predicate NothingFails(es: seq<Event>) {
    forall e | e in es :: !Failure(e)
  }

  /** A write of counts finds the seats as they were counted. */
  predicate Timely(w: World, e: Event) {
    e.WriteCounts? && Counting(w.job) && w.job.tally.ToWrite? ==>
      w.job.tally.counts == CountSeats(w.db.seats, w.job.tally.sc)
  }

  predicate TimelyRun(w: World, es: seq<Event>, ttl: nat)
    decreases |es|
  {
    es != [] ==> Timely(w, es[0]) && TimelyRun(Next(w, es[0], ttl), es[1..], ttl)
  }

  /** Where nothing fails and every write of counts is timely, a schedule waits for its recount only
      between the statements of the job that change its seats and write their counts. */
  predicate DebtIsCurrent(w: World) {
    w.debt.dirty <= if Counting(w.job) then {w.job.tally.sc} else {}
  }

  lemma {:induction false} DebtStaysCurrent(w: World, es: seq<Event>, ttl: nat)
    requires DebtIsCurrent(w) && NothingFails(es) && TimelyRun(w, es, ttl)
    ensures DebtIsCurrent(Run(w, es, ttl))
    decreases |es|
  {
    if es != [] {
      assert es[0] in es && DebtIsCurrent(Next(w, es[0], ttl));
      DebtStaysCurrent(Next(w, es[0], ttl), es[1..], ttl);
    }
  }

  /** So with a job whose statements all succeed and whose counts are still true when it writes them,
      every other moment has true counters throughout. */
  lemma {:induction false} CountersAreTrueBetweenCounts(es: seq<Event>, ttl: nat, sc: ScheduleId)
    requires NothingFails(es) && TimelyRun(START, es, ttl) && sc in Run(START, es, ttl).db.schedules
    requires var job := Run(START, es, ttl).job; Counting(job) ==> job.tally.sc != sc
    ensures var w := Run(START, es, ttl); w.db.schedules[sc].counts == CountSeats(w.db.seats, sc)
  {
    DebtStaysCurrent(START, es, ttl);
    CountersAreTrue(es, ttl, sc);
  }

  // ----- counts that no request overtakes -----

  /** No request or event for a schedule comes between the two statements of its recount. */
  predicate Undisturbed(w: World, e: Event) {
    e.Request? && Counting(w.job) && w.job.tally.ToWrite? ==> e.op.sc != w.job.tally.sc
  }

  predicate UndisturbedRun(w: World, es: seq<Event>, ttl: nat)
    decreases |es|
  {
    es != [] ==> Undisturbed(w, es[0]) && UndisturbedRun(Next(w, es[0], ttl), es[1..], ttl)
  }

  predicate TallyIsTrue(w: World) {
    Counting(w.job) && w.job.tally.ToWrite? ==> w.job.tally.counts == CountSeats(w.db.seats, w.job.tally.sc)
  }

  /** A request leaves the seats of other schedules alone. */
  lemma {:induction false} ServeStaysInSchedule(db: Db, op: Op, expires: int, sc: ScheduleId)
    requires sc != op.sc
    ensures CountSeats(Serve(db, op, expires).seats, sc) == CountSeats(db.seats, sc)
  {
    CountFrame(db.seats, Serve(db, op, expires).seats, sc);
  }

  lemma {:induction false} NextKeepsTally(w: World, e: Event, ttl: nat)
    requires TallyIsTrue(w) && Undisturbed(w, e)
    ensures TallyIsTrue(Next(w, e, ttl))
  {
    if e.Request? && Counting(w.job) && w.job.tally.ToWrite? {
      ServeStaysInSchedule(w.db, e.op, Deadline(w.clock, ttl), w.job.tally.sc);
    }
  }

  lemma {:induction false} UndisturbedIsTimely(w: World, es: seq<Event>, ttl: nat)
    requires TallyIsTrue(w) && UndisturbedRun(w, es, ttl)
    ensures TimelyRun(w, es, ttl)
    decreases |es|
  {
    if es != [] {
      NextKeepsTally(w, es[0], ttl);
      UndisturbedIsTimely(Next(w, es[0], ttl), es[1..], ttl);
    }
  }
}
