/** Holds over whole runs: the rows that one lockSeats call inserted share one row image and
    come and go together, as long as every release and confirmation names whole holds. */
module HoldRuns {
  import opened Ledger
  import opened LedgerRuns
  import opened Holds

  /** Rows of one hold are equal in everything but the seat: also in status, expiry and booking. */
  predicate Uniform(rows: Rows) {
    forall k, l {:trigger rows[k], rows[l]} | k in rows && l in rows && k.hold == l.hold :: rows[k] == rows[l]
  }

  /** A set of keys that has, of each hold, every row that is there or none. */
  predicate WholeHolds(rows: Rows, keys: set<RowId>) {
    forall k, l | k in keys && k in rows && l in rows && k.hold == l.hold :: l in keys
  }

  /** The hypothesis on the callers: what a release or a confirmation names is whole holds. */
  predicate NamesWhole(db: Db, op: Op) {
    match op
    case Unlock(sc, ids, user, from, to) =>
      WholeHolds(db.rows, Named(db.rows, sc, Found(db.seats, sc, ids), user, from, to))
    case Confirm(sc, ids, user, _, from, to) =>
      WholeHolds(db.rows, Named(db.rows, sc, Found(db.seats, sc, ids), user, from, to))
    case _ => true
  }

  /** From `rows` to `rows'`, holds stay or go as a whole, and what is new has a new number. */
  predicate Together(rows: Rows, rows': Rows, nextHold: nat) {
    && (forall k, l | k in rows && l in rows && k.hold == l.hold :: k in rows' <==> l in rows')
    && (forall k | k in rows' && k !in rows :: k.hold >= nextHold)
  }

  lemma {:induction false} CarryingIsWhole(rows: Rows, sc: ScheduleId, booking: BookingId)
    requires Uniform(rows)
    ensures WholeHolds(rows, Carrying(rows, sc, booking))
  {
  }

  lemma {:induction false} RemovalIsTogether(rows: Rows, keys: set<RowId>, nextHold: nat)
    requires Uniform(rows) && WholeHolds(rows, keys)
    ensures Uniform(rows - keys) && Together(rows, rows - keys, nextHold)
  {
  }

  lemma {:induction false} BookingIsTogether(rows: Rows, hit: set<RowId>, booking: BookingId, nextHold: nat)
    requires Uniform(rows) && WholeHolds(rows, hit)
    ensures Uniform(BookRows(rows, hit, booking)) && Together(rows, BookRows(rows, hit, booking), nextHold)
  {
  }

  lemma {:induction false} InsertionIsTogether(db: Db, S: set<SeatId>, row: SegRow)
    requires RowsOwned(db) && Uniform(db.rows)
    ensures var rows' := db.rows + NewRows(db.nextHold, S, row);
            Uniform(rows') && Together(db.rows, rows', db.nextHold)
  {
  }

  lemma {:induction false} ServeIsTogether(db: Db, op: Op, expires: int)
    requires SeatsOwned(db) && RowsOwned(db) && Uniform(db.rows) && NamesWhole(db, op)
    ensures var db' := Serve(db, op, expires);
            Uniform(db'.rows) && Together(db.rows, db'.rows, db.nextHold) && db.nextHold <= db'.nextHold
  {
    ServeRows(db, op, expires);
    match op
    case Lock(sc, ids, user, from, to) =>
      InsertionIsTogether(db, Found(db.seats, sc, ids), SegRow(sc, from, to, Locked, user, Some(expires), None));
    case Unlock(sc, ids, user, from, to) =>
      RemovalIsTogether(db.rows, Named(db.rows, sc, Found(db.seats, sc, ids), user, from, to), db.nextHold);
    case Confirm(sc, ids, user, booking, from, to) =>
      BookingIsTogether(db.rows, Named(db.rows, sc, Found(db.seats, sc, ids), user, from, to), booking, db.nextHold);
    case CancelOf(sc, booking) =>
      CarryingIsWhole(db.rows, sc, booking);
      RemovalIsTogether(db.rows, Carrying(db.rows, sc, booking), db.nextHold);
    case Create(_, _) =>
    case Close(_) =>
  }

  predicate WholeWorld(w: World) {
    && Uniform(w.db.rows)
    && (w.job.FoundRows? ==> WholeHolds(w.db.rows, w.job.ids) && forall k | k in w.job.ids :: k.hold < w.db.nextHold)
  }

  predicate WholeStep(w: World, e: Event) {
    e.Request? ==> NamesWhole(w.db, e.op)
  }

  predicate WholeRun(w: World, es: seq<Event>, ttl: nat)
    decreases |es|
  {
    es != [] ==> WholeStep(w, es[0]) && WholeRun(Next(w, es[0], ttl), es[1..], ttl)
  }

  /** A list of whole holds stays one: its holds can only have gone as a whole. */
  lemma {:induction false} ListStaysWhole(rows: Rows, rows': Rows, ids: set<RowId>, nextHold: nat)
    requires Uniform(rows) && WholeHolds(rows, ids) && Together(rows, rows', nextHold)
    requires forall k | k in ids :: k.hold < nextHold
    ensures WholeHolds(rows', ids)
  {
  }

  lemma {:induction false} ExpiredIsWhole(rows: Rows, now: int)
    requires Uniform(rows)
    ensures WholeHolds(rows, ExpiredRows(rows, now))
  {
  }

  lemma {:induction false} NextIsTogether(w: World, e: Event, ttl: nat)
    requires SafeWorld(w) && WholeWorld(w) && WholeStep(w, e)
    ensures var w' := Next(w, e, ttl);
            WholeWorld(w') && Together(w.db.rows, w'.db.rows, w.db.nextHold) && w.db.nextHold <= w'.db.nextHold
  {
    match e
    case Request(op) =>
      ServeIsTogether(w.db, op, Deadline(w.clock, ttl));
      if w.job.FoundRows? {
        ListStaysWhole(w.db.rows, Serve(w.db, op, Deadline(w.clock, ttl)).rows, w.job.ids, w.db.nextHold);
      }
    case FindRows => ExpiredIsWhole(w.db.rows, w.clock);
    case DropRows => if w.job.FoundRows? { RemovalIsTogether(w.db.rows, w.job.ids, w.db.nextHold); }
    case _ =>
  }

  /** Hold atomicity: in every run whose calls name whole holds, two rows of one hold are equal
      at every moment, and whatever happens after, one is there exactly when the other is. */
  lemma {:induction false} HoldsMoveTogether(w: World, es: seq<Event>, ttl: nat)
    requires SafeWorld(w) && WholeWorld(w) && WholeRun(w, es, ttl)
    ensures var w' := Run(w, es, ttl);
            WholeWorld(w') && Together(w.db.rows, w'.db.rows, w.db.nextHold)
    decreases |es|
  {
    if es != [] {
      var w1 := Next(w, es[0], ttl);
      NextIsSafe(w, es[0], ttl);
      NextIsTogether(w, es[0], ttl);
      HoldsMoveTogether(w1, es[1..], ttl);
      TogetherIsTransitive(w.db, w1.db, Run(w, es, ttl).db);
    }
  }

  lemma {:induction false} TogetherIsTransitive(a: Db, b: Db, c: Db)
    requires RowsOwned(a) && a.nextHold <= b.nextHold
    requires Together(a.rows, b.rows, a.nextHold) && Together(b.rows, c.rows, b.nextHold)
    ensures Together(a.rows, c.rows, a.nextHold)
  {
  }

  // ----- the test `updated === 0` of confirmSeats -----

  /** Seat `s` has a BOOKED row of this booking for this segment. */
  predicate Sold(rows: Rows, sc: ScheduleId, s: SeatId, booking: BookingId, from: int, to: int) {
    exists k :: k in rows && IsFor(rows, k, sc, s) && rows[k].status == Booked
                && rows[k].booking == Some(booking) && rows[k].from == from && rows[k].to == to
  }

  /** Seat `s` has a LOCKED row of this user for this segment. */
  predicate HeldFor(rows: Rows, sc: ScheduleId, s: SeatId, user: UserId, from: int, to: int) {
    exists k :: k in rows && k.seat == s && rows[k].sched == sc && rows[k].status == Locked
                && rows[k].user == user && rows[k].from == from && rows[k].to == to
  }

  predicate AllSold(rows: Rows, sc: ScheduleId, S: set<SeatId>, booking: BookingId, from: int, to: int) {
    forall s | s in S :: Sold(rows, sc, s, booking, from, to)
  }

  predicate AllHeld(rows: Rows, sc: ScheduleId, S: set<SeatId>, user: UserId, from: int, to: int) {
    forall s | s in S :: HeldFor(rows, sc, s, user, from, to)
  }

  lemma {:induction false} BookingSellsIff(rows: Rows, sc: ScheduleId, S: set<SeatId>, user: UserId,
      booking: BookingId, from: int, to: int)
    requires Fresh(rows, booking)
    ensures AllSold(BookRows(rows, Named(rows, sc, S, user, from, to), booking), sc, S, booking, from, to)
       <==> AllHeld(rows, sc, S, user, from, to)
  {
    var hit := Named(rows, sc, S, user, from, to);
    var rows' := BookRows(rows, hit, booking);
    forall s | s in S ensures Sold(rows', sc, s, booking, from, to) <==> HeldFor(rows, sc, s, user, from, to) {
      if Sold(rows', sc, s, booking, from, to) {
        var k :| k in rows' && IsFor(rows', k, sc, s) && rows'[k].booking == Some(booking);
        assert k in hit;
      }
      if HeldFor(rows, sc, s, user, from, to) {
        var k :| k in rows && k.seat == s && rows[k].sched == sc && rows[k].status == Locked
          && rows[k].user == user && rows[k].from == from && rows[k].to == to;
        assert k in hit;
        assert IsFor(rows', k, sc, s);
      }
    }
  }

  /** A segment confirmation that answers success has sold every requested seat exactly when
      every one of them still had a LOCKED row of that user and segment. */
  lemma {:induction false} ConfirmSellsAllIff(db: Db, sc: ScheduleId, ids: seq<SeatId>, user: UserId,
      booking: BookingId, from: int, to: int)
    requires IsSegment(from, to) && Fresh(db.rows, booking)
    requires ConfirmSeats(db, sc, ids, user, booking, from, to).1.Done?
    ensures var S := Found(db.seats, sc, ids);
            var db' := ConfirmSeats(db, sc, ids, user, booking, from, to).0;
            AllSold(db'.rows, sc, S, booking, from, to) <==> AllHeld(db.rows, sc, S, user, from, to)
  {
    BookingSellsIff(db.rows, sc, Found(db.seats, sc, ids), user, booking, from, to);
  }

  /** So one LOCKED row is enough for a success that leaves another seat unsold. */
  lemma {:induction false} HalfAHoldIsConfirmed(db: Db, k: RowId, other: SeatId, booking: BookingId)
    requires SeatsOwned(db) && RowsOwned(db) && Fresh(db.rows, booking)
    requires k in db.rows && db.rows[k].status == Locked && IsSegment(db.rows[k].from, db.rows[k].to)
    requires other != k.seat && SeatKey(db.rows[k].sched, other) in db.seats
    requires forall l | l in db.rows && l.seat == other :: db.rows[l].sched != db.rows[k].sched
    ensures var r := db.rows[k];
            var (db', reply) := ConfirmSeats(db, r.sched, [k.seat, other], r.user, booking, r.from, r.to);
            reply.Done? && !AllSold(db'.rows, r.sched, Found(db.seats, r.sched, [k.seat, other]), booking, r.from, r.to)
  {
    var r := db.rows[k];
    var ids := [k.seat, other];
    var S := Found(db.seats, r.sched, ids);
    BothAreFound(db, r.sched, k.seat, other);
    ConfirmIsDone(db, ids, k, booking);
    assert !HeldFor(db.rows, r.sched, other, r.user, r.from, r.to);
    ConfirmSellsAllIff(db, r.sched, ids, r.user, booking, r.from, r.to);
  }

  lemma {:induction false} BothAreFound(db: Db, sc: ScheduleId, a: SeatId, b: SeatId)
    requires a != b && SeatKey(sc, a) in db.seats && SeatKey(sc, b) in db.seats
    ensures AllFound(db, sc, [a, b]) && b in Found(db.seats, sc, [a, b])
  {
    assert Found(db.seats, sc, [a, b]) == {a, b};
  }

  lemma {:induction false} ConfirmIsDone(db: Db, ids: seq<SeatId>, k: RowId, booking: BookingId)
    requires SeatsOwned(db) && RowsOwned(db)
    requires k in db.rows && db.rows[k].status == Locked && IsSegment(db.rows[k].from, db.rows[k].to)
    requires AllFound(db, db.rows[k].sched, ids) && k.seat in ids
    ensures var r := db.rows[k]; ConfirmSeats(db, r.sched, ids, r.user, booking, r.from, r.to).1.Done?
  {
    var r := db.rows[k];
    var S := Found(db.seats, r.sched, ids);
    assert SeatKey(r.sched, k.seat) in db.seats;
    assert k in Named(db.rows, r.sched, S, r.user, r.from, r.to);
  }
}
