/** Saga and ledger together: what a booking's status says about its rows. SagaTime.dfy draws the
    end-to-end claims from it. */
module SagaSeats {
  import opened Ledger
  import opened Saga
  import opened SagaControl
  import L = LedgerRuns
  import HoldRuns
  import P = Payments

  /** Everything of `Safe` but the counters, which play no part here. */
  predicate Sound(db: Db) {
    L.Safe(db, db.schedules.Keys)
  }

  function LockedRow(bk: Booking): SegRow
    requires bk.hold.Some?
  {
    SegRow(bk.sched, bk.from, bk.to, Locked, bk.user, Some(bk.hold.value.until), None)
  }

  function BookedRow(b: BookingId, bk: Booking): SegRow {
    SegRow(bk.sched, bk.from, bk.to, Booked, bk.user, None, Some(b))
  }

  function KeyFor(bk: Booking, seat: SeatId): RowId
    requires bk.hold.Some?
  {
    RowId(bk.hold.value.number, seat)
  }

  /** The rows of the booking's hold. */
  function Mine(rows: Rows, bk: Booking): Rows {
    if bk.hold.None? then map[] else map k | k in rows && k.hold == bk.hold.value.number :: rows[k]
  }

  predicate AllAre(mine: Rows, bk: Booking, row: SegRow) {
    bk.hold.Some? && forall seat | seat in bk.seats :: KeyFor(bk, seat) in mine && mine[KeyFor(bk, seat)] == row
  }

  /** A hold has all its rows, LOCKED or BOOKED alike, or none. */
  predicate HoldFits(mine: Rows, b: BookingId, bk: Booking) {
    bk.hold.Some? ==>
      Segmented(bk) && (mine == map[] || AllAre(mine, bk, LockedRow(bk)) || AllAre(mine, bk, BookedRow(b, bk)))
  }

  /** The booking's own rows: one per seat, BOOKED for it. */
  predicate SeatsBooked(rows: Rows, b: BookingId, bk: Booking) {
    AllAre(Mine(rows, bk), bk, BookedRow(b, bk))
  }

  /** The booking has its hold, still LOCKED. */
  predicate HoldsLocked(rows: Rows, bk: Booking) {
    bk.hold.Some? && AllAre(Mine(rows, bk), bk, LockedRow(bk))
  }

  predicate HoldUndone(log: seq<LogEntry>) {
    LogEntry(HoldSeats, Compensated) in log
  }

  predicate Holds(s: Sys, number: nat, b: BookingId) {
    number < s.db.nextHold && number in s.holders && s.holders[number] == b
  }

  predicate SeatFits(s: Sys, b: BookingId)
    requires b in s.bookings
  {
    var bk := s.bookings[b];
    && bk.seats != [] && (Segmented(bk) ==> bk.from < bk.to)
    && (bk.hold.Some? ==> Holds(s, bk.hold.value.number, b))
    && HoldFits(Mine(s.db.rows, bk), b, bk)
    && (bk.status == Confirmed && Segmented(bk) ==> SeatsBooked(s.db.rows, b, bk))
    && (HoldUndone(bk.log) ==> !HoldsLocked(s.db.rows, bk))
  }

  /** Every segment row belongs to the booking for which its hold was taken. */
  predicate RowFits(s: Sys, k: RowId)
    requires k in s.db.rows
  {
    && k.hold in s.holders && s.holders[k.hold] in s.bookings
    && var b := s.holders[k.hold];
       var bk := s.bookings[b];
       bk.hold.Some? && bk.hold.value.number == k.hold && k.seat in bk.seats
       && (s.db.rows[k] == LockedRow(bk) || s.db.rows[k] == BookedRow(b, bk))
  }

  predicate FinishFits(s: Sys, p: ProcId)
    requires p in s.procs
  {
    var b := s.procs[p].booking;
    s.procs[p].pc == Finishing ==>
      b in s.bookings && (Segmented(s.bookings[b]) ==> SeatsBooked(s.db.rows, b, s.bookings[b]))
  }

  predicate ListFits(s: Sys) {
    HoldRuns.WholeHolds(s.db.rows, s.listed) && forall k | k in s.listed :: k.hold < s.db.nextHold
  }

  predicate SeatInv(s: Sys) {
    && Sound(s.db) && ListFits(s)
    && (forall h | h in s.holders :: h < s.db.nextHold)
    && (forall b {:trigger SeatFits(s, b)} | b in s.bookings :: SeatFits(s, b))
    && (forall k {:trigger RowFits(s, k)} | k in s.db.rows :: RowFits(s, k))
    && (forall p {:trigger FinishFits(s, p)} | p in s.procs :: FinishFits(s, p))
  }

  /** What the seats need of a step: calls name their own hold, and the expiry job does not delete a
      row that was confirmed after it was listed. A fair run makes proper steps only, as SagaTime
      proves. */
  predicate Proper(s: Sys, e: Step) {
    match e
    case Call(p, _) => At(s, p, Success, Calling) ==> NamesOwn(s, s.bookings[s.procs[p].booking])
    case Undo(p, _, _) => Releasing(s, p) ==> NamesOwn(s, s.bookings[s.procs[p].booking])
    case JobDrop => forall k | k in s.listed && k in s.db.rows :: s.db.rows[k].status != Booked
    case _ => true
  }

  // ----- frames -----

  predicate SameCore(bk: Booking, bk': Booking) {
    && bk'.sched == bk.sched && bk'.seats == bk.seats && bk'.user == bk.user
    && bk'.from == bk.from && bk'.to == bk.to && bk'.hold == bk.hold
  }

  lemma {:induction false} CoreDecides(rows: Rows, b: BookingId, bk: Booking, bk': Booking)
    requires SameCore(bk, bk')
    ensures Mine(rows, bk') == Mine(rows, bk) && BookedRow(b, bk') == BookedRow(b, bk)
    ensures SeatsBooked(rows, b, bk') <==> SeatsBooked(rows, b, bk)
  {
    var mine := Mine(rows, bk);
    forall seat | seat in bk.seats && bk.hold.Some? ensures KeyFor(bk', seat) == KeyFor(bk, seat) {}
  }

  /** Only rows of hold number `h` differ. */
  predicate OnlyHold(rows: Rows, rows': Rows, h: nat) {
    && (forall k | k in rows && k.hold != h :: k in rows' && rows'[k] == rows[k])
    && (forall k | k in rows' && k.hold != h :: k in rows)
  }

  lemma {:induction false} OtherHoldKept(s: Sys, rows': Rows, b: BookingId, c: BookingId, h: nat)
    requires c in s.bookings && b != c && SeatFits(s, c)
    requires OnlyHold(s.db.rows, rows', h) && (h in s.holders ==> s.holders[h] == b)
    ensures Mine(rows', s.bookings[c]) == Mine(s.db.rows, s.bookings[c])
  {
  }

  /** A step of `p` on `b` that touches the rows of hold `h`, which is or becomes b's. */
  lemma {:induction false} ConfinedStep(s: Sys, s': Sys, p: ProcId, b: BookingId, h: nat)
    requires SeatInv(s) && OnlyMoves(s, s', p, b) && Sound(s'.db)
    requires s.db.nextHold <= s'.db.nextHold && OnlyHold(s.db.rows, s'.db.rows, h)
    requires h in s'.holders && s'.holders[h] == b && h < s'.db.nextHold && s'.holders.Keys == s.holders.Keys + {h}
    requires forall x | x in s.holders :: s'.holders[x] == s.holders[x]
    requires ListFits(s') && b in s'.bookings
    requires SeatFits(s', b) && forall k | k in s'.db.rows && k.hold == h :: RowFits(s', k)
    requires forall q | q in s'.procs && s'.procs[q].booking == b :: FinishFits(s', q)
    requires p in s'.procs && s'.procs[p].booking == b
    requires b in s.bookings && (s.bookings[b].hold.Some? ==> s.bookings[b].hold.value.number == h)
    ensures SeatInv(s')
  {
    forall c | c in s'.bookings ensures SeatFits(s', c) {
      if c != b { assert SeatFits(s, c); OtherHoldKept(s, s'.db.rows, b, c, h); }
    }
    forall k | k in s'.db.rows ensures RowFits(s', k) {
      if k.hold != h { assert RowFits(s, k) && s.holders[k.hold] != b; }
    }
    forall q | q in s'.procs ensures FinishFits(s', q) {
      var c := s'.procs[q].booking;
      if c != b {
        assert FinishFits(s, q);
        if s.procs[q].pc == Finishing { assert SeatFits(s, c); OtherHoldKept(s, s'.db.rows, b, c, h); }
      }
    }
  }

  /** A step of `p` on `b` that touches no row. */
  lemma {:induction false} QuietStep(s: Sys, s': Sys, p: ProcId, b: BookingId)
    requires SeatInv(s) && OnlyMoves(s, s', p, b) && s'.holders == s.holders && s'.listed == s.listed
    requires Sound(s'.db) && s'.db.rows == s.db.rows && s.db.nextHold <= s'.db.nextHold
    requires b in s'.bookings && SeatFits(s', b)
    requires b in s.bookings ==> SameCore(s.bookings[b], s'.bookings[b])
    requires p in s'.procs && s'.procs[p].booking == b && FinishFits(s', p)
    ensures SeatInv(s')
  {
    forall c | c in s'.bookings ensures SeatFits(s', c) {
      if c != b { assert SeatFits(s, c); }
    }
    forall k | k in s'.db.rows ensures RowFits(s', k) { assert RowFits(s, k); }
    forall q | q in s'.procs ensures FinishFits(s', q) {
      if q != p {
        assert FinishFits(s, q);
        if b in s.bookings { CoreDecides(s.db.rows, b, s.bookings[b], s'.bookings[b]); }
      }
    }
  }

  // ----- steps that touch no row -----

  predicate TurnsConfirmed(bk: Booking, bk': Booking) {
    bk'.status == Confirmed && bk'.status != bk.status && Segmented(bk')
  }

  /** A rewrite of the booking's own columns, and the process moving on. */
  lemma {:induction false} RewriteKeepsSeats(s: Sys, p: ProcId, b: BookingId, bk: Booking, pc: Pc)
    requires SeatInv(s) && p in s.procs && s.procs[p].booking == b && b in s.bookings && SameCore(s.bookings[b], bk)
    requires HoldUndone(bk.log) && !HoldUndone(s.bookings[b].log) ==> !HoldsLocked(s.db.rows, s.bookings[b])
    requires pc == Finishing && Segmented(bk) ==> SeatsBooked(s.db.rows, b, s.bookings[b])
    requires TurnsConfirmed(s.bookings[b], bk) ==> SeatsBooked(s.db.rows, b, s.bookings[b])
    ensures SeatInv(Move(Put(s, b, bk), p, pc))
  {
    assert SeatFits(s, b);
    CoreDecides(s.db.rows, b, s.bookings[b], bk);
    var s' := Move(Put(s, b, bk), p, pc);
    RewriteFits(s, s', b);
    QuietStep(s, s', p, b);
  }

  lemma {:induction false} RewriteFits(s: Sys, s': Sys, b: BookingId)
    requires b in s.bookings && b in s'.bookings && SeatFits(s, b) && SameCore(s.bookings[b], s'.bookings[b])
    requires s'.db == s.db && s'.holders == s.holders
    requires HoldUndone(s'.bookings[b].log) && !HoldUndone(s.bookings[b].log) ==> !HoldsLocked(s.db.rows, s.bookings[b])
    requires TurnsConfirmed(s.bookings[b], s'.bookings[b]) ==> SeatsBooked(s.db.rows, b, s.bookings[b])
    ensures SeatFits(s', b)
  {
    var bk, bk' := s.bookings[b], s'.bookings[b];
    CoreDecides(s.db.rows, b, bk, bk');
    if bk.hold.Some? {
      assert LockedRow(bk') == LockedRow(bk);
      SameAll(Mine(s.db.rows, bk), bk, bk', LockedRow(bk));
      SameAll(Mine(s.db.rows, bk), bk, bk', BookedRow(b, bk));
    }
  }

  lemma {:induction false} SameAll(mine: Rows, bk: Booking, bk': Booking, row: SegRow)
    requires SameCore(bk, bk')
    ensures AllAre(mine, bk', row) <==> AllAre(mine, bk, row)
  {
    forall seat | seat in bk.seats && bk.hold.Some? ensures KeyFor(bk', seat) == KeyFor(bk, seat) {}
  }

  /** Steps of the payment service and of the process alone. */
  lemma {:induction false} SidewaysKeepsSeats(s: Sys, s': Sys)
    requires SeatInv(s) && s'.db == s.db && s'.holders == s.holders
    requires s'.listed == s.listed && s'.bookings == s.bookings
    requires s.procs.Keys <= s'.procs.Keys
    requires forall q | q in s'.procs && s'.procs[q].pc == Finishing :: q in s.procs && s'.procs[q] == s.procs[q]
    ensures SeatInv(s')
  {
    forall c | c in s'.bookings ensures SeatFits(s', c) { assert SeatFits(s, c); }
    forall k | k in s'.db.rows ensures RowFits(s', k) { assert RowFits(s, k); }
    forall q | q in s'.procs ensures FinishFits(s', q) { if q in s.procs { assert FinishFits(s, q); } }
  }

  lemma {:induction false} BookKeepsSeats(s: Sys, e: Step)
    requires SeatInv(s) && e.Book?
    ensures SeatInv(Next(s, e))
  {
    var s' := Next(s, e);
    if s' != s { QuietStep(s, s', e.p, e.b); }
  }

  lemma {:induction false} PayKeepsSeats(s: Sys, p: ProcId, up: bool)
    requires SeatInv(s)
    ensures SeatInv(PayStep(s, p, up))
  {
    if At(s, p, Creation, Paying) {
      var b := s.procs[p].booking;
      var bk := s.bookings[b];
      if up && bk.amount > 0 {
        var s1 := s.(pay := P.CreateOrder(s.pay, b, bk.amount));
        SidewaysKeepsSeats(s, s1);
        var bk' := Logged(bk, CreatePayment, true).(status := PaymentPending, ordered := true, creating := false);
        RewriteKeepsSeats(s1, p, b, bk', Stopped);
      } else {
        RewriteKeepsSeats(s, p, b, Logged(bk, CreatePayment, false), Loading);
      }
    }
  }

  lemma {:induction false} AbandonKeepsSeats(s: Sys, p: ProcId)
    requires SeatInv(s)
    ensures SeatInv(AbandonStep(s, p))
  {
    if AbandonStep(s, p) != s {
      RewriteKeepsSeats(s, p, s.procs[p].booking, s.bookings[s.procs[p].booking].(creating := false), Stopped);
    }
  }

  lemma {:induction false} ClaimKeepsSeats(s: Sys, p: ProcId)
    requires SeatInv(s)
    ensures SeatInv(ClaimStep(s, p))
  {
    if p in s.procs && s.procs[p].booking in s.bookings {
      var b := s.procs[p].booking;
      RewriteKeepsSeats(s, p, b, Claimed(s.procs[p].kind, s.bookings[b], p), AfterClaim(s.procs[p]));
      if s.procs[p].pc == Claiming { SidewaysKeepsSeats(s, Move(s, p, Stopped)); }
    }
  }

  lemma {:induction false} FinishKeepsSeats(s: Sys, p: ProcId, up: bool)
    requires SeatInv(s)
    ensures SeatInv(FinishStep(s, p, up))
  {
    if At(s, p, Success, Finishing) {
      var b := s.procs[p].booking;
      var bk := s.bookings[b];
      assert FinishFits(s, p);
      RewriteKeepsSeats(s, p, b, bk.(status := Confirmed, version := bk.version + 1), Stopped);
      SidewaysKeepsSeats(s, Move(s, p, Stopped));
      SidewaysKeepsSeats(s, Move(s, p, Loading));
    }
  }

  lemma {:induction false} FailKeepsSeats(s: Sys, p: ProcId)
    requires SeatInv(s)
    ensures SeatInv(FailStep(s, p))
  {
    if p in s.procs && s.procs[p].pc == Undoing([]) && s.procs[p].booking in s.bookings {
      var b := s.procs[p].booking;
      var bk := s.bookings[b];
      if s.procs[p].kind == Creation {
        RewriteKeepsSeats(s, p, b, bk.(status := FailedBooking, creating := false), Stopped);
      } else if s.procs[p].kind == Success && (bk.status == PaymentPending || bk.status == Confirming) {
        RewriteKeepsSeats(s, p, b, bk.(status := FailedBooking, version := bk.version + 1), Stopped);
      } else {
        SidewaysKeepsSeats(s, Move(s, p, Stopped));
      }
    }
  }

  // ----- steps that change no booking and no table of the inventory -----

  lemma {:induction false} SpawnKeepsSeats(s: Sys, p: ProcId, kind: Kind, b: BookingId)
    requires SeatInv(s)
    ensures SeatInv(SpawnStep(s, p, kind, b))
  {
    SidewaysKeepsSeats(s, SpawnStep(s, p, kind, b));
  }

  lemma {:induction false} ReadKeepsSeats(s: Sys, p: ProcId)
    requires SeatInv(s)
    ensures SeatInv(ReadStep(s, p))
  {
    SidewaysKeepsSeats(s, ReadStep(s, p));
  }

  lemma {:induction false} LoadKeepsSeats(s: Sys, p: ProcId)
    requires SeatInv(s)
    ensures SeatInv(LoadStep(s, p))
  {
    SidewaysKeepsSeats(s, LoadStep(s, p));
  }

  lemma {:induction false} RefundKeepsSeats(s: Sys, p: ProcId, up: bool, answer: Option<P.GatewayRefundId>)
    requires SeatInv(s)
    ensures SeatInv(RefundStep(s, p, up, answer))
  {
    SidewaysKeepsSeats(s, RefundStep(s, p, up, answer));
  }

  // ----- steps of the world around -----

  /** The tables change, but no segment row does. */
  lemma {:induction false} OutsideKeepsSeats(s: Sys, s': Sys)
    requires SeatInv(s) && s'.procs == s.procs && s'.bookings == s.bookings && s'.holders == s.holders
    requires Sound(s'.db) && s'.db.rows == s.db.rows && s.db.nextHold <= s'.db.nextHold && ListFits(s')
    ensures SeatInv(s')
  {
    forall c | c in s'.bookings ensures SeatFits(s', c) { assert SeatFits(s, c); }
    forall k | k in s'.db.rows ensures RowFits(s', k) { assert RowFits(s, k); }
    forall q | q in s'.procs ensures FinishFits(s', q) { assert FinishFits(s, q); }
  }

  lemma {:induction false} ServeKeepsSound(db: Db, op: L.Op, until: int)
    requires Sound(db)
    ensures Sound(L.Serve(db, op, until))
  {
    L.ServeIsSafe(db, op, until, db.schedules.Keys);
  }

  lemma {:induction false} InventoryKeepsSeats(s: Sys, op: L.Op, ttl: nat)
    requires SeatInv(s)
    ensures SeatInv(Next(s, Inventory(op, ttl)))
  {
    if Foreign(s.db, op) {
      var until := L.Deadline(s.clock, ttl);
      ServeKeepsSound(s.db, op, until);
      L.ServeRows(s.db, op, until);
      ForeignIsQuiet(s.db, op, until);
      OutsideKeepsSeats(s, s.(db := L.Serve(s.db, op, until)));
    }
  }

  lemma {:induction false} ForeignIsQuiet(db: Db, op: L.Op, until: int)
    requires Foreign(db, op)
    ensures L.RowsAfter(db, op, until) == db.rows && db.nextHold <= L.Serve(db, op, until).nextHold
  {
  }

  lemma {:induction false} RelabelKeepsSound(db: Db, seats': Seats)
    requires Sound(db) && seats'.Keys == db.seats.Keys
    ensures Sound(db.(seats := seats'))
  {
    L.SameKeysSameTotals(db.seats, seats');
  }

  lemma {:induction false} RelabelKeepsSeats(s: Sys, seats': Seats)
    requires SeatInv(s) && seats'.Keys == s.db.seats.Keys
    ensures SeatInv(s.(db := s.db.(seats := seats')))
  {
    RelabelKeepsSound(s.db, seats');
    OutsideKeepsSeats(s, s.(db := s.db.(seats := seats')));
  }

  lemma {:induction false} JobRecomputeKeepsSeats(s: Sys, sc: ScheduleId, S: set<SeatId>)
    requires SeatInv(s)
    ensures SeatInv(s.(db := Recompute(s.db, sc, S)))
  {
    assert Recompute(s.db, sc, S).seats.Keys == s.db.seats.Keys;
    RelabelKeepsSeats(s, Recompute(s.db, sc, S).seats);
  }

  lemma {:induction false} JobFreeKeepsSeats(s: Sys, sc: ScheduleId, S: set<SeatId>)
    requires SeatInv(s)
    ensures SeatInv(s.(db := FreeSeats(s.db, sc, S)))
  {
    assert FreeSeats(s.db, sc, S).seats.Keys == s.db.seats.Keys;
    RelabelKeepsSeats(s, FreeSeats(s.db, sc, S).seats);
  }

  lemma {:induction false} JobRecountKeepsSeats(s: Sys, sc: ScheduleId, counts: Counts)
    requires SeatInv(s)
    ensures SeatInv(s.(db := SetCounts(s.db, sc, counts)))
  {
    OutsideKeepsSeats(s, s.(db := SetCounts(s.db, sc, counts)));
  }

  lemma {:induction false} UniformHolds(s: Sys)
    requires SeatInv(s)
    ensures HoldRuns.Uniform(s.db.rows)
  {
    forall k, l | k in s.db.rows && l in s.db.rows && k.hold == l.hold ensures s.db.rows[k] == s.db.rows[l] {
      assert RowFits(s, k) && RowFits(s, l);
      var b := s.holders[k.hold];
      assert SeatFits(s, b);
      assert k in Mine(s.db.rows, s.bookings[b]) && l in Mine(s.db.rows, s.bookings[b]);
      assert KeyFor(s.bookings[b], k.seat) == k && KeyFor(s.bookings[b], l.seat) == l;
    }
  }

  lemma {:induction false} FindKeepsSeats(s: Sys)
    requires SeatInv(s)
    ensures SeatInv(Next(s, JobFind))
  {
    UniformHolds(s);
    HoldRuns.ExpiredIsWhole(s.db.rows, s.clock);
    OutsideKeepsSeats(s, Next(s, JobFind));
  }

  lemma {:induction false} DropKeepsSeats(s: Sys)
    requires SeatInv(s) && Proper(s, JobDrop)
    ensures SeatInv(Next(s, JobDrop))
  {
    var s' := Next(s, JobDrop);
    L.DropIsSafe(s.db, s.listed, s.db.schedules.Keys);
    forall c | c in s'.bookings ensures SeatFits(s', c) { DropKeepsSeatFits(s, c); }
    forall k | k in s'.db.rows ensures RowFits(s', k) { assert RowFits(s, k); }
    forall q | q in s'.procs ensures FinishFits(s', q) {
      assert FinishFits(s, q);
      var c := s'.procs[q].booking;
      if c in s.bookings { DropKeepsSeatFits(s, c); }
    }
  }

  lemma {:induction false} DropKeepsSeatFits(s: Sys, c: BookingId)
    requires SeatInv(s) && Proper(s, JobDrop) && c in s.bookings
    ensures SeatFits(s.(db := DeleteRows(s.db, s.listed), listed := {}), c)
    ensures SeatsBooked(s.db.rows, c, s.bookings[c]) ==> SeatsBooked(s.db.rows - s.listed, c, s.bookings[c])
  {
    assert SeatFits(s, c);
    DropTakesAllOrNone(s, c);
  }

  /** The job deletes all rows of a hold or none, and none that is BOOKED. */
  lemma {:induction false} DropTakesAllOrNone(s: Sys, c: BookingId)
    requires SeatInv(s) && Proper(s, JobDrop) && c in s.bookings
    ensures var mine, mine' := Mine(s.db.rows, s.bookings[c]), Mine(s.db.rows - s.listed, s.bookings[c]);
            mine' == mine || (mine' == map[] && !SeatsBooked(s.db.rows, c, s.bookings[c]))
  {
    var bk := s.bookings[c];
    var mine, mine' := Mine(s.db.rows, bk), Mine(s.db.rows - s.listed, bk);
    assert SeatFits(s, c);
    if k :| k in mine && k in s.listed {
      forall l | l in mine ensures l in s.listed { assert l.hold == k.hold; }
      assert mine' == map[];
      assert RowFits(s, k) && KeyFor(bk, k.seat) == k;
    } else {
      assert mine' == mine;
    }
  }
}
