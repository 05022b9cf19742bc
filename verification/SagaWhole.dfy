/** Whole-journey bookings: they own no segment rows, so what is sold is written on the seats
    themselves. Where each seat is either managed by segment or sold for the whole journey, a
    CONFIRMED whole-journey booking keeps its seats, in time or late, and with the segment
    bookings' result no seat is sold twice for any leg. */
module SagaWhole {
  import opened Ledger
  import opened Saga
  import opened SagaControl
  import A = LedgerAgreement
  import C = SagaCalls
  import L = LedgerRuns
  import P = Payments
  import S = SagaSeats
  import T = SagaTime

  /** The seat carries this booking's id and is BOOKED, or was cancelled with its schedule. */
  predicate SoldTo(seats: Seats, k: SeatKey, b: BookingId) {
    k in seats && seats[k].booking == Some(b) && (seats[k].status == Booked || seats[k].status == Cancelled)
  }

  /** Whole-journey seats, those outside `M`, that are sold to `b` stay sold to it. */
  predicate KeepsSold(seats: Seats, seats': Seats, M: set<SeatKey>, b: BookingId) {
    forall k {:trigger SoldTo(seats', k, b)} | k in seats && k !in M && SoldTo(seats, k, b) :: SoldTo(seats', k, b)
  }

  // ----- the ledger -----

  predicate Inside(sc: ScheduleId, ids: set<SeatId>, M: set<SeatKey>) {
    forall x | x in ids :: SeatKey(sc, x) in M
  }

  lemma {:induction false} SettleSpares(db: Db, sc: ScheduleId, ids: set<SeatId>, M: set<SeatKey>)
    requires Inside(sc, ids, M)
    ensures var seats' := Settle(db, sc, ids).0.seats;
            seats'.Keys == db.seats.Keys && forall k | k in db.seats && k !in M :: seats'[k] == db.seats[k]
  {
    forall k | k in db.seats && k !in M ensures !(k.sched == sc && k.seat in ids) {
      assert k == SeatKey(k.sched, k.seat);
    }
  }

  lemma {:induction false} EditSpares(seats: Seats, sc: ScheduleId, ids: set<SeatId>, e: Edit, M: set<SeatKey>,
      b: BookingId)
    requires forall x | x in ids && SeatKey(sc, x) in seats && SeatKey(sc, x) !in M :: !SoldTo(seats, SeatKey(sc, x), b)
    ensures KeepsSold(seats, EditSeats(seats, sc, ids, e), M, b)
  {
    forall k | k !in M && SoldTo(seats, k, b) ensures SoldTo(EditSeats(seats, sc, ids, e), k, b) {
      assert k == SeatKey(k.sched, k.seat);
    }
  }

  lemma {:induction false} LockSpares(db: Db, op: L.Op, until: int, M: set<SeatKey>, b: BookingId)
    requires op.Lock? && A.Respects(op, M)
    ensures KeepsSold(db.seats, L.Serve(db, op, until).seats, M, b)
  {
    var found := Found(db.seats, op.sc, op.ids);
    if IsSegment(op.from, op.to) {
      var row := SegRow(op.sc, op.from, op.to, Locked, op.user, Some(until), None);
      EditSpares(db.seats, op.sc, found, Stamp(op.user, until), M, b);
      SettleSpares(Inserted(db, op.sc, found, row, until), op.sc, found, M);
    } else if AllShow(db.seats, op.sc, found, Available) {
      EditSpares(db.seats, op.sc, found, TakeWhole(op.user, until), M, b);
    }
  }

  lemma {:induction false} UnlockSpares(db: Db, op: L.Op, M: set<SeatKey>, b: BookingId)
    requires op.Unlock? && A.Respects(op, M)
    ensures KeepsSold(db.seats, L.Serve(db, op, 0).seats, M, b)
  {
    var found := Found(db.seats, op.sc, op.ids);
    if IsSegment(op.from, op.to) {
      var rows' := db.rows - Named(db.rows, op.sc, found, op.user, op.from, op.to);
      SettleSpares(db.(rows := rows'), op.sc, found, M);
    } else if AllShow(db.seats, op.sc, found, Locked) {
      EditSpares(db.seats, op.sc, found, ReleaseWhole, M, b);
    }
  }

  lemma {:induction false} ConfirmSpares(db: Db, op: L.Op, M: set<SeatKey>, b: BookingId)
    requires op.Confirm? && A.Respects(op, M)
    ensures KeepsSold(db.seats, L.Serve(db, op, 0).seats, M, b)
  {
    var found := Found(db.seats, op.sc, op.ids);
    if IsSegment(op.from, op.to) {
      var rows' := BookRows(db.rows, Named(db.rows, op.sc, found, op.user, op.from, op.to), op.booking);
      SettleSpares(db.(rows := rows'), op.sc, found, M);
    } else if AllShow(db.seats, op.sc, found, Locked) {
      EditSpares(db.seats, op.sc, found, BookWhole(op.booking), M, b);
    }
  }

  lemma {:induction false} CancelSpares(db: Db, sc: ScheduleId, booking: BookingId, M: set<SeatKey>, b: BookingId)
    requires A.RowsWithin(db.rows, M) && booking != b
    ensures KeepsSold(db.seats, CancelBooking(db, sc, booking).0.seats, M, b)
  {
    var affected := BookedSeatsOf(db.rows, sc, booking);
    if affected != {} {
      forall x | x in affected ensures SeatKey(sc, x) in M {
        var k :| k in db.rows && db.rows[k].sched == sc && k.seat == x;
        assert A.KeyOf(db.rows, k) in M;
      }
      SettleSpares(db.(rows := db.rows - Carrying(db.rows, sc, booking)), sc, affected, M);
    } else {
      EditSpares(db.seats, sc, BookedWhole(db.seats, sc, booking), Clear, M, b);
    }
  }

  /** Every request but its own cancellation leaves a sold seat sold. */
  lemma {:induction false} ServeSpares(db: Db, op: L.Op, until: int, M: set<SeatKey>, b: BookingId)
    requires L.SeatsOwned(db) && A.RowsWithin(db.rows, M) && A.Respects(op, M)
    requires op.CancelOf? ==> op.booking != b
    ensures KeepsSold(db.seats, L.Serve(db, op, until).seats, M, b)
  {
    match op
    case Lock(_, _, _, _, _) => LockSpares(db, op, until, M, b);
    case Unlock(_, _, _, _, _) => UnlockSpares(db, op, M, b);
    case Confirm(_, _, _, _, _, _) => ConfirmSpares(db, op, M, b);
    case CancelOf(sc, booking) => CancelSpares(db, sc, booking, M, b);
    case Create(_, _) =>
    case Close(_) =>
  }

  lemma {:induction false} ServeKeepsRowsWithin(db: Db, op: L.Op, until: int, M: set<SeatKey>)
    requires S.Sound(db) && A.RowsWithin(db.rows, M) && A.Respects(op, M)
    ensures A.RowsWithin(L.Serve(db, op, until).rows, M)
  {
    L.ServeRows(db, op, until);
  }

  /** A granted whole-journey confirmation sells every seat that it names. */
  lemma {:induction false} ConfirmSells(db: Db, sc: ScheduleId, ids: seq<SeatId>, user: UserId, b: BookingId,
      from: int, to: int)
    requires !IsSegment(from, to) && ConfirmSeats(db, sc, ids, user, b, from, to).1.Done?
    ensures forall x | x in ids :: SoldTo(ConfirmSeats(db, sc, ids, user, b, from, to).0.seats, SeatKey(sc, x), b)
  {
    C.FoundIsMembers(db.seats, sc, ids);
    forall x | x in ids ensures SoldTo(ConfirmSeats(db, sc, ids, user, b, from, to).0.seats, SeatKey(sc, x), b) {
      assert x in Members(ids);
    }
  }

  // ----- the machine -----

  /** A booking by segment asks for seats in `M` only, a whole-journey booking for none of them. */
  predicate ModeFits(bk: Booking, M: set<SeatKey>) {
    forall x | x in bk.seats :: SeatKey(bk.sched, x) in M <==> Segmented(bk)
  }

  /** What the seats in `M` ask of a step: each request is of its seats' mode, the job recomputes
      segment-managed seats only, and nobody but the saga cancels a booking of the saga. */
  predicate Orderly(s: Sys, e: Step, M: set<SeatKey>) {
    match e
    case Book(_, _, sc, seats, _, from, to, _) => forall x | x in seats :: SeatKey(sc, x) in M <==> IsSegment(from, to)
    case Inventory(op, _) => A.Respects(op, M) && (op.CancelOf? ==> op.booking !in s.bookings)
    case JobRecompute(sc, ids) => Inside(sc, ids, M)
    case _ => true
  }

  predicate OrderlyRun(s: Sys, es: seq<Step>, M: set<SeatKey>)
    decreases |es|
  {
    es != [] ==> Orderly(s, es[0], M) && OrderlyRun(Next(s, es[0]), es[1..], M)
  }

  /** CONFIRMED, or confirmed at the inventory with the last write still to come. */
  predicate HasPaid(s: Sys, b: BookingId)
    requires b in s.bookings
  {
    var bk := s.bookings[b];
    bk.status == Confirmed || (bk.status == Confirming && T.Stands(s, bk.claimer, b, Finishing))
  }

  predicate AllSold(seats: Seats, b: BookingId, bk: Booking) {
    forall x | x in bk.seats :: SoldTo(seats, SeatKey(bk.sched, x), b)
  }

  predicate WholeFits(s: Sys, b: BookingId)
    requires b in s.bookings
  {
    HasPaid(s, b) && !Segmented(s.bookings[b]) ==> AllSold(s.db.seats, b, s.bookings[b])
  }

  predicate WholeInv(s: Sys, M: set<SeatKey>) {
    && S.Sound(s.db) && A.RowsWithin(s.db.rows, M)
    && (forall b {:trigger ModeFits(s.bookings[b], M)} | b in s.bookings :: ModeFits(s.bookings[b], M))
    && (forall b {:trigger WholeFits(s, b)} | b in s.bookings :: WholeFits(s, b))
  }

  /** The tables may go on to `db`: nobody but `b` can lose a sold seat by it. */
  predicate Spares(s: Sys, db: Db, M: set<SeatKey>, b: BookingId) {
    && S.Sound(db) && A.RowsWithin(db.rows, M)
    && forall c | c in s.bookings && c != b :: KeepsSold(s.db.seats, db.seats, M, c)
  }

  lemma {:induction false} StaysSold(s: Sys, s': Sys, M: set<SeatKey>, b: BookingId)
    requires b in s.bookings && ModeFits(s.bookings[b], M) && WholeFits(s, b)
    requires b in s'.bookings && s'.bookings[b].seats == s.bookings[b].seats
    requires s'.bookings[b].sched == s.bookings[b].sched
    requires Segmented(s'.bookings[b]) <==> Segmented(s.bookings[b])
    requires KeepsSold(s.db.seats, s'.db.seats, M, b) && (HasPaid(s', b) ==> HasPaid(s, b))
    ensures WholeFits(s', b)
  {
  }

  /** The frame: a step of `p` on `b` that leaves `b` fitting. */
  lemma {:induction false} MoveKeepsWhole(s: Sys, s': Sys, p: ProcId, b: BookingId, M: set<SeatKey>)
    requires WholeInv(s, M) && OnlyMoves(s, s', p, b) && T.Stands(s', p, b, s'.procs[p].pc)
    requires Spares(s, s'.db, M, b)
    requires b in s'.bookings && ModeFits(s'.bookings[b], M) && WholeFits(s', b)
    ensures WholeInv(s', M)
  {
    forall c | c in s'.bookings ensures ModeFits(s'.bookings[c], M) && WholeFits(s', c) {
      if c != b {
        assert ModeFits(s.bookings[c], M) && WholeFits(s, c);
        StaysSold(s, s', M, c);
      }
    }
  }

  /** Processes move, but none comes to its last write. */
  lemma {:induction false} AsideKeepsWhole(s: Sys, s': Sys, M: set<SeatKey>)
    requires WholeInv(s, M) && s'.bookings == s.bookings && s'.db == s.db
    requires forall q | q in s'.procs && s'.procs[q].pc == Finishing :: q in s.procs && s'.procs[q] == s.procs[q]
    ensures WholeInv(s', M)
  {
    forall c | c in s'.bookings ensures ModeFits(s'.bookings[c], M) && WholeFits(s', c) {
      assert ModeFits(s.bookings[c], M) && WholeFits(s, c);
    }
  }

  /** The tables move under the saga. */
  lemma {:induction false} AroundKeepsWhole(s: Sys, s': Sys, M: set<SeatKey>)
    requires WholeInv(s, M) && s'.bookings == s.bookings && s'.procs == s.procs
    requires S.Sound(s'.db) && A.RowsWithin(s'.db.rows, M)
    requires forall c | c in s.bookings :: KeepsSold(s.db.seats, s'.db.seats, M, c)
    ensures WholeInv(s', M)
  {
    forall c | c in s'.bookings ensures ModeFits(s'.bookings[c], M) && WholeFits(s', c) {
      assert ModeFits(s.bookings[c], M) && WholeFits(s, c);
      StaysSold(s, s', M, c);
    }
  }

  /** A request about booking `b`, or about none. */
  lemma {:induction false} ServeIsSpare(s: Sys, op: L.Op, until: int, M: set<SeatKey>, b: BookingId)
    requires WholeInv(s, M) && A.Respects(op, M) && (op.CancelOf? ==> op.booking == b)
    ensures Spares(s, L.Serve(s.db, op, until), M, b)
  {
    S.ServeKeepsSound(s.db, op, until);
    ServeKeepsRowsWithin(s.db, op, until, M);
    forall c | c in s.bookings && c != b ensures KeepsSold(s.db.seats, L.Serve(s.db, op, until).seats, M, c) {
      ServeSpares(s.db, op, until, M, c);
    }
  }

  // ----- the saga's own steps -----

  lemma {:induction false} HoldKeepsWhole(s: Sys, p: ProcId, up: bool, until: int, M: set<SeatKey>)
    requires WholeInv(s, M) && Control(s)
    ensures WholeInv(HoldStep(s, p, up, until), M)
  {
    if At(s, p, Creation, Holding) {
      var b := s.procs[p].booking;
      var bk := s.bookings[b];
      assert ProcFits(s, p) && ModeFits(bk, M);
      var (db, reply) := Unless(up, s.db, LockSeats(s.db, bk.sched, bk.seats, bk.user, until, bk.from, bk.to));
      HoldShape(s, p, up, until, db, reply);
      ServeIsSpare(s, C.LockOf(bk), until, M, b);
      MoveKeepsWhole(s, HoldStep(s, p, up, until), p, b, M);
    }
  }

  lemma {:induction false} CallKeepsWhole(s: Sys, p: ProcId, up: bool, M: set<SeatKey>)
    requires WholeInv(s, M) && Control(s)
    ensures WholeInv(CallStep(s, p, up), M)
  {
    if At(s, p, Success, Calling) {
      var b := s.procs[p].booking;
      var bk := s.bookings[b];
      assert ProcFits(s, p) && ModeFits(bk, M);
      ServeIsSpare(s, C.ConfirmOf(b, bk), 0, M, b);
      if ConfirmSeats(s.db, bk.sched, bk.seats, bk.user, b, bk.from, bk.to).1.Done? && !Segmented(bk) {
        ConfirmSells(s.db, bk.sched, bk.seats, bk.user, b, bk.from, bk.to);
      }
      MoveKeepsWhole(s, CallStep(s, p, up), p, b, M);
    }
  }

  lemma {:induction false} UndoIsSpare(s: Sys, p: ProcId, up: bool, answer: Option<P.GatewayRefundId>, M: set<SeatKey>)
    requires WholeInv(s, M) && p in s.procs && s.procs[p].booking in s.bookings
    requires s.procs[p].pc.Undoing? && s.procs[p].pc.todo != []
    ensures Spares(s, UndoStep(s, p, up, answer).db, M, s.procs[p].booking)
  {
    var b := s.procs[p].booking;
    var bk := s.bookings[b];
    assert ModeFits(bk, M);
    UndoTables(s, p, up, answer);
    ServeIsSpare(s, C.UnlockOf(bk), 0, M, b);
    ServeIsSpare(s, L.CancelOf(bk.sched, b), 0, M, b);
  }

  lemma {:induction false} UndoKeepsWhole(s: Sys, p: ProcId, up: bool, answer: Option<P.GatewayRefundId>,
      M: set<SeatKey>)
    requires WholeInv(s, M) && Control(s)
    ensures WholeInv(UndoStep(s, p, up, answer), M)
  {
    if p in s.procs && s.procs[p].pc.Undoing? && s.procs[p].pc.todo != [] && s.procs[p].booking in s.bookings {
      var b := s.procs[p].booking;
      var bk := s.bookings[b];
      assert ProcFits(s, p) && BookingFits(s, b) && ModeFits(bk, M);
      UndoShape(s, p, up, answer);
      UndoIsSpare(s, p, up, answer, M);
      MoveKeepsWhole(s, UndoStep(s, p, up, answer), p, b, M);
    }
  }

  /** Steps that write the booking and leave the inventory alone. */
  lemma {:induction false} WriteKeepsWhole(s: Sys, s': Sys, p: ProcId, b: BookingId, M: set<SeatKey>)
    requires WholeInv(s, M) && OnlyMoves(s, s', p, b) && s'.db == s.db
    requires T.Stands(s', p, b, s'.procs[p].pc) && b in s'.bookings
    requires ModeFits(s'.bookings[b], M) && WholeFits(s', b)
    ensures WholeInv(s', M)
  {
    MoveKeepsWhole(s, s', p, b, M);
  }

  lemma {:induction false} BookKeepsWhole(s: Sys, e: Step, M: set<SeatKey>)
    requires WholeInv(s, M) && Control(s) && e.Book? && Orderly(s, e, M)
    ensures WholeInv(Next(s, e), M)
  {
    if Next(s, e) != s { WriteKeepsWhole(s, Next(s, e), e.p, e.b, M); }
  }

  lemma {:induction false} PayKeepsWhole(s: Sys, p: ProcId, up: bool, M: set<SeatKey>)
    requires WholeInv(s, M) && Control(s)
    ensures WholeInv(PayStep(s, p, up), M)
  {
    if At(s, p, Creation, Paying) {
      var b := s.procs[p].booking;
      assert ProcFits(s, p) && ModeFits(s.bookings[b], M);
      WriteKeepsWhole(s, PayStep(s, p, up), p, b, M);
    }
  }

  lemma {:induction false} AbandonKeepsWhole(s: Sys, p: ProcId, M: set<SeatKey>)
    requires WholeInv(s, M) && Control(s)
    ensures WholeInv(AbandonStep(s, p), M)
  {
    if AbandonStep(s, p) != s {
      var b := s.procs[p].booking;
      assert ProcFits(s, p) && BookingFits(s, b) && ModeFits(s.bookings[b], M);
      WriteKeepsWhole(s, AbandonStep(s, p), p, b, M);
    }
  }

  lemma {:induction false} ClaimKeepsWhole(s: Sys, p: ProcId, M: set<SeatKey>)
    requires WholeInv(s, M) && Control(s)
    ensures WholeInv(ClaimStep(s, p), M)
  {
    if ClaimStep(s, p) != s {
      var b := s.procs[p].booking;
      assert ProcFits(s, p) && BookingFits(s, b) && ModeFits(s.bookings[b], M) && WholeFits(s, b);
      WriteKeepsWhole(s, ClaimStep(s, p), p, b, M);
    }
  }

  lemma {:induction false} FinishKeepsWhole(s: Sys, p: ProcId, up: bool, M: set<SeatKey>)
    requires WholeInv(s, M) && Control(s)
    ensures WholeInv(FinishStep(s, p, up), M)
  {
    if At(s, p, Success, Finishing) {
      var b := s.procs[p].booking;
      assert ProcFits(s, p) && ModeFits(s.bookings[b], M) && WholeFits(s, b);
      WriteKeepsWhole(s, FinishStep(s, p, up), p, b, M);
    }
  }

  lemma {:induction false} FailKeepsWhole(s: Sys, p: ProcId, M: set<SeatKey>)
    requires WholeInv(s, M) && Control(s)
    ensures WholeInv(FailStep(s, p), M)
  {
    if FailStep(s, p) != s {
      var b := s.procs[p].booking;
      assert ProcFits(s, p) && BookingFits(s, b) && ModeFits(s.bookings[b], M);
      WriteKeepsWhole(s, FailStep(s, p), p, b, M);
    }
  }

  // ----- the world around -----

  lemma {:induction false} InventoryKeepsWhole(s: Sys, op: L.Op, ttl: nat, M: set<SeatKey>)
    requires WholeInv(s, M) && Orderly(s, Inventory(op, ttl), M)
    ensures WholeInv(Next(s, Inventory(op, ttl)), M)
  {
    if Foreign(s.db, op) {
      var until := L.Deadline(s.clock, ttl);
      S.ServeKeepsSound(s.db, op, until);
      ServeKeepsRowsWithin(s.db, op, until, M);
      forall c | c in s.bookings ensures KeepsSold(s.db.seats, L.Serve(s.db, op, until).seats, M, c) {
        ServeSpares(s.db, op, until, M, c);
      }
      AroundKeepsWhole(s, s.(db := L.Serve(s.db, op, until)), M);
    }
  }

  lemma {:induction false} RecomputeKeepsWhole(s: Sys, sc: ScheduleId, ids: set<SeatId>, M: set<SeatKey>)
    requires WholeInv(s, M) && Inside(sc, ids, M)
    ensures WholeInv(s.(db := Recompute(s.db, sc, ids)), M)
  {
    S.RelabelKeepsSound(s.db, Recompute(s.db, sc, ids).seats);
    forall k | k in s.db.seats && k !in M ensures !(k.sched == sc && k.seat in ids) {
      assert k == SeatKey(k.sched, k.seat);
    }
    AroundKeepsWhole(s, s.(db := Recompute(s.db, sc, ids)), M);
  }

  lemma {:induction false} FreeKeepsWhole(s: Sys, sc: ScheduleId, ids: set<SeatId>, M: set<SeatKey>)
    requires WholeInv(s, M)
    ensures WholeInv(s.(db := FreeSeats(s.db, sc, ids)), M)
  {
    S.RelabelKeepsSound(s.db, FreeSeats(s.db, sc, ids).seats);
    AroundKeepsWhole(s, s.(db := FreeSeats(s.db, sc, ids)), M);
  }

  lemma {:induction false} DropKeepsWhole(s: Sys, M: set<SeatKey>)
    requires WholeInv(s, M)
    ensures WholeInv(Next(s, JobDrop), M)
  {
    L.DropIsSafe(s.db, s.listed, s.db.schedules.Keys);
    AroundKeepsWhole(s, Next(s, JobDrop), M);
  }

  lemma {:induction false} RecountKeepsWhole(s: Sys, sc: ScheduleId, counts: Counts, M: set<SeatKey>)
    requires WholeInv(s, M)
    ensures WholeInv(s.(db := SetCounts(s.db, sc, counts)), M)
  {
    AroundKeepsWhole(s, s.(db := SetCounts(s.db, sc, counts)), M);
  }

  lemma {:induction false} WorldKeepsWhole(s: Sys, e: Step, M: set<SeatKey>)
    requires WholeInv(s, M) && Orderly(s, e, M)
    requires e.Inventory? || e.JobFind? || e.JobDrop? || e.JobRecompute?
             || e.JobFree? || e.JobRecount? || e.Gateway? || e.Tick?
    ensures WholeInv(Next(s, e), M)
  {
    match e
    case Inventory(op, ttl) => InventoryKeepsWhole(s, op, ttl, M);
    case JobDrop => DropKeepsWhole(s, M);
    case JobRecompute(sc, ids) => RecomputeKeepsWhole(s, sc, ids, M);
    case JobFree(sc, ids) => FreeKeepsWhole(s, sc, ids, M);
    case JobRecount(sc, counts) => RecountKeepsWhole(s, sc, counts, M);
    case _ => AsideKeepsWhole(s, Next(s, e), M);
  }

  /** Steps that move a process and write nothing here. */
  lemma {:induction false} SideKeepsWhole(s: Sys, e: Step, M: set<SeatKey>)
    requires WholeInv(s, M) && (e.Spawn? || e.Read? || e.Load? || e.Refund?)
    ensures WholeInv(Next(s, e), M)
  {
    AsideKeepsWhole(s, Next(s, e), M);
  }

  lemma {:induction false} CreationKeepsWhole(s: Sys, e: Step, M: set<SeatKey>)
    requires WholeInv(s, M) && Control(s) && Orderly(s, e, M)
    requires e.Book? || e.Hold? || e.Pay? || e.Abandon?
    ensures WholeInv(Next(s, e), M)
  {
    match e
    case Book(_, _, _, _, _, _, _, _) => BookKeepsWhole(s, e, M);
    case Hold(p, up, ttl) => HoldKeepsWhole(s, p, up, L.Deadline(s.clock, ttl), M);
    case Pay(p, up) => PayKeepsWhole(s, p, up, M);
    case Abandon(p) => AbandonKeepsWhole(s, p, M);
  }

  lemma {:induction false} ContenderKeepsWhole(s: Sys, e: Step, M: set<SeatKey>)
    requires WholeInv(s, M) && Control(s) && Orderly(s, e, M)
    requires e.Spawn? || e.Read? || e.Claim?
    ensures WholeInv(Next(s, e), M)
  {
    match e
    case Spawn(_, _, _) => SideKeepsWhole(s, e, M);
    case Read(_) => SideKeepsWhole(s, e, M);
    case Claim(p) => ClaimKeepsWhole(s, p, M);
  }

  lemma {:induction false} ClaimedKeepsWhole(s: Sys, e: Step, M: set<SeatKey>)
    requires WholeInv(s, M) && Control(s) && Orderly(s, e, M)
    requires e.Call? || e.Finish? || e.Load? || e.Undo? || e.Fail? || e.Refund?
    ensures WholeInv(Next(s, e), M)
  {
    match e
    case Call(p, up) => CallKeepsWhole(s, p, up, M);
    case Finish(p, up) => FinishKeepsWhole(s, p, up, M);
    case Load(_) => SideKeepsWhole(s, e, M);
    case Undo(p, up, answer) => UndoKeepsWhole(s, p, up, answer, M);
    case Fail(p) => FailKeepsWhole(s, p, M);
    case Refund(_, _, _) => SideKeepsWhole(s, e, M);
  }

  lemma {:induction false} NextKeepsWhole(s: Sys, e: Step, M: set<SeatKey>)
    requires WholeInv(s, M) && Control(s) && Orderly(s, e, M)
    ensures WholeInv(Next(s, e), M)
  {
    if e.Book? || e.Hold? || e.Pay? || e.Abandon? {
      CreationKeepsWhole(s, e, M);
    } else if e.Spawn? || e.Read? || e.Claim? {
      ContenderKeepsWhole(s, e, M);
    } else if e.Call? || e.Finish? || e.Load? || e.Undo? || e.Fail? || e.Refund? {
      ClaimedKeepsWhole(s, e, M);
    } else {
      WorldKeepsWhole(s, e, M);
    }
  }

  // ----- runs -----

  lemma {:induction false} RunKeepsWhole(s: Sys, es: seq<Step>, M: set<SeatKey>)
    requires WholeInv(s, M) && Control(s) && OrderlyRun(s, es, M)
    ensures WholeInv(Run(s, es), M)
    decreases |es|
  {
    if es != [] {
      NextKeepsWhole(s, es[0], M);
      NextKeepsControl(s, es[0]);
      RunKeepsWhole(Next(s, es[0]), es[1..], M);
    }
  }

  /** A CONFIRMED whole-journey booking has all its seats, in every run of fixed modes: with crashes
      and failed calls anywhere, and confirmations in time or late. */
  lemma {:induction false} WholeHasItsSeats(es: seq<Step>, M: set<SeatKey>, b: BookingId, seat: SeatId)
    requires OrderlyRun(START, es, M) && b in Run(START, es).bookings
    requires var bk := Run(START, es).bookings[b]; bk.status == Confirmed && !Segmented(bk) && seat in bk.seats
    ensures var s := Run(START, es); SoldTo(s.db.seats, SeatKey(s.bookings[b].sched, seat), b)
  {
    RunKeepsWhole(START, es, M);
    assert WholeFits(Run(START, es), b);
  }

  /** Booking `b` is a confirmed ticket, by segment or for the whole journey, that takes this leg of
      this seat. */
  predicate Rides(s: Sys, b: BookingId, sc: ScheduleId, seat: SeatId, leg: int) {
    && b in s.bookings && s.bookings[b].status == Confirmed && s.bookings[b].sched == sc && seat in s.bookings[b].seats
    && (Segmented(s.bookings[b]) ==> L.Within(s.bookings[b].from, s.bookings[b].to, leg))
  }

  /** No seat is sold twice: in every fair run of fixed modes no two confirmed tickets of any kind
      share a leg of a seat. */
  lemma {:induction false} NoSeatIsSoldTwice(es: seq<Step>, M: set<SeatKey>, a: BookingId, b: BookingId,
      sc: ScheduleId, seat: SeatId, leg: int)
    requires FairRun(START, es) && OrderlyRun(START, es, M)
    requires Rides(Run(START, es), a, sc, seat, leg) && Rides(Run(START, es), b, sc, seat, leg)
    ensures a == b
  {
    var s := Run(START, es);
    RunKeepsWhole(START, es, M);
    assert ModeFits(s.bookings[a], M) && ModeFits(s.bookings[b], M);
    if Segmented(s.bookings[a]) {
      T.NoDoubleSale(es, a, b, sc, seat, leg);
    } else {
      WholeHasItsSeats(es, M, a, seat);
      WholeHasItsSeats(es, M, b, seat);
    }
  }
}
