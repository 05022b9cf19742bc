/** The inventory service as it works: an object that changes its tables statement by
    statement. Each transaction is proved to compute the value that Ledger.dfy gives it, so
    every result about the ledger is a result about these methods. */
module Inventory {
  import opened Ledger
  import opened LedgerRuns
  import opened Requests

  const LOCK_TTL_SECONDS := 300

  /** The lock's lifetime: what the caller asks for, 0 for nothing, kept between one and ten minutes. */
  function Ttl(requested: int): (ttl: nat)
    ensures 60 <= ttl <= 600
    ensures 60 <= requested <= 600 ==> ttl == requested
    ensures requested == 0 ==> ttl == 300
    ensures requested != 0 && requested < 60 ==> ttl == 60
    ensures requested > 600 ==> ttl == 600
  {
    var wanted := if requested == 0 then LOCK_TTL_SECONDS else requested;
    var least := if wanted < 60 then 60 else wanted;
    if least > 600 then 600 else least
  }

  /** What recomputeSegmentSeatStatuses reports about the seats that it changed. */
  datatype StatusChanges = StatusChanges(nowAvailable: nat, nowOccupied: nat, lockedToBooked: nat, bookedToLocked: nat)

  function One(b: bool): nat {
    if b then 1 else 0
  }

  function Tally(c: StatusChanges, before: Status, after: Status): StatusChanges {
    StatusChanges(
      c.nowAvailable + One(before != Available && after == Available),
      c.nowOccupied + One(before == Available && after != Available),
      c.lockedToBooked + One(before == Locked && after == Booked),
      c.bookedToLocked + One(before == Booked && after == Locked))
  }

  lemma {:induction false} OneSeatCounts(seats: Seats, key: SeatKey, seat: Seat, status: Status)
    requires key in seats
    ensures |Showing(seats[key := seat], key.sched, status)|
         == |Showing(seats, key.sched, status)| + One(seat.status == status) - One(seats[key].status == status)
  {
    var before, after := Showing(seats, key.sched, status), Showing(seats[key := seat], key.sched, status);
    if seat.status == status && seats[key].status != status {
      assert after == before + {key};
    } else if seat.status != status && seats[key].status == status {
      assert after == before - {key};
    } else {
      assert after == before;
    }
  }

  /** Recomputing one more seat. */
  lemma {:induction false} RecomputeOneMore(db: Db, sc: ScheduleId, S: set<SeatId>, seat: SeatId)
    requires SeatKey(sc, seat) in db.seats
    ensures var key := SeatKey(sc, seat);
            var mid := Recompute(db, sc, S).seats;
            Recompute(db, sc, S + {seat}).seats == mid[key := Recomputed(mid[key], Summary(db.rows, sc, seat))]
  {
  }

  lemma {:induction false} RecomputeNone(db: Db, sc: ScheduleId)
    ensures Recompute(db, sc, {}).seats == db.seats
  {
  }

  class SeatInventory {
    var schedules: map<ScheduleId, Schedule>
    var seats: Seats
    var rows: Rows
    var events: set<EventKey>
    var nextHold: nat

    /** The schedules whose counters a failed recount of the expiry job has left behind. */
    ghost var dirty: set<ScheduleId>

    /** The tables as one value. */
    ghost function State(): Db
      reads this
    {
      Db(schedules, seats, rows, events, nextHold)
    }

    ghost predicate Valid()
      reads this
    {
      Safe(State(), dirty)
    }

    constructor ()
      ensures State() == EMPTY && Valid() && dirty == {}
    {
      schedules, seats, rows, events, nextHold, dirty := map[], map[], map[], {}, 0, {};
    }

    // ----- helpers of the segment transactions -----

    /** The status that the active rows of a seat add up to. */
    method SummaryOf(sc: ScheduleId, seat: SeatId) returns (status: Status)
      ensures status == Summary(rows, sc, seat)
    {
      var locks := set k | k in rows && IsFor(rows, k, sc, seat);
      if |locks| == 0 {
        assert forall k | k in rows && IsFor(rows, k, sc, seat) :: k in locks;
        status := Available;
      } else if exists k :: k in locks && rows[k].status == Locked {
        status := Locked;
      } else {
        var k :| k in locks;
        assert IsFor(rows, k, sc, seat);
        assert forall l | l in rows && IsFor(rows, l, sc, seat) :: l in locks;
        status := Booked;
      }
    }

    /** Seats are summarised one after the other; the tally says by how many the number of
        available seats has changed. */
    method RecomputeSegmentSeatStatuses(sc: ScheduleId, ids: set<SeatId>) returns (changes: StatusChanges)
      requires forall s | s in ids :: SeatKey(sc, s) in seats
      modifies this`seats
      ensures seats == Recompute(old(State()), sc, ids).seats
      ensures CountSeats(seats, sc).available
           == old(CountSeats(seats, sc).available) + changes.nowAvailable - changes.nowOccupied
    {
      changes := StatusChanges(0, 0, 0, 0);
      var todo := ids;
      ghost var before := State();
      ghost var done: set<SeatId> := {};
      RecomputeNone(before, sc);
      while todo != {}
        invariant done + todo == ids && State() == before.(seats := seats)
        invariant seats == Recompute(before, sc, done).seats
        invariant |Showing(seats, sc, Available)|
               == |Showing(before.seats, sc, Available)| + changes.nowAvailable - changes.nowOccupied
        decreases |todo|
      {
        var seat :| seat in todo;
        RecomputeOneMore(before, sc, done, seat);
        changes := RecomputeSeat(sc, seat, changes);
        todo, done := todo - {seat}, done + {seat};
      }
    }

    method RecomputeSeat(sc: ScheduleId, seat: SeatId, changes: StatusChanges) returns (changes': StatusChanges)
      requires SeatKey(sc, seat) in seats
      modifies this`seats
      ensures var key := SeatKey(sc, seat);
              seats == old(seats)[key := Recomputed(old(seats[key]), Summary(rows, sc, seat))]
      ensures |Showing(seats, sc, Available)| - changes'.nowAvailable + changes'.nowOccupied
           == old(|Showing(seats, sc, Available)|) - changes.nowAvailable + changes.nowOccupied
    {
      var key := SeatKey(sc, seat);
      var newStatus := SummaryOf(sc, seat);
      var oldStatus := seats[key].status;
      if oldStatus == newStatus { return changes; }
      OneSeatCounts(seats, key, Recomputed(seats[key], newStatus), Available);
      changes' := Tally(changes, oldStatus, newStatus);
      seats := seats[key := Recomputed(seats[key], newStatus)];
    }

    method RecountScheduleAggregates(sc: ScheduleId) returns (counts: Counts)
      requires sc in schedules
      modifies this`schedules
      ensures counts == CountSeats(seats, sc)
      ensures schedules == old(schedules)[sc := old(schedules[sc]).(counts := counts)]
    {
      counts := Counts(|Showing(seats, sc, Available)|, |Showing(seats, sc, Locked)|, |Showing(seats, sc, Booked)|);
      schedules := schedules[sc := schedules[sc].(counts := counts)];
    }

    /** The last statements of every segment transaction. */
    method Settle(sc: ScheduleId, affected: set<SeatId>) returns (reply: Reply)
      requires sc in schedules && forall s | s in affected :: SeatKey(sc, s) in seats
      modifies this`seats, this`schedules
      ensures (State(), reply) == Ledger.Settle(old(State()), sc, affected)
    {
      var _ := RecomputeSegmentSeatStatuses(sc, affected);
      var counts := RecountScheduleAggregates(sc);
      reply := Done(affected, counts);
    }

    /** The last statements of every full-journey transaction: the counters by arithmetic. */
    method Shift(sc: ScheduleId, affected: set<SeatId>, e: Edit, a: Status, b: Status) returns (reply: Reply)
      requires sc in schedules
      modifies this`seats, this`schedules
      ensures (State(), reply) == Ledger.Shift(old(State()), sc, affected, e, a, b)
    {
      seats := EditSeats(seats, sc, affected, e);
      var counts := Moved(schedules[sc].counts, |affected|, a, b);
      schedules := schedules[sc := schedules[sc].(counts := counts)];
      reply := Done(affected, counts);
    }

    // ----- the transactions -----

    /** lockSeats at time `now`: all seats or none, for a segment or for the whole journey. */
    method LockSeats(sc: ScheduleId, ids: seq<SeatId>, user: UserId, now: int, ttlSeconds: int, from: int, to: int)
      returns (reply: Reply)
      requires Valid()
      modifies this
      ensures (State(), reply) ==
        Ledger.LockSeats(old(State()), sc, ids, user, Deadline(now, Ttl(ttlSeconds)), from, to)
      ensures Valid() && dirty == old(dirty)
    {
      var expires := Deadline(now, Ttl(ttlSeconds));
      LockIsSafe(State(), sc, ids, user, expires, from, to, dirty);
      if ids == [] { return Refused(BadRequest); }
      if sc !in schedules { return Refused(NotFound); }
      if !schedules[sc].active { return Refused(BadRequest); }
      var found := Found(seats, sc, ids);
      if |found| != |ids| { return Refused(NotFound); }
      if IsSegment(from, to) {
        reply := LockSegment(sc, found, user, expires, from, to);
      } else if AllShow(seats, sc, found, Available) {
        reply := Shift(sc, found, TakeWhole(user, expires), Available, Locked);
      } else {
        reply := Refused(Conflict);
      }
    }

    method LockSegment(sc: ScheduleId, found: set<SeatId>, user: UserId, expires: int, from: int, to: int)
      returns (reply: Reply)
      requires sc in schedules && forall s | s in found :: SeatKey(sc, s) in seats
      modifies this
      ensures dirty == old(dirty)
      ensures (State(), reply) == Ledger.LockSegment(old(State()), sc, found, user, expires, from, to)
    {
      if Blocked(rows, sc, found, from, to) { return Refused(Conflict); }
      var row := SegRow(sc, from, to, Locked, user, Some(expires), None);
      CreateRows(found, row);
      seats := EditSeats(seats, sc, found, Stamp(user, expires));
      nextHold := nextHold + 1;
      assert State() == Inserted(old(State()), sc, found, row, expires);
      reply := Settle(sc, found);
    }

    /** One row is inserted per seat. */
    method CreateRows(found: set<SeatId>, row: SegRow)
      modifies this`rows
      ensures rows == old(rows) + NewRows(nextHold, found, row)
    {
      var todo := found;
      while todo != {}
        invariant todo <= found
        invariant rows == old(rows) + NewRows(nextHold, found - todo, row)
        decreases |todo|
      {
        var seat :| seat in todo;
        rows := rows[RowId(nextHold, seat) := row];
        todo := todo - {seat};
      }
    }

    method UnlockSeats(sc: ScheduleId, ids: seq<SeatId>, user: UserId, from: int, to: int) returns (reply: Reply)
      requires Valid()
      modifies this
      ensures (State(), reply) == Ledger.UnlockSeats(old(State()), sc, ids, user, from, to)
      ensures Valid() && dirty == old(dirty)
    {
      UnlockIsSafe(State(), sc, ids, user, from, to, dirty);
      FoundHasSchedule(State(), sc, ids);
      if ids == [] { return Refused(BadRequest); }
      var found := Found(seats, sc, ids);
      if |found| != |ids| { return Refused(NotFound); }
      if IsSegment(from, to) {
        reply := UnlockSegment(sc, found, user, from, to);
      } else if !AllShow(seats, sc, found, Locked) {
        reply := Refused(Conflict);
      } else if !AllHeldBy(seats, sc, found, user) {
        reply := Refused(Forbidden);
      } else {
        reply := Shift(sc, found, ReleaseWhole, Locked, Available);
      }
    }

    method UnlockSegment(sc: ScheduleId, found: set<SeatId>, user: UserId, from: int, to: int) returns (reply: Reply)
      requires sc in schedules && forall s | s in found :: SeatKey(sc, s) in seats
      modifies this
      ensures dirty == old(dirty)
      ensures (State(), reply) == Ledger.UnlockSegment(old(State()), sc, found, user, from, to)
    {
      reply := ReleaseRows(sc, Named(rows, sc, found, user, from, to), found);
    }

    /** confirmSeats: on the segment path it only checks that some row was updated. */
    method ConfirmSeats(sc: ScheduleId, ids: seq<SeatId>, user: UserId, booking: BookingId, from: int, to: int)
      returns (reply: Reply)
      requires Valid()
      modifies this
      ensures (State(), reply) == Ledger.ConfirmSeats(old(State()), sc, ids, user, booking, from, to)
      ensures Valid() && dirty == old(dirty)
    {
      ConfirmIsSafe(State(), sc, ids, user, booking, from, to, dirty);
      FoundHasSchedule(State(), sc, ids);
      if ids == [] { return Refused(BadRequest); }
      var found := Found(seats, sc, ids);
      if |found| != |ids| { return Refused(NotFound); }
      if IsSegment(from, to) {
        reply := ConfirmSegment(sc, found, user, booking, from, to);
      } else if !AllShow(seats, sc, found, Locked) {
        reply := Refused(Conflict);
      } else if !AllHeldBy(seats, sc, found, user) {
        reply := Refused(Forbidden);
      } else {
        reply := Shift(sc, found, BookWhole(booking), Locked, Booked);
      }
    }

    method ConfirmSegment(sc: ScheduleId, found: set<SeatId>, user: UserId, booking: BookingId, from: int, to: int)
      returns (reply: Reply)
      requires sc in schedules && forall s | s in found :: SeatKey(sc, s) in seats
      modifies this
      ensures dirty == old(dirty)
      ensures (State(), reply) == Ledger.ConfirmSegment(old(State()), sc, found, user, booking, from, to)
    {
      var updated := Named(rows, sc, found, user, from, to);
      if |updated| == 0 { return Refused(Conflict); }
      rows := BookRows(rows, updated, booking);
      reply := Settle(sc, found);
    }

    /** cancelBooking: the segment rows of the booking first, its whole-journey seats otherwise. */
    method CancelBooking(sc: ScheduleId, booking: BookingId) returns (reply: Reply)
      requires Valid()
      modifies this
      ensures (State(), reply) == Ledger.CancelBooking(old(State()), sc, booking)
      ensures Valid() && dirty == old(dirty)
    {
      CancelIsSafe(State(), sc, booking, dirty);
      CancelledHaveSchedule(State(), sc, booking);
      var affected := BookedSeatsOf(rows, sc, booking);
      if |affected| > 0 {
        reply := ReleaseRows(sc, Carrying(rows, sc, booking), affected);
        return;
      }
      var found := BookedWhole(seats, sc, booking);
      if |found| == 0 { return Refused(NotFound); }
      reply := Shift(sc, found, Clear, Booked, Available);
    }

    method ReleaseRows(sc: ScheduleId, gone: set<RowId>, affected: set<SeatId>) returns (reply: Reply)
      requires sc in schedules && forall s | s in affected :: SeatKey(sc, s) in seats
      modifies this
      ensures dirty == old(dirty)
      ensures (State(), reply) == Ledger.Settle(old(State()).(rows := old(rows) - gone), sc, affected)
    {
      rows := rows - gone;
      reply := Settle(sc, affected);
    }

    method InitializeInventory(sc: ScheduleId, ids: seq<SeatId>)
      requires Valid()
      modifies this
      ensures State() == Ledger.InitializeInventory(old(State()), sc, ids)
      ensures Valid() && dirty == old(dirty)
    {
      CreateIsSafe(State(), sc, ids, dirty);
      if |ids| == 0 { return; }
      if ScheduleCreated(sc) in events { return; }
      // a broken unique index rolls the transaction back
      if sc in schedules || |Members(ids)| != |ids| { return; }
      schedules := schedules[sc := Schedule(true, |ids|, Counts(|ids|, 0, 0))];
      seats := seats + FreshSeats(sc, ids);
      events := events + {ScheduleCreated(sc)};
    }

    method CancelScheduleInventory(sc: ScheduleId)
      requires Valid()
      modifies this
      ensures State() == Ledger.CancelSchedule(old(State()), sc)
      ensures Valid() && dirty == old(dirty)
    {
      CloseIsSafe(State(), sc, dirty);
      if ScheduleCancelled(sc) in events { return; }
      if sc !in schedules { return; }
      schedules := schedules[sc := schedules[sc].(active := false, counts := Counts(0, 0, 0))];
      seats := map k | k in seats :: if k.sched == sc then seats[k].(status := Cancelled) else seats[k];
      events := events + {ScheduleCancelled(sc)};
    }

    /** getSeats with a segment: the seats of the schedule and their segmentStatus marks. A mark says
        AVAILABLE where every leg is free and the seat is not LOCKED or BOOKED without any row. */
    method GetSeats(sc: ScheduleId, from: int, to: int) returns (marks: Option<map<SeatId, bool>>)
      ensures marks.None? <==> sc !in schedules
      ensures marks.Some? ==>
        && (forall s :: s in marks.value <==> SeatKey(sc, s) in seats)
        && (forall s | s in marks.value :: marks.value[s] <==> MarkedAvailable(State(), sc, s, from, to))
      ensures marks.Some? && ProperRows(State()) && from < to ==>
        forall s | s in marks.value :: marks.value[s] <==> OpenForSegment(State(), sc, s, from, to)
    {
      if sc !in schedules { return None; }
      var blocked := set k | k in rows && rows[k].sched == sc && Active(rows[k])
                             && rows[k].from < to && rows[k].to > from :: k.seat;
      var withLocks := set k | k in rows && rows[k].sched == sc && Active(rows[k]) :: k.seat;
      var ids := set k | k in seats && k.sched == sc :: k.seat;
      forall s | s in ids ensures SeatKey(sc, s) in seats {
        var k :| k in seats && k.sched == sc && k.seat == s;
        assert k == SeatKey(sc, s);
      }
      forall s | SeatKey(sc, s) in seats ensures s in ids { assert SeatKey(sc, s).sched == sc; }
      forall s ensures s in blocked <==> Blocked(rows, sc, {s}, from, to) {
        if s in blocked {
          var k :| k in rows && rows[k].sched == sc && Active(rows[k]) && rows[k].from < to
            && rows[k].to > from && k.seat == s;
          assert k.seat in {s} && IsFor(rows, k, sc, k.seat) && Overlap(rows[k].from, rows[k].to, from, to);
        }
      }
      forall s ensures s in withLocks <==> exists k :: k in rows && IsFor(rows, k, sc, s) {
        if s in withLocks {
          var k :| k in rows && rows[k].sched == sc && Active(rows[k]) && k.seat == s;
          assert IsFor(rows, k, sc, s);
        }
      }
      var found := map s | s in ids ::
        if s in blocked then false
        else if (seats[SeatKey(sc, s)].status == Booked || seats[SeatKey(sc, s)].status == Locked)
            && s !in withLocks then false
        else true;
      marks := Some(found);
      MarksAreLegs(State(), sc, from, to);
    }
  }

  lemma {:induction false} MarksAreLegs(db: Db, sc: ScheduleId, from: int, to: int)
    ensures ProperRows(db) && from < to ==>
      forall s | SeatKey(sc, s) in db.seats ::
        MarkedAvailable(db, sc, s, from, to) <==> OpenForSegment(db, sc, s, from, to)
  {
    forall s | ProperRows(db) && from < to && SeatKey(sc, s) in db.seats
      ensures MarkedAvailable(db, sc, s, from, to) <==> OpenForSegment(db, sc, s, from, to) {
      MarkedIff(db, sc, s, from, to);
    }
  }

  lemma {:induction false} CancelledHaveSchedule(db: Db, sc: ScheduleId, booking: BookingId)
    requires SeatsOwned(db) && RowsOwned(db)
    ensures BookedSeatsOf(db.rows, sc, booking) != {} || BookedWhole(db.seats, sc, booking) != {} ==> sc in db.schedules
    ensures forall s | s in BookedSeatsOf(db.rows, sc, booking) :: SeatKey(sc, s) in db.seats
  {
  }
}
