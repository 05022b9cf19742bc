/** What getSeats promises about lockSeats, and what a redelivered event does. */
module Queries {
  import opened Ledger
  import opened LedgerRuns
  import opened LedgerAgreement
  import Requests

  /** A duplicate-free list of seats of an active schedule. */
  predicate Requestable(db: Db, sc: ScheduleId, ids: seq<SeatId>) {
    && ids != [] && sc in db.schedules && db.schedules[sc].active
    && (forall i, j | 0 <= i < j < |ids| :: ids[i] != ids[j])
    && (forall s | s in ids :: SeatKey(sc, s) in db.seats)
  }

  lemma {:induction false} DistinctSize(ids: seq<SeatId>)
    requires forall i, j | 0 <= i < j < |ids| :: ids[i] != ids[j]
    ensures |Members(ids)| == |ids|
  {
    if ids != [] {
      var rest := ids[..|ids| - 1];
      DistinctSize(rest);
      assert Members(ids) == Members(rest) + {ids[|ids| - 1]};
      assert ids[|ids| - 1] !in rest;
    }
  }

  lemma {:induction false} AllAreFound(db: Db, sc: ScheduleId, ids: seq<SeatId>)
    requires Requestable(db, sc, ids)
    ensures |Found(db.seats, sc, ids)| == |ids| && Found(db.seats, sc, ids) == Members(ids)
  {
    DistinctSize(ids);
    assert Found(db.seats, sc, ids) == Members(ids);
  }

  lemma {:induction false} TakenUnlessBlocked(db: Db, sc: ScheduleId, ids: seq<SeatId>, user: UserId, expires: int,
      from: int, to: int)
    requires Requestable(db, sc, ids) && IsSegment(from, to)
    ensures LockSeats(db, sc, ids, user, expires, from, to).1.Done?
       <==> forall s | s in ids :: !Blocked(db.rows, sc, {s}, from, to)
  {
    AllAreFound(db, sc, ids);
    var S := Members(ids);
    if Blocked(db.rows, sc, S, from, to) {
      var k :| k in db.rows && k.seat in S && IsFor(db.rows, k, sc, k.seat)
        && Overlap(db.rows[k].from, db.rows[k].to, from, to);
      assert k.seat in {k.seat} && Blocked(db.rows, sc, {k.seat}, from, to);
    }
    forall s | s in ids && Blocked(db.rows, sc, {s}, from, to) ensures Blocked(db.rows, sc, S, from, to) {
      var k :| k in db.rows && k.seat in {s} && IsFor(db.rows, k, sc, k.seat)
        && Overlap(db.rows[k].from, db.rows[k].to, from, to);
      assert k.seat in S;
    }
  }

  /** lockSeats takes a list for a segment exactly when it would take each seat of it alone. */
  lemma {:induction false} LockTakesIff(db: Db, sc: ScheduleId, ids: seq<SeatId>, user: UserId, expires: int,
      from: int, to: int)
    requires Requestable(db, sc, ids) && IsSegment(from, to)
    ensures LockSeats(db, sc, ids, user, expires, from, to).1.Done?
       <==> forall s | s in ids :: LockSeats(db, sc, [s], user, expires, from, to).1.Done?
  {
    TakenUnlessBlocked(db, sc, ids, user, expires, from, to);
    forall s | s in ids
      ensures LockSeats(db, sc, [s], user, expires, from, to).1.Done? <==> !Blocked(db.rows, sc, {s}, from, to) {
      TakenUnlessBlocked(db, sc, [s], user, expires, from, to);
      assert s in [s];
    }
  }

  /** Query soundness with a segment: a list of seats all marked AVAILABLE can be locked; for
      seats that show what their rows say, exactly such lists can. Both are about legs: the lock asks
      for every leg to be free, the mark also for the seat not to be taken whole. */
  lemma {:induction false} MarkedCanBeLocked(db: Db, sc: ScheduleId, ids: seq<SeatId>, user: UserId, expires: int,
      from: int, to: int)
    requires Requestable(db, sc, ids) && IsSegment(from, to)
    ensures (forall s | s in ids :: MarkedAvailable(db, sc, s, from, to))
        ==> LockSeats(db, sc, ids, user, expires, from, to).1.Done?
    ensures (forall s | s in ids :: SeatAgrees(db, SeatKey(sc, s)))
        ==> (LockSeats(db, sc, ids, user, expires, from, to).1.Done?
        <==> forall s | s in ids :: MarkedAvailable(db, sc, s, from, to))
    ensures Requests.ProperRows(db) && from < to ==>
      && (LockSeats(db, sc, ids, user, expires, from, to).1.Done?
          <==> forall s | s in ids :: Requests.LegsFree(db, sc, s, from, to))
      && forall s | s in ids :: MarkedAvailable(db, sc, s, from, to) <==> Requests.OpenForSegment(db, sc, s, from, to)
  {
    TakenUnlessBlocked(db, sc, ids, user, expires, from, to);
    if Requests.ProperRows(db) && from < to {
      Requests.LockIsGrantedIff(db, sc, ids, user, expires, from, to);
      forall s | s in ids
        ensures MarkedAvailable(db, sc, s, from, to) <==> Requests.OpenForSegment(db, sc, s, from, to) {
        Requests.MarkedIff(db, sc, s, from, to);
      }
    }
    forall s | s in ids && SeatAgrees(db, SeatKey(sc, s)) && !Blocked(db.rows, sc, {s}, from, to)
      ensures MarkedAvailable(db, sc, s, from, to) {}
  }

  /** Query soundness without a segment: status AVAILABLE is exactly what the full-journey lock asks. */
  lemma {:induction false} ShownFreeCanBeLocked(db: Db, sc: ScheduleId, ids: seq<SeatId>, user: UserId, expires: int)
    requires Requestable(db, sc, ids)
    ensures LockSeats(db, sc, ids, user, expires, 0, 0).1.Done?
       <==> forall s | s in ids :: db.seats[SeatKey(sc, s)].status == Available
  {
    AllAreFound(db, sc, ids);
  }

  /** The modes do not see each other: a seat sold for the whole journey, without a row, is
      marked UNAVAILABLE for every segment, and yet lockSeats takes every segment of it. */
  lemma {:induction false} WholeJourneySeatIsLockable(db: Db, sc: ScheduleId, seat: SeatId, user: UserId,
      expires: int, from: int, to: int)
    requires Requestable(db, sc, [seat]) && IsSegment(from, to)
    requires db.seats[SeatKey(sc, seat)].status == Booked
    requires forall k | k in db.rows :: k.seat != seat || db.rows[k].sched != sc
    ensures !MarkedAvailable(db, sc, seat, from, to)
    ensures LockSeats(db, sc, [seat], user, expires, from, to).1.Done?
  {
    TakenUnlessBlocked(db, sc, [seat], user, expires, from, to);
  }

  // ----- redelivery -----

  predicate Redelivers(e: Event, key: EventKey) {
    && e.Request?
    && match key {
         case ScheduleCreated(sc) => e.op.Create? && e.op.sc == sc
         case ScheduleCancelled(sc) => e.op.Close? && e.op.sc == sc
       }
  }

  function WithoutRedeliveries(es: seq<Event>, key: EventKey): seq<Event> {
    if es == [] then []
    else (if Redelivers(es[0], key) then [] else [es[0]]) + WithoutRedeliveries(es[1..], key)
  }

  lemma {:induction false} EventsAreKept(w: World, e: Event, ttl: nat)
    ensures w.db.events <= Next(w, e, ttl).db.events
  {
  }

  /** Once a schedule event has been handled, any number of redeliveries anywhere in the run,
      with whatever seats in the message, leaves every later state as it would be without. */
  lemma {:induction false} RedeliveriesChangeNothing(w: World, es: seq<Event>, key: EventKey, ttl: nat)
    requires key in w.db.events
    ensures Run(w, es, ttl) == Run(w, WithoutRedeliveries(es, key), ttl)
    decreases |es|
  {
    if es != [] {
      var w1 := Next(w, es[0], ttl);
      var rest := WithoutRedeliveries(es[1..], key);
      EventsAreKept(w, es[0], ttl);
      RedeliveriesChangeNothing(w1, es[1..], key, ttl);
      if Redelivers(es[0], key) {
        assert w1 == w;
        assert WithoutRedeliveries(es, key) == rest;
      } else {
        assert ([es[0]] + rest)[1..] == rest;
      }
    }
  }

  /** The first delivery of SCHEDULE_CREATED that is well formed is handled. */
  lemma {:induction false} FirstDeliveryIsHandled(w: World, sc: ScheduleId, ids: seq<SeatId>, ttl: nat)
    requires sc !in w.db.schedules && ids != [] && |Members(ids)| == |ids|
    ensures var w' := Next(w, Request(Create(sc, ids)), ttl);
            ScheduleCreated(sc) in w'.db.events
            && (ScheduleCreated(sc) !in w.db.events ==>
                 forall s | s in ids :: SeatKey(sc, s) in w'.db.seats && w'.db.seats[SeatKey(sc, s)] == FREE)
  {
    forall s | s in ids ensures SeatKey(sc, s) in FreshSeats(sc, ids) {}
  }
}
