/** The lock-expiry job as it works on the inventory's tables, its two phases one statement
    after the other. Every execution is proved to be a run of the machine of LedgerRuns.dfy, so
    the results about the job's steps, with requests between them, are about this code. */
module LockExpiry {
  import opened Ledger
  import opened LedgerRuns
  import opened Inventory
  import Requests

  lemma {:induction false} RunAppend(w: World, es: seq<Event>, e: Event, ttl: nat)
    ensures Run(w, es + [e], ttl) == Next(Run(w, es, ttl), e, ttl)
    decreases |es|
  {
    if es == [] {
      assert Run(w, [e], ttl) == Run(Next(w, e, ttl), [], ttl) by { assert [e][1..] == []; }
      assert es + [e] == [e];
    } else {
      assert (es + [e])[1..] == es[1..] + [e];
      RunAppend(Next(w, es[0], ttl), es[1..], e, ttl);
    }
  }

  function SchedulesOf(keys: set<SeatKey>): set<ScheduleId> {
    set k | k in keys :: k.sched
  }

  /** The part of `keys` whose schedules are still to be dealt with. */
  function Remaining(keys: set<SeatKey>, todo: set<ScheduleId>): set<SeatKey> {
    set k | k in keys && k.sched in todo
  }

  lemma {:induction false} RemainingAll(keys: set<SeatKey>)
    ensures Remaining(keys, SchedulesOf(keys)) == keys && Remaining(keys, {}) == {}
  {
  }

  lemma {:induction false} RemainingGroup(keys: set<SeatKey>, todo: set<ScheduleId>, sc: ScheduleId)
    requires sc in todo
    ensures Group(Remaining(keys, todo), sc) == Group(keys, sc)
    ensures Without(Remaining(keys, todo), sc) == Remaining(keys, todo - {sc})
  {
    forall seat | seat in Group(keys, sc) ensures seat in Group(Remaining(keys, todo), sc) {
      assert SeatKey(sc, seat) in Remaining(keys, todo);
    }
  }

  /** The groups of these seats, by schedule. */
  predicate Grouped(groups: map<ScheduleId, set<SeatId>>, keys: set<SeatKey>) {
    groups.Keys == SchedulesOf(keys) && forall sc | sc in groups :: groups[sc] == Group(keys, sc)
  }

  function PutInGroup(groups: map<ScheduleId, set<SeatId>>, k: SeatKey): map<ScheduleId, set<SeatId>> {
    groups[k.sched := (if k.sched in groups then groups[k.sched] else {}) + {k.seat}]
  }

  lemma {:induction false} GroupOneMore(groups: map<ScheduleId, set<SeatId>>, keys: set<SeatKey>, k: SeatKey)
    requires Grouped(groups, keys)
    ensures Grouped(PutInGroup(groups, k), keys + {k})
  {
    assert k.sched !in SchedulesOf(keys) ==> Group(keys, k.sched) == {};
    assert Group(keys + {k}, k.sched) == Group(keys, k.sched) + {k.seat};
    forall sc | sc in groups && sc != k.sched ensures Group(keys + {k}, sc) == Group(keys, sc) {}
  }

  /** Groups seats by their schedule. */
  method GroupBySchedule(keys: set<SeatKey>) returns (groups: map<ScheduleId, set<SeatId>>)
    ensures Grouped(groups, keys)
  {
    groups := map[];
    var todo := keys;
    ghost var done: set<SeatKey> := {};
    while todo != {}
      invariant done + todo == keys && Grouped(groups, done)
      decreases |todo|
    {
      var k :| k in todo;
      GroupOneMore(groups, done, k);
      if k.sched !in groups { groups := groups[k.sched := {}]; }
      groups := groups[k.sched := groups[k.sched] + {k.seat}];
      todo, done := todo - {k}, done + {k};
    }
  }

  // ----- executions as runs -----

  /** These events take the machine from `start` to `w`, and `w` is safe. */
  predicate Reaches(start: World, es: seq<Event>, w: World) {
    Run(start, es, 0) == w && SafeWorld(w)
  }

  lemma {:induction false} Extend(start: World, es: seq<Event>, w: World, e: Event)
    requires Reaches(start, es, w)
    ensures Reaches(start, es + [e], Next(w, e, 0))
  {
    RunAppend(start, es, e, 0);
    NextIsSafe(w, e, 0);
  }

  /** The seats of a group exist, and so does its schedule. */
  lemma {:induction false} GroupExists(db: Db, keys: set<SeatKey>, sc: ScheduleId)
    requires SeatsOwned(db) && sc in SchedulesOf(keys) && forall k | k in keys :: k in db.seats
    ensures sc in db.schedules && forall s | s in Group(keys, sc) :: SeatKey(sc, s) in db.seats
  {
    forall s | s in Group(keys, sc) ensures SeatKey(sc, s) in db.seats {
      var k :| k in keys && k.sched == sc && k.seat == s;
      assert k == SeatKey(sc, s);
    }
  }

  lemma {:induction false} RowsHaveSeats(db: Db, ids: set<RowId>)
    requires RowsOwned(db)
    ensures forall k | k in SeatsOfRows(db.rows, ids) :: k in db.seats
  {
  }

  /** Which statements of one job succeed. */
  datatype Luck = Luck(findRows: bool, dropRows: bool, recompute: ScheduleId -> bool, recount: ScheduleId -> bool,
                       findSeats: bool, free: ScheduleId -> bool, recountFreed: ScheduleId -> bool)

  ghost predicate Fine(luck: Luck) {
    && luck.findRows && luck.dropRows && luck.findSeats
    && forall sc :: luck.recompute(sc) && luck.recount(sc) && luck.free(sc) && luck.recountFreed(sc)
  }

  /** The job's code has come to `w` by these events, none of them a failure if its luck is fine. */
  ghost predicate Follows(start: World, es: seq<Event>, w: World, inv: SeatInventory, luck: Luck)
    reads inv
  {
    Reaches(start, es, w) && w.db == inv.State() && w.debt.dirty == inv.dirty && (Fine(luck) ==> NothingFails(es))
  }

  // ----- what the job does to the tables -----

  /** LOCKED, and past its expiry. */
  predicate Lapsed(status: Status, expires: Option<int>, now: int) {
    status == Locked && expires.Some? && expires.value < now
  }

  predicate SeatLapsed(db: Db, k: SeatKey, now: int) {
    k in db.seats && Lapsed(db.seats[k].status, db.seats[k].expires, now)
  }

  predicate RowLapsed(db: Db, k: RowId, now: int) {
    k in db.rows && Lapsed(db.rows[k].status, db.rows[k].expires, now)
  }

  /** The seat has a row that has lapsed. */
  predicate LosesARow(db: Db, k: SeatKey, now: int) {
    exists i :: i in db.rows && RowLapsed(db, i, now) && db.rows[i].sched == k.sched && i.seat == k.seat
  }

  /** Phase one is not stopped by an error. */
  ghost predicate PhaseOneGoes(luck: Luck) {
    luck.findRows && luck.dropRows && forall sc :: luck.recompute(sc) && luck.recount(sc)
  }

  /** Only seats and counters differ. */
  predicate SameRest(db: Db, db': Db) {
    && db'.nextHold == db.nextHold && db'.events == db.events
    && db'.seats.Keys == db.seats.Keys && db'.schedules.Keys == db.schedules.Keys
  }

  /** The seat has become what its rows say. */
  predicate Shows(before: Db, mid: Db, k: SeatKey) {
    k in before.seats && k in mid.seats && Requests.ShowsItsRows(mid, before.seats[k], k.sched, k.seat)
  }

  predicate CountsAreTrue(db: Db, sc: ScheduleId) {
    sc in db.schedules && db.schedules[sc].counts == CountSeats(db.seats, sc)
  }

  /** Exactly the rows that have lapsed go, and the others stay as they are. */
  ghost predicate LapsedRowsGo(before: Db, mid: Db, now: int) {
    && (forall k :: k in mid.rows <==> k in before.rows && !RowLapsed(before, k, now))
    && forall k | k in mid.rows :: mid.rows[k] == before.rows[k]
  }

  /** Phase one, when it finds and deletes rows: exactly the rows that have lapsed go. Seats that lose no
      row stay as they are, and the others come to show the rows that are left, all of them when nothing
      stops it, and then their schedules' counters are true. When it does not, nothing changes. */
  ghost predicate PhaseOneDid(before: Db, mid: Db, now: int, luck: Luck) {
    if !luck.findRows || !luck.dropRows then mid == before
    else
      && SameRest(before, mid) && LapsedRowsGo(before, mid, now)
      && (forall k | k in before.seats ::
            mid.seats[k] == before.seats[k] || (LosesARow(before, k, now) && Shows(before, mid, k)))
      && (forall sc | sc in before.schedules ::
            mid.schedules[sc] == before.schedules[sc]
            || mid.schedules[sc] == before.schedules[sc].(counts := CountSeats(mid.seats, sc)))
      && (PhaseOneGoes(luck) ==> forall k | k in before.seats && LosesARow(before, k, now) ::
            Shows(before, mid, k) && CountsAreTrue(mid, k.sched))
  }

  /** A schedule with a seat that has lapsed. */
  predicate HasLapsed(db: Db, sc: ScheduleId, now: int) {
    exists k :: k in db.seats && SeatLapsed(db, k, now) && k.sched == sc
  }

  /** The seat is free, if it had lapsed, its schedule is done and the update has succeeded. */
  predicate Frees(mid: Db, db: Db, now: int, luck: Luck, done: set<ScheduleId>, k: SeatKey)
    requires k in mid.seats
  {
    k in db.seats && db.seats[k] ==
      if k.sched in done && luck.free(k.sched) && SeatLapsed(mid, k, now)
      then Seat(Available, None, None, mid.seats[k].booking) else mid.seats[k]
  }

  /** Phase two, as far as the schedules `done`: exactly the seats that have lapsed are free, where the
      update succeeds, and their schedules' counters are true, where the recount succeeds too. */
  ghost predicate PhaseTwoDid(mid: Db, db: Db, now: int, luck: Luck, done: set<ScheduleId>) {
    && SameRest(mid, db) && db.rows == mid.rows
    && (forall k | k in mid.seats :: Frees(mid, db, now, luck, done, k))
    && (forall sc | sc in mid.schedules :: db.schedules[sc] ==
          if sc in done && luck.free(sc) && luck.recountFreed(sc) && HasLapsed(mid, sc, now)
          then mid.schedules[sc].(counts := CountSeats(db.seats, sc)) else mid.schedules[sc])
  }

  lemma {:induction false} NothingFreed(mid: Db, now: int, luck: Luck)
    ensures PhaseTwoDid(mid, mid, now, luck, {})
  {
  }

  /** The keys of the seats that have lapsed, and which schedules they are of. */
  lemma {:induction false} ExpiredAreLapsed(db: Db, now: int)
    ensures forall k :: k in ExpiredSeats(db.seats, now) <==> SeatLapsed(db, k, now)
    ensures forall sc :: sc in SchedulesOf(ExpiredSeats(db.seats, now)) <==> HasLapsed(db, sc, now)
  {
    forall k ensures k in ExpiredSeats(db.seats, now) <==> SeatLapsed(db, k, now) {}
    forall sc | HasLapsed(db, sc, now) ensures sc in SchedulesOf(ExpiredSeats(db.seats, now)) {
      var k :| k in db.seats && SeatLapsed(db, k, now) && k.sched == sc;
      assert k in ExpiredSeats(db.seats, now);
    }
  }

  /** The update and the recount for one schedule, where they succeed. */
  ghost predicate FreesGroup(db: Db, db': Db, sc: ScheduleId, group: set<SeatId>, luck: Luck) {
    && sc in db.schedules && db' == db.(seats := db'.seats, schedules := db'.schedules)
    && db'.seats == (if luck.free(sc) then EditSeats(db.seats, sc, group, FreeIfLocked) else db.seats)
    && db'.schedules ==
         if luck.free(sc) && luck.recountFreed(sc)
         then db.schedules[sc := db.schedules[sc].(counts := CountSeats(db'.seats, sc))] else db.schedules
  }

  lemma {:induction false} InLapsedGroup(mid: Db, now: int, k: SeatKey)
    requires k in mid.seats
    ensures k.seat in Group(ExpiredSeats(mid.seats, now), k.sched) <==> SeatLapsed(mid, k, now)
  {
    var keys := ExpiredSeats(mid.seats, now);
    assert k in keys <==> SeatLapsed(mid, k, now);
    if k.seat in Group(keys, k.sched) {
      var l :| l in keys && l.sched == k.sched && l.seat == k.seat;
      assert l == k;
    }
  }

  lemma {:induction false} FreesSeat(db: Db, db': Db, sc: ScheduleId, group: set<SeatId>, luck: Luck, k: SeatKey)
    requires FreesGroup(db, db', sc, group, luck) && k in db.seats
    ensures k in db'.seats && db'.seats[k] ==
              if luck.free(sc) && k.sched == sc && k.seat in group then Edited(FreeIfLocked, db.seats[k])
              else db.seats[k]
  {
  }

  /** The seats, when one more schedule has been dealt with. */
  lemma {:induction false} FreedSeats(mid: Db, db: Db, db': Db, now: int, luck: Luck, done: set<ScheduleId>,
      sc: ScheduleId, k: SeatKey)
    requires k in mid.seats && Frees(mid, db, now, luck, done, k) && sc !in done
    requires FreesGroup(db, db', sc, Group(ExpiredSeats(mid.seats, now), sc), luck)
    ensures Frees(mid, db', now, luck, done + {sc}, k)
  {
    var group := Group(ExpiredSeats(mid.seats, now), sc);
    InLapsedGroup(mid, now, k);
    FreesSeat(db, db', sc, group, luck, k);
  }

  lemma {:induction false} FreedOneMore(mid: Db, db: Db, db': Db, now: int, luck: Luck, done: set<ScheduleId>,
      sc: ScheduleId)
    requires PhaseTwoDid(mid, db, now, luck, done) && sc !in done && HasLapsed(mid, sc, now)
    requires FreesGroup(db, db', sc, Group(ExpiredSeats(mid.seats, now), sc), luck)
    ensures PhaseTwoDid(mid, db', now, luck, done + {sc})
  {
    forall k | k in mid.seats ensures Frees(mid, db', now, luck, done + {sc}, k) {
      FreedSeats(mid, db, db', now, luck, done, sc, k);
    }
    forall x | x in mid.schedules && x != sc ensures CountSeats(db'.seats, x) == CountSeats(db.seats, x) {
      CountFrame(db.seats, db'.seats, x);
    }
  }

  /** When all schedules with a lapsed seat are done, all are. */
  lemma {:induction false} AllFreed(mid: Db, db: Db, now: int, luck: Luck, done: set<ScheduleId>)
    requires PhaseTwoDid(mid, db, now, luck, done) && forall sc | HasLapsed(mid, sc, now) :: sc in done
    ensures forall all | done <= all :: PhaseTwoDid(mid, db, now, luck, all)
  {
  }

  /** The summaries as far as the schedules `done`; where an error has stopped it at the recount of one
      schedule, the seats of that one, `last`, are summarised too. */
  ghost predicate Summarised(before: Db, db: Db, keys: set<SeatKey>, done: set<ScheduleId>, last: set<ScheduleId>) {
    && SameRest(before, db) && db.rows == before.rows
    && (forall k | k in before.seats :: db.seats[k] ==
          if k in keys && k.sched in done + last
          then Recomputed(before.seats[k], Summary(before.rows, k.sched, k.seat)) else before.seats[k])
    && (forall sc | sc in before.schedules :: db.schedules[sc] ==
          if sc in done then before.schedules[sc].(counts := CountSeats(db.seats, sc)) else before.schedules[sc])
  }

  lemma {:induction false} NothingSummarised(db: Db, keys: set<SeatKey>)
    ensures Summarised(db, db, keys, {}, {})
  {
  }

  /** The recomputation and the recount for one schedule, as far as they succeed. */
  ghost predicate SummarisesGroup(db: Db, db': Db, sc: ScheduleId, group: set<SeatId>, seats: bool, counts: bool) {
    && sc in db.schedules && db' == db.(seats := db'.seats, schedules := db'.schedules)
    && db'.seats == (if seats then Recompute(db, sc, group).seats else db.seats)
    && db'.schedules == if seats && counts
         then db.schedules[sc := db.schedules[sc].(counts := CountSeats(db'.seats, sc))] else db.schedules
  }

  lemma {:induction false} InGroupIff(keys: set<SeatKey>, k: SeatKey)
    ensures k.seat in Group(keys, k.sched) <==> k in keys
  {
    if k.seat in Group(keys, k.sched) {
      var l :| l in keys && l.sched == k.sched && l.seat == k.seat;
      assert l == k;
    }
  }

  lemma {:induction false} SummarisedSeats(before: Db, db: Db, db': Db, keys: set<SeatKey>, done: set<ScheduleId>,
      sc: ScheduleId, seats: bool, counts: bool, k: SeatKey)
    requires Summarised(before, db, keys, done, {}) && sc !in done && k in before.seats
    requires SummarisesGroup(db, db', sc, Group(keys, sc), seats, counts)
    ensures k in db'.seats && db'.seats[k] ==
              if k in keys && k.sched in done + (if seats then {sc} else {})
              then Recomputed(before.seats[k], Summary(before.rows, k.sched, k.seat)) else before.seats[k]
  {
    InGroupIff(keys, k);
  }

  lemma {:induction false} SummarisedOneMore(before: Db, db: Db, db': Db, keys: set<SeatKey>, done: set<ScheduleId>,
      sc: ScheduleId, seats: bool, counts: bool)
    requires Summarised(before, db, keys, done, {}) && sc !in done
    requires SummarisesGroup(db, db', sc, Group(keys, sc), seats, counts)
    ensures if seats && counts then Summarised(before, db', keys, done + {sc}, {})
            else Summarised(before, db', keys, done, if seats then {sc} else {})
  {
    forall k | k in before.seats ensures k in db'.seats && db'.seats[k] ==
                if k in keys && k.sched in done + (if seats then {sc} else {})
                then Recomputed(before.seats[k], Summary(before.rows, k.sched, k.seat)) else before.seats[k] {
      SummarisedSeats(before, db, db', keys, done, sc, seats, counts, k);
    }
    assert db'.seats.Keys == before.seats.Keys;
    forall x | x in before.schedules && x != sc ensures CountSeats(db'.seats, x) == CountSeats(db.seats, x) {
      CountFrame(db.seats, db'.seats, x);
    }
  }

  /** The rows that phase one finds, and the seats they are on. */
  lemma {:induction false} FoundAreLapsed(db: Db, now: int)
    ensures forall i :: i in ExpiredRows(db.rows, now) <==> RowLapsed(db, i, now)
    ensures forall k :: k in SeatsOfRows(db.rows, ExpiredRows(db.rows, now)) <==> LosesARow(db, k, now)
  {
    var ids := ExpiredRows(db.rows, now);
    forall i ensures i in ids <==> RowLapsed(db, i, now) {}
    forall k ensures k in SeatsOfRows(db.rows, ids) <==> LosesARow(db, k, now) {
      if LosesARow(db, k, now) {
        var i :| i in db.rows && RowLapsed(db, i, now) && db.rows[i].sched == k.sched && i.seat == k.seat;
        assert i in ids && k == SeatKey(db.rows[i].sched, i.seat);
      }
    }
  }

  lemma {:induction false} SummarisedShows(before: Db, mid: Db, k: SeatKey)
    requires k in before.seats && k in mid.seats
    requires mid.seats[k] == Recomputed(before.seats[k], Summary(mid.rows, k.sched, k.seat))
    ensures Shows(before, mid, k)
  {
    Requests.SummaryIs(mid, k.sched, k.seat);
  }

  /** What the summaries of the seats come to, after the rows have gone. */
  lemma {:induction false} PhaseOneIsDone(before: Db, mid: Db, now: int, luck: Luck, done: set<ScheduleId>,
      last: set<ScheduleId>)
    requires SeatsOwned(before) && luck.findRows && luck.dropRows
    requires
      var ids := ExpiredRows(before.rows, now);
      var keys := SeatsOfRows(before.rows, ids);
      && Summarised(before.(rows := before.rows - ids), mid, keys, done, last)
      && (PhaseOneGoes(luck) ==> done == SchedulesOf(keys))
    ensures PhaseOneDid(before, mid, now, luck)
  {
    FoundAreLapsed(before, now);
    forall k | k in before.seats && mid.seats[k] != before.seats[k]
      ensures LosesARow(before, k, now) && Shows(before, mid, k)
    {
      SummarisedShows(before, mid, k);
    }
    if PhaseOneGoes(luck) {
      forall k | k in before.seats && LosesARow(before, k, now)
        ensures Shows(before, mid, k) && CountsAreTrue(mid, k.sched)
      {
        SummarisedShows(before, mid, k);
      }
    }
  }

  /** A seat without an expired row is freed by the job exactly when its own lock is past the second
      reading of the clock, whatever happened in phase one; otherwise it stays as it was. Where the
      recount succeeds too, its schedule's counters are true at the end. */
  lemma {:induction false} ExpiredLockIsFreed(before: Db, mid: Db, db: Db, now: int, later: int, luck: Luck, k: SeatKey)
    requires SeatsOwned(before) && k in before.seats && !LosesARow(before, k, now)
    requires PhaseOneDid(before, mid, now, luck) && PhaseTwoDid(mid, db, later, luck, mid.schedules.Keys)
    requires luck.free(k.sched)
    ensures k in db.seats && db.seats[k] ==
              if SeatLapsed(before, k, later) then Seat(Available, None, None, before.seats[k].booking)
              else before.seats[k]
    ensures SeatLapsed(before, k, later) && luck.recountFreed(k.sched) ==> CountsAreTrue(db, k.sched)
  {
    assert mid.seats[k] == before.seats[k] && k.sched in mid.schedules;
    assert Frees(mid, db, later, luck, mid.schedules.Keys, k);
    if SeatLapsed(before, k, later) {
      assert SeatLapsed(mid, k, later) && HasLapsed(mid, k.sched, later);
    }
  }

  // ----- the job -----

  /** cleanExpiredLocks: `now` and `later` are its two readings of the clock. An error in phase one
      is caught and phase two follows; an error for one schedule in phase two is caught and the next
      schedule follows. `mid` is what phase one leaves. */
  method CleanExpiredLocks(inv: SeatInventory, now: int, later: int, luck: Luck, ghost start: World)
    returns (ghost w: World, ghost es: seq<Event>, ghost mid: Db)
    requires inv.Valid() && now <= later && Starts(start, inv, now)
    modifies inv
    ensures inv.Valid() && Follows(start, es, w, inv, luck) && w.job == Idle
    ensures PhaseOneDid(old(inv.State()), mid, now, luck)
    ensures if luck.findSeats then PhaseTwoDid(mid, inv.State(), later, luck, mid.schedules.Keys)
            else inv.State() == mid
    ensures inv.rows == old(inv.rows) - (if luck.findRows && luck.dropRows then ExpiredRows(old(inv.rows), now) else {})
  {
    var ok;
    ok, w, es := PhaseOneOf(inv, now, luck, start);
    mid := inv.State();
    if !ok {
      Extend(start, es, w, FailPhaseOne);
      w, es := Next(w, FailPhaseOne, 0), es + [FailPhaseOne];
    }
    Extend(start, es, w, Tick(later));
    w, es := Next(w, Tick(later), 0), es + [Tick(later)];
    if luck.findSeats {
      w, es := PhaseTwoOf(inv, later, luck, start, es, w);
    } else {
      Extend(start, es, w, Crash);
      w, es := Next(w, Crash, 0), es + [Crash];
    }
  }

  ghost predicate Starts(start: World, inv: SeatInventory, now: int)
    reads inv
  {
    start.db == inv.State() && start.debt.dirty == inv.dirty && start.job == Idle && start.clock == now
  }

  /** What phase one leaves: it is over, or one of its statements has failed. */
  predicate PhaseOneEnds(w: World, ok: bool, now: int) {
    w.clock == now &&
    if ok then w.job == PhaseOne(now, {}, NoTally) else w.job.Idle? || w.job.FoundRows? || w.job.PhaseOne?
  }

  /** The inner try block. */
  method PhaseOneOf(inv: SeatInventory, now: int, luck: Luck, ghost start: World)
    returns (ok: bool, ghost w: World, ghost es: seq<Event>)
    requires inv.Valid() && Starts(start, inv, now)
    modifies inv
    ensures Follows(start, es, w, inv, luck) && PhaseOneEnds(w, ok, now) && (PhaseOneGoes(luck) ==> ok)
    ensures inv.rows == old(inv.rows) - (if luck.findRows && luck.dropRows then ExpiredRows(old(inv.rows), now) else {})
    ensures PhaseOneDid(old(inv.State()), inv.State(), now, luck)
  {
    w, es := start, [];
    if !luck.findRows { return false, w, es; }
    ghost var before := inv.State();
    var expired := ExpiredRows(inv.rows, now);
    var keys := SeatsOfRows(inv.rows, expired);
    RowsHaveSeats(inv.State(), expired);
    Extend(start, es, w, FindRows);
    w, es := Next(w, FindRows, 0), es + [FindRows];
    if !luck.dropRows { return false, w, es; }
    inv.rows := inv.rows - expired;
    Extend(start, es, w, DropRows);
    w, es := Next(w, DropRows, 0), es + [DropRows];
    ghost var done, last;
    ok, w, es, done, last := Summarise(inv, now, keys, luck, start, es, w);
    PhaseOneIsDone(before, inv.State(), now, luck, done, last);
  }

  /** The seats whose expired rows have just gone are summarised again, schedule by schedule, up to
      the first error. */
  method Summarise(inv: SeatInventory, now: int, keys: set<SeatKey>, luck: Luck, ghost start: World,
      ghost es0: seq<Event>, ghost w0: World)
    returns (ok: bool, ghost w: World, ghost es: seq<Event>, ghost done: set<ScheduleId>, ghost last: set<ScheduleId>)
    requires Follows(start, es0, w0, inv, luck) && w0.job == PhaseOne(now, keys, NoTally) && w0.clock == now
    requires forall k | k in keys :: k in inv.seats
    modifies inv`seats, inv`schedules, inv`dirty
    ensures Follows(start, es, w, inv, luck) && PhaseOneEnds(w, ok, now)
    ensures (forall sc :: luck.recompute(sc) && luck.recount(sc)) ==> ok
    ensures Summarised(old(inv.State()), inv.State(), keys, done, last) && (ok ==> done == SchedulesOf(keys))
  {
    ok, w, es := true, w0, es0;
    done, last := {}, {};
    ghost var before := inv.State();
    var groups := GroupBySchedule(keys);
    var todo := groups.Keys;
    NothingSummarised(before, keys);
    RemainingAll(keys);
    while todo != {}
      invariant Summarising(inv, start, es, w, luck, now, before, keys, todo, done)
      decreases |todo|
    {
      var sc :| sc in todo;
      ok, w, es, last := SummariseNext(inv, sc, groups[sc], now, luck, start, es, w, before, keys, todo, done);
      if !ok { return; }
      todo, done := todo - {sc}, done + {sc};
    }
  }

  /** The job has summarised the schedules `done` of these seats and has still `todo` before it. */
  ghost predicate Summarising(inv: SeatInventory, start: World, es: seq<Event>, w: World, luck: Luck, now: int,
      before: Db, keys: set<SeatKey>, todo: set<ScheduleId>, done: set<ScheduleId>)
    reads inv
  {
    && Follows(start, es, w, inv, luck) && w.job == PhaseOne(now, Remaining(keys, todo), NoTally) && w.clock == now
    && todo !! done && todo + done == SchedulesOf(keys)
    && SeatsOwned(before) && (forall k | k in keys :: k in before.seats)
    && Summarised(before, inv.State(), keys, done, {})
  }

  method SummariseNext(inv: SeatInventory, sc: ScheduleId, group: set<SeatId>, now: int, luck: Luck,
      ghost start: World, ghost es0: seq<Event>, ghost w0: World, ghost before: Db, ghost keys: set<SeatKey>,
      ghost todo: set<ScheduleId>, ghost done: set<ScheduleId>)
    returns (ok: bool, ghost w: World, ghost es: seq<Event>, ghost last: set<ScheduleId>)
    requires Summarising(inv, start, es0, w0, luck, now, before, keys, todo, done) && sc in todo
    requires group == Group(keys, sc)
    modifies inv`seats, inv`schedules, inv`dirty
    ensures ok == (luck.recompute(sc) && luck.recount(sc))
    ensures ok ==> Summarising(inv, start, es, w, luck, now, before, keys, todo - {sc}, done + {sc})
    ensures Follows(start, es, w, inv, luck) && w.clock == now && w.job.PhaseOne?
    ensures !ok ==> Summarised(before, inv.State(), keys, done, last)
  {
    ghost var db := inv.State();
    NextToSummarise(before, db, keys, todo, done, sc);
    ok, w, es := SummariseSchedule(inv, sc, group, luck, start, es0, w0);
    last := if luck.recompute(sc) then {sc} else {};
    SummarisedOneMore(before, db, inv.State(), keys, done, sc, luck.recompute(sc), luck.recount(sc));
  }

  lemma {:induction false} NextToSummarise(before: Db, db: Db, keys: set<SeatKey>, todo: set<ScheduleId>,
      done: set<ScheduleId>, sc: ScheduleId)
    requires Summarised(before, db, keys, done, {}) && SeatsOwned(before) && sc in todo && todo !! done
    requires todo + done == SchedulesOf(keys) && forall k | k in keys :: k in before.seats
    ensures sc in db.schedules && (forall s | s in Group(keys, sc) :: SeatKey(sc, s) in db.seats)
    ensures Group(Remaining(keys, todo), sc) == Group(keys, sc)
    ensures Without(Remaining(keys, todo), sc) == Remaining(keys, todo - {sc})
    ensures (todo - {sc}) + (done + {sc}) == SchedulesOf(keys)
  {
    GroupExists(before, keys, sc);
    RemainingGroup(keys, todo, sc);
  }

  method SummariseSchedule(inv: SeatInventory, sc: ScheduleId, group: set<SeatId>, luck: Luck, ghost start: World,
      ghost es0: seq<Event>, ghost w0: World)
    returns (ok: bool, ghost w: World, ghost es: seq<Event>)
    requires Follows(start, es0, w0, inv, luck) && w0.job.PhaseOne? && w0.job.tally.NoTally?
    requires group == Group(w0.job.todo, sc) && sc in inv.schedules
    requires forall s | s in group :: SeatKey(sc, s) in inv.seats
    modifies inv`seats, inv`schedules, inv`dirty
    ensures Follows(start, es, w, inv, luck) && inv.seats.Keys == old(inv.seats.Keys) && w.clock == w0.clock
    ensures w.job.PhaseOne? && (ok ==> w.job == w0.job.(todo := Without(w0.job.todo, sc)))
    ensures ok == (luck.recompute(sc) && luck.recount(sc))
    ensures SummarisesGroup(old(inv.State()), inv.State(), sc, group, luck.recompute(sc), luck.recount(sc))
  {
    w, es := w0, es0;
    if !luck.recompute(sc) { return false, w, es; }
    w, es := RecomputeSeats(inv, sc, group, luck, start, es0, w0);
    ok := luck.recount(sc);
    if ok { w, es := RecountAndPublish(inv, sc, luck, start, es, w); }
  }

  lemma {:induction false} RecomputeStep(w: World, sc: ScheduleId, group: set<SeatId>)
    requires w.job.PhaseOne? && w.job.tally.NoTally? && group == Group(w.job.todo, sc)
    ensures var w' := Next(w, RecomputeGroup(sc), 0);
            && w'.db == w.db.(seats := Recompute(w.db, sc, group).seats) && w'.db.seats.Keys == w.db.seats.Keys
            && w'.job == PhaseOne(w.job.now, Without(w.job.todo, sc), ToCount(sc))
            && w'.clock == w.clock && w'.debt.dirty == w.debt.dirty + {sc}
  {
  }

  method RecomputeSeats(inv: SeatInventory, sc: ScheduleId, group: set<SeatId>, luck: Luck, ghost start: World,
      ghost es0: seq<Event>, ghost w0: World)
    returns (ghost w: World, ghost es: seq<Event>)
    requires Follows(start, es0, w0, inv, luck) && w0.job.PhaseOne? && w0.job.tally.NoTally?
    requires group == Group(w0.job.todo, sc) && sc in inv.schedules
    requires forall s | s in group :: SeatKey(sc, s) in inv.seats
    modifies inv`seats, inv`dirty
    ensures Follows(start, es, w, inv, luck) && inv.seats.Keys == old(inv.seats.Keys) && w.clock == w0.clock
    ensures w.job == PhaseOne(w0.job.now, Without(w0.job.todo, sc), ToCount(sc))
    ensures inv.seats == Recompute(old(inv.State()), sc, group).seats
  {
    var _ := inv.RecomputeSegmentSeatStatuses(sc, group);
    inv.dirty := inv.dirty + {sc};
    Extend(start, es0, w0, RecomputeGroup(sc));
    RecomputeStep(w0, sc, group);
    w, es := Next(w0, RecomputeGroup(sc), 0), es0 + [RecomputeGroup(sc)];
  }

  method RecountAndPublish(inv: SeatInventory, sc: ScheduleId, luck: Luck, ghost start: World, ghost es0: seq<Event>,
      ghost w0: World)
    returns (ghost w: World, ghost es: seq<Event>)
    requires Follows(start, es0, w0, inv, luck) && Counting(w0.job) && w0.job.tally == ToCount(sc)
    requires sc in inv.schedules
    modifies inv`schedules, inv`dirty
    ensures Follows(start, es, w, inv, luck) && w.job == w0.job.(tally := NoTally) && w.clock == w0.clock
    ensures inv.schedules == old(inv.schedules)[sc := old(inv.schedules)[sc].(counts := CountSeats(inv.seats, sc))]
  {
    var counts := CountSeats(inv.seats, sc);
    Extend(start, es0, w0, CountSchedule);
    w, es := WriteCountsOf(inv, sc, counts, luck, start, es0 + [CountSchedule], Next(w0, CountSchedule, 0));
  }

  /** The update of recountAndPublish, with the counts that its query has read. */
  method WriteCountsOf(inv: SeatInventory, sc: ScheduleId, counts: Counts, luck: Luck, ghost start: World,
      ghost es0: seq<Event>, ghost w0: World)
    returns (ghost w: World, ghost es: seq<Event>)
    requires Follows(start, es0, w0, inv, luck) && Counting(w0.job) && w0.job.tally == ToWrite(sc, counts)
    requires sc in inv.schedules && counts == CountSeats(inv.seats, sc)
    modifies inv`schedules, inv`dirty
    ensures Follows(start, es, w, inv, luck) && w.job == w0.job.(tally := NoTally) && w.clock == w0.clock
    ensures inv.schedules == old(inv.schedules)[sc := old(inv.schedules)[sc].(counts := counts)]
  {
    inv.schedules := inv.schedules[sc := inv.schedules[sc].(counts := counts)];
    inv.dirty := inv.dirty - {sc};
    Extend(start, es0, w0, WriteCounts);
    w, es := Next(w0, WriteCounts, 0), es0 + [WriteCounts];
  }

  /** Seats whose own lock has run out are freed, schedule by schedule. */
  method PhaseTwoOf(inv: SeatInventory, now: int, luck: Luck, ghost start: World, ghost es0: seq<Event>,
      ghost w0: World)
    returns (ghost w: World, ghost es: seq<Event>)
    requires Follows(start, es0, w0, inv, luck) && PhaseOneIsOver(w0.job) && w0.clock == now
    modifies inv`seats, inv`schedules, inv`dirty
    ensures Follows(start, es, w, inv, luck) && w.job == Idle && SafeWorld(w)
    ensures PhaseTwoDid(old(inv.State()), inv.State(), now, luck, old(inv.schedules).Keys)
  {
    var keys := ExpiredSeats(inv.seats, now);
    ExpiredAreLapsed(inv.State(), now);
    ghost var mid := inv.State();
    Extend(start, es0, w0, FindSeats);
    w, es := FreeEach(inv, keys, now, luck, start, es0 + [FindSeats], Next(w0, FindSeats, 0));
    LapsedHaveSchedules(mid, now);
    AllFreed(mid, inv.State(), now, luck, SchedulesOf(keys));
    Extend(start, es, w, LedgerRuns.Finish);
    w, es := Next(w, LedgerRuns.Finish, 0), es + [LedgerRuns.Finish];
  }

  lemma {:induction false} LapsedHaveSchedules(db: Db, now: int)
    requires SeatsOwned(db)
    ensures SchedulesOf(ExpiredSeats(db.seats, now)) <= db.schedules.Keys
  {
  }

  /** The job has dealt with the schedules `done` of these seats and has still `todo` before it. */
  ghost predicate Freeing(inv: SeatInventory, start: World, es: seq<Event>, w: World, luck: Luck, now: int, mid: Db,
      todo: set<ScheduleId>, done: set<ScheduleId>)
    reads inv
  {
    var keys := ExpiredSeats(mid.seats, now);
    && Follows(start, es, w, inv, luck) && w.job == PhaseTwo(Remaining(keys, todo), NoTally)
    && todo !! done && todo + done == SchedulesOf(keys) && SeatsOwned(mid)
    && PhaseTwoDid(mid, inv.State(), now, luck, done)
  }

  method FreeEach(inv: SeatInventory, keys: set<SeatKey>, now: int, luck: Luck, ghost start: World,
      ghost es0: seq<Event>, ghost w0: World)
    returns (ghost w: World, ghost es: seq<Event>)
    requires Follows(start, es0, w0, inv, luck) && w0.job == PhaseTwo(keys, NoTally)
    requires keys == ExpiredSeats(inv.seats, now)
    modifies inv`seats, inv`schedules, inv`dirty
    ensures Follows(start, es, w, inv, luck) && w.job == PhaseTwo({}, NoTally)
    ensures PhaseTwoDid(old(inv.State()), inv.State(), now, luck, SchedulesOf(keys))
  {
    w, es := w0, es0;
    ghost var mid := inv.State();
    ghost var done: set<ScheduleId> := {};
    var groups := GroupBySchedule(keys);
    var todo := groups.Keys;
    NothingFreed(mid, now, luck);
    assert Remaining(keys, todo) == keys && todo + done == SchedulesOf(keys);
    while todo != {}
      invariant Freeing(inv, start, es, w, luck, now, mid, todo, done)
      decreases |todo|
    {
      var sc :| sc in todo;
      w, es := FreeNext(inv, sc, groups[sc], now, luck, start, es, w, mid, todo, done);
      todo, done := todo - {sc}, done + {sc};
    }
    assert Remaining(keys, {}) == {} && done == SchedulesOf(keys);
  }

  method FreeNext(inv: SeatInventory, sc: ScheduleId, group: set<SeatId>, now: int, luck: Luck, ghost start: World,
      ghost es0: seq<Event>, ghost w0: World, ghost mid: Db, ghost todo: set<ScheduleId>, ghost done: set<ScheduleId>)
    returns (ghost w: World, ghost es: seq<Event>)
    requires Freeing(inv, start, es0, w0, luck, now, mid, todo, done) && sc in todo
    requires group == Group(ExpiredSeats(mid.seats, now), sc)
    modifies inv`seats, inv`schedules, inv`dirty
    ensures Freeing(inv, start, es, w, luck, now, mid, todo - {sc}, done + {sc})
  {
    ghost var db := inv.State();
    NextGroup(mid, db, now, luck, todo, done, sc);
    w, es := FreeSchedule(inv, sc, group, luck, start, es0, w0);
    FreedOneMore(mid, db, inv.State(), now, luck, done, sc);
  }

  lemma {:induction false} NextGroup(mid: Db, db: Db, now: int, luck: Luck, todo: set<ScheduleId>,
      done: set<ScheduleId>, sc: ScheduleId)
    requires PhaseTwoDid(mid, db, now, luck, done) && SeatsOwned(mid) && sc in todo && todo !! done
    requires todo + done == SchedulesOf(ExpiredSeats(mid.seats, now))
    ensures var keys := ExpiredSeats(mid.seats, now);
            && HasLapsed(mid, sc, now) && sc in db.schedules
            && Group(Remaining(keys, todo), sc) == Group(keys, sc)
            && Without(Remaining(keys, todo), sc) == Remaining(keys, todo - {sc})
            && (todo - {sc}) + (done + {sc}) == SchedulesOf(keys)
  {
    ExpiredAreLapsed(mid, now);
    RemainingGroup(ExpiredSeats(mid.seats, now), todo, sc);
  }

  method FreeSchedule(inv: SeatInventory, sc: ScheduleId, group: set<SeatId>, luck: Luck, ghost start: World,
      ghost es0: seq<Event>, ghost w0: World)
    returns (ghost w: World, ghost es: seq<Event>)
    requires Follows(start, es0, w0, inv, luck) && w0.job.PhaseTwo? && w0.job.tally.NoTally?
    requires group == Group(w0.job.free, sc) && sc in inv.schedules
    modifies inv`seats, inv`schedules, inv`dirty
    ensures Follows(start, es, w, inv, luck) && inv.seats.Keys == old(inv.seats.Keys)
    ensures w.job == PhaseTwo(Without(w0.job.free, sc), NoTally)
    ensures FreesGroup(old(inv.State()), inv.State(), sc, group, luck)
  {
    if !luck.free(sc) {
      Extend(start, es0, w0, SkipGroup(sc));
      w, es := Next(w0, SkipGroup(sc), 0), es0 + [SkipGroup(sc)];
      return;
    }
    inv.seats := EditSeats(inv.seats, sc, group, FreeIfLocked);
    assert inv.seats.Keys == old(inv.seats.Keys);
    inv.dirty := inv.dirty + {sc};
    Extend(start, es0, w0, FreeGroup(sc));
    w, es := Next(w0, FreeGroup(sc), 0), es0 + [FreeGroup(sc)];
    if luck.recountFreed(sc) {
      w, es := RecountAndPublish(inv, sc, luck, start, es, w);
    } else {
      Extend(start, es, w, FailRecount);
      w, es := Next(w, FailRecount, 0), es + [FailRecount];
    }
  }
}
