/** Where the lock-expiry job does not hold what its comments promise: a shortest run for each place,
    and when it does. */
module ExpiryRaces {
  import opened Ledger
  import opened LedgerRuns
  import opened LedgerAgreement

  const SEAT := SeatKey(1, 7)
  const ROW := RowId(0, 7)
  const HELD := SegRow(1, 2, 5, Locked, 4, Some(60), None)

  function OneSeat(seat: Seat, counts: Counts, rows: Rows, nextHold: nat): Db {
    Db(map[1 := Schedule(true, 1, counts)], map[SEAT := seat], rows, {ScheduleCreated(1)}, nextHold)
  }

  /** A schedule with one seat, and that seat held for stops 2 to 5 from time 0 to time 60. */
  const HELD_DB := OneSeat(Seat(Locked, Some(4), Some(60), None), Counts(0, 1, 0), map[ROW := HELD], 1)
  const BOOKED_DB := OneSeat(Seat(Booked, Some(4), Some(60), None), Counts(0, 0, 1),
                             map[ROW := HELD.(status := Booked, booking := Some(9), expires := None)], 1)

  lemma {:induction false} CountsOfOne(seat: Seat, rows: Rows, n: nat, c: Counts)
    ensures var db := OneSeat(seat, c, rows, n);
            CountSeats(db.seats, 1) == Counts(if seat.status == Available then 1 else 0,
                                              if seat.status == Locked then 1 else 0,
                                              if seat.status == Booked then 1 else 0)
  {
    var seats := OneSeat(seat, c, rows, n).seats;
    forall status ensures Showing(seats, 1, status) == if seat.status == status then {SEAT} else {} {}
  }

  const OPEN_DB := OneSeat(FREE, Counts(1, 0, 0), map[], 0)

  lemma {:induction false} Opening()
    ensures InitializeInventory(EMPTY, 1, [7]) == OPEN_DB
  {
    assert Members([7]) == {7};
    assert InitializeInventory(EMPTY, 1, [7]).seats == OPEN_DB.seats;
  }

  lemma {:induction false} Holding()
    ensures LockSeats(OPEN_DB, 1, [7], 4, 60, 2, 5).0 == HELD_DB
  {
    assert Found(OPEN_DB.seats, 1, [7]) == {7};
    var db1 := Inserted(OPEN_DB, 1, {7}, HELD, 60);
    assert db1.rows == map[ROW := HELD];
    assert IsFor(db1.rows, ROW, 1, 7);
    assert Recompute(db1, 1, {7}).seats == HELD_DB.seats;
    CountsOfOne(HELD_DB.seats[SEAT], db1.rows, 1, Counts(1, 0, 0));
  }

  lemma {:induction false} Confirming()
    ensures ConfirmSeats(HELD_DB, 1, [7], 4, 9, 2, 5).0 == BOOKED_DB
  {
    assert Found(HELD_DB.seats, 1, [7]) == {7};
    var hit := Named(HELD_DB.rows, 1, {7}, 4, 2, 5);
    assert ROW in hit && hit == {ROW};
    var db1 := HELD_DB.(rows := BookRows(HELD_DB.rows, hit, 9));
    assert db1.rows == BOOKED_DB.rows;
    assert IsFor(db1.rows, ROW, 1, 7);
    assert Recompute(db1, 1, {7}).seats == BOOKED_DB.seats;
    CountsOfOne(BOOKED_DB.seats[SEAT], db1.rows, 1, Counts(0, 1, 0));
  }

  function Play(w: World, es: seq<Event>): World {
    Run(w, es, 60)
  }

  lemma {:induction false} PlayStep(w: World, e: Event, es: seq<Event>)
    ensures Play(w, [e] + es) == Play(Next(w, e, 60), es)
  {
    assert ([e] + es)[1..] == es;
  }

  const HOLD_IT := [Request(Create(1, [7])), Request(Lock(1, [7], 4, 2, 5))]

  lemma {:induction false} NothingOwed(db: Db, op: Op, expires: int)
    ensures AfterRequest(NOTHING, db, op, expires) == NOTHING
  {
  }

  /** The world at rest, with nothing owed. */
  function At(db: Db, job: Job, clock: int): World {
    World(db, job, clock, NOTHING)
  }

  lemma {:induction false} Held(es: seq<Event>)
    ensures Play(START, HOLD_IT + es) == Play(At(HELD_DB, Idle, 0), es)
  {
    var e0, e1 := HOLD_IT[0], HOLD_IT[1];
    assert HOLD_IT + es == [e0] + ([e1] + es);
    Opened([e1] + es);
    PlayStep(At(OPEN_DB, Idle, 0), e1, es);
    Holding();
    NothingOwed(OPEN_DB, e1.op, 60);
  }

  lemma {:induction false} Opened(es: seq<Event>)
    ensures Play(START, [Request(Create(1, [7]))] + es) == Play(At(OPEN_DB, Idle, 0), es)
  {
    PlayStep(START, Request(Create(1, [7])), es);
    Opening();
    NothingOwed(EMPTY, Create(1, [7]), 60);
  }

  /** The first phase of a job that starts at time 60, when the hold has not yet run out. */
  lemma {:induction false} PhaseOneAt60(es: seq<Event>)
    ensures Play(At(HELD_DB, Idle, 0), [Tick(60)] + ([FindRows] + ([DropRows] + es)))
         == Play(At(HELD_DB, PhaseOne(60, {}, NoTally), 60), es)
  {
    PlayStep(At(HELD_DB, Idle, 0), Tick(60), [FindRows] + ([DropRows] + es));
    PlayStep(At(HELD_DB, Idle, 60), FindRows, [DropRows] + es);
    assert ExpiredRows(HELD_DB.rows, 60) == {} && SeatsOfRows(HELD_DB.rows, {}) == {};
    PlayStep(At(HELD_DB, FoundRows(60, {}, {}), 60), DropRows, es);
    assert DeleteRows(HELD_DB, {}) == HELD_DB && NOTHING.stale + {} == NOTHING.stale;
  }

  const FREED := Debt({1}, {SEAT}, {SEAT})

  /** Its second phase, when the clock has gone on to 61. */
  lemma {:induction false} PhaseTwoAt61(es: seq<Event>)
    ensures Play(At(HELD_DB, PhaseOne(60, {}, NoTally), 60), [Tick(61)] + ([FindSeats] + ([FreeGroup(1)] + es)))
         == Play(World(FreeSeats(HELD_DB, 1, {7}), PhaseTwo({}, ToCount(1)), 61, FREED), es)
  {
    PlayStep(At(HELD_DB, PhaseOne(60, {}, NoTally), 60), Tick(61), [FindSeats] + ([FreeGroup(1)] + es));
    PlayStep(At(HELD_DB, PhaseOne(60, {}, NoTally), 61), FindSeats, [FreeGroup(1)] + es);
    assert ExpiredSeats(HELD_DB.seats, 61) == {SEAT};
    PlayStep(At(HELD_DB, PhaseTwo({SEAT}, NoTally), 61), FreeGroup(1), es);
    OneGroup();
    assert LockedOf(HELD_DB.seats, {SEAT}) == {SEAT};
    assert Debt(NOTHING.dirty + {1}, NOTHING.stale + {SEAT}, NOTHING.undated + {SEAT}) == FREED;
  }

  lemma {:induction false} OneGroup()
    ensures Group({SEAT}, 1) == {7} && Without({SEAT}, 1) == {} && InSchedule({SEAT}, 1) == {SEAT}
  {
  }

  lemma {:induction false} FreedAt61(es: seq<Event>) returns (all: seq<Event>)
    ensures Play(START, all) == Play(World(FreeSeats(HELD_DB, 1, {7}), PhaseTwo({}, ToCount(1)), 61, FREED), es)
  {
    var second := [Tick(61)] + ([FindSeats] + ([FreeGroup(1)] + es));
    var first := [Tick(60)] + ([FindRows] + ([DropRows] + second));
    Held(first);
    PhaseOneAt60(second);
    PhaseTwoAt61(es);
    all := HOLD_IT + first;
  }

  /** The job reads the clock twice. A hold that runs out between the two readings keeps its
      row but loses its seat: a seat with a live LOCKED row shows AVAILABLE. */
  lemma {:induction false} PhaseTwoFreesALiveHold()
    ensures exists es :: var w := Play(START, es);
              w.job.PhaseTwo? && w.job.free == {} && SEAT in w.db.seats && ROW in w.db.rows
              && w.db.rows[ROW] == HELD && w.db.seats[SEAT].status == Available
  {
    var es := FreedAt61([]);
    assert Play(START, es) == World(FreeSeats(HELD_DB, 1, {7}), PhaseTwo({}, ToCount(1)), 61, FREED);
  }

  /** A recount that fails after the seats have changed is logged, and the job comes to rest with
      counters that are false. */
  lemma {:induction false} AFailedRecountLeavesFalseCounters()
    ensures exists es :: var w := Play(START, es);
              w.job == Idle && 1 in w.db.schedules && w.db.schedules[1].counts != CountSeats(w.db.seats, 1)
  {
    var rest := [FailRecount] + ([Finish] + []);
    var es := FreedAt61(rest);
    var db := FreeSeats(HELD_DB, 1, {7});
    PlayStep(World(db, PhaseTwo({}, ToCount(1)), 61, FREED), FailRecount, [Finish] + []);
    PlayStep(World(db, PhaseTwo({}, NoTally), 61, FREED), Finish, []);
    assert db.seats == map[SEAT := Seat(Available, None, None, None)];
    CountsOfOne(Seat(Available, None, None, None), db.rows, 1, Counts(0, 1, 0));
    assert Play(START, es) == World(db, Idle, 61, FREED);
  }

  // ----- counts that a request overtakes -----

  /** The expired hold is gone and its seat summarised; the schedule is about to be recounted. */
  const GONE_DB := OneSeat(FREE, Counts(0, 1, 0), map[], 1)
  const AGAIN := SegRow(1, 2, 5, Locked, 4, Some(121), None)

  /** The seat held once more, by call number 1, with these counters. */
  function AgainDb(counts: Counts): Db {
    OneSeat(Seat(Locked, Some(4), Some(121), None), counts, map[RowId(1, 7) := AGAIN], 2)
  }

  const OWING := Debt({1}, {}, {})

  lemma {:induction false} SummarisedAt61(es: seq<Event>)
    ensures Play(At(HELD_DB, Idle, 0), [Tick(61)] + ([FindRows] + ([DropRows] + ([RecomputeGroup(1)] + es))))
         == Play(World(GONE_DB, PhaseOne(61, {}, ToCount(1)), 61, OWING), es)
  {
    ListedAt61([DropRows] + ([RecomputeGroup(1)] + es));
    assert SeatsOfRows(HELD_DB.rows, {ROW}) == {SEAT};
    PlayStep(At(HELD_DB, FoundRows(61, {ROW}, {SEAT}), 61), DropRows, [RecomputeGroup(1)] + es);
    assert HELD_DB.rows - {ROW} == map[] && {} + {SEAT} == {SEAT};
    var dropped := World(HELD_DB.(rows := map[]), PhaseOne(61, {SEAT}, NoTally), 61, STALE);
    PlayStep(dropped, RecomputeGroup(1), es);
    OneGroup();
    assert Recompute(dropped.db, 1, {7}).seats == GONE_DB.seats;
    assert Debt(STALE.dirty + {1}, STALE.stale - {SEAT}, STALE.undated) == OWING;
  }

  lemma {:induction false} HeldAgain()
    ensures LockSeats(GONE_DB, 1, [7], 4, 121, 2, 5).0 == AgainDb(Counts(0, 1, 0))
    ensures AfterRequest(OWING, GONE_DB, Lock(1, [7], 4, 2, 5), 121) == NOTHING
  {
    assert Found(GONE_DB.seats, 1, [7]) == {7};
    var db1 := Inserted(GONE_DB, 1, {7}, AGAIN, 121);
    assert db1.rows == map[RowId(1, 7) := AGAIN];
    assert IsFor(db1.rows, RowId(1, 7), 1, 7);
    assert Recompute(db1, 1, {7}).seats == AgainDb(Counts(0, 1, 0)).seats;
    CountsOfOne(AgainDb(Counts(0, 1, 0)).seats[SEAT], db1.rows, 2, Counts(0, 1, 0));
  }

  const LOCK_AGAIN := Request(Lock(1, [7], 4, 2, 5))
  const COUNTED := World(GONE_DB, PhaseOne(61, {}, ToWrite(1, Counts(1, 0, 0))), 61, OWING)

  lemma {:induction false} CountedAt61(es: seq<Event>)
    ensures Play(World(GONE_DB, PhaseOne(61, {}, ToCount(1)), 61, OWING), [CountSchedule] + es) == Play(COUNTED, es)
  {
    PlayStep(World(GONE_DB, PhaseOne(61, {}, ToCount(1)), 61, OWING), CountSchedule, es);
    CountsOfOne(FREE, map[], 1, Counts(0, 1, 0));
    assert GONE_DB.seats == OneSeat(FREE, Counts(0, 1, 0), map[], 1).seats;
  }

  lemma {:induction false} LockedBetween(es: seq<Event>)
    ensures Play(COUNTED, [LOCK_AGAIN] + es) == Play(COUNTED.(db := AgainDb(Counts(0, 1, 0)), debt := NOTHING), es)
  {
    PlayStep(COUNTED, LOCK_AGAIN, es);
    HeldAgain();
    assert Deadline(61, 60) == 121;
  }

  /** At rest but for its last statements, with the older counts. */
  const MISCOUNTED := World(AgainDb(Counts(1, 0, 0)), PhaseOne(61, {}, NoTally), 61, OWING)

  lemma {:induction false} WrittenLate(es: seq<Event>)
    ensures Play(COUNTED.(db := AgainDb(Counts(0, 1, 0)), debt := NOTHING), [WriteCounts] + es) == Play(MISCOUNTED, es)
  {
    var w := COUNTED.(db := AgainDb(Counts(0, 1, 0)), debt := NOTHING);
    PlayStep(w, WriteCounts, es);
    CountsOfOne(w.db.seats[SEAT], w.db.rows, 2, Counts(0, 1, 0));
    assert SetCounts(w.db, 1, Counts(1, 0, 0)) == MISCOUNTED.db && {} + {1} == {1};
  }

  lemma {:induction false} ComesToRest()
    ensures Play(MISCOUNTED, [FindSeats] + ([Finish] + [])) == MISCOUNTED.(job := Idle)
  {
    PlayStep(MISCOUNTED, FindSeats, [Finish] + []);
    assert ExpiredSeats(MISCOUNTED.db.seats, 61) == {};
    PlayStep(MISCOUNTED.(job := PhaseTwo({}, NoTally)), Finish, []);
  }

  /** The recount is a query and an update. A lock that comes between them is overwritten by the older
      counts: the job comes to rest, nothing has failed and nothing is pending, and the counters say
      AVAILABLE of a seat that is LOCKED. */
  lemma {:induction false} ALockIsMiscounted()
    ensures exists es :: NothingFails(es) && Miscounts(Play(START, es))
  {
    var last := [FindSeats] + ([Finish] + []);
    var middle := [CountSchedule] + ([LOCK_AGAIN] + ([WriteCounts] + last));
    var es := [Tick(61)] + ([FindRows] + ([DropRows] + ([RecomputeGroup(1)] + middle)));
    Held(es);
    SummarisedAt61(middle);
    CountedAt61([LOCK_AGAIN] + ([WriteCounts] + last));
    LockedBetween([WriteCounts] + last);
    WrittenLate(last);
    ComesToRest();
    MiscountedMiscounts();
    NoneOfTheseFails(last, middle, es);
    assert Miscounts(Play(START, HOLD_IT + es));
  }

  lemma {:induction false} NoneOfTheseFails(last: seq<Event>, middle: seq<Event>, es: seq<Event>)
    requires last == [FindSeats] + ([Finish] + [])
    requires middle == [CountSchedule] + ([LOCK_AGAIN] + ([WriteCounts] + last))
    requires es == [Tick(61)] + ([FindRows] + ([DropRows] + ([RecomputeGroup(1)] + middle)))
    ensures NothingFails(HOLD_IT + es)
  {
    assert NothingFails(last);
    assert NothingFails(middle);
    assert NothingFails(es);
    assert NothingFails(HOLD_IT);
  }

  predicate Miscounts(w: World) {
    && w.job == Idle && 1 in w.db.schedules && w.db.schedules[1].counts == Counts(1, 0, 0)
    && CountSeats(w.db.seats, 1) == Counts(0, 1, 0)
  }

  lemma {:induction false} MiscountedMiscounts()
    ensures Miscounts(MISCOUNTED.(job := Idle))
  {
    CountsOfOne(MISCOUNTED.db.seats[SEAT], MISCOUNTED.db.rows, 2, Counts(1, 0, 0));
  }

  // ----- a caught failure of phase one -----

  const NEXT_ROW := RowId(1, 7)
  const NEXT_HELD := SegRow(1, 5, 8, Locked, 5, Some(60), None)

  /** The seat sold for stops 2 to 5, and held for stops 5 to 8. */
  const SOLD_AND_HELD_DB := OneSeat(Seat(Locked, Some(4), Some(60), None), Counts(0, 1, 0),
                                    map[ROW := BOOKED_DB.rows[ROW], NEXT_ROW := NEXT_HELD], 2)

  lemma {:induction false} HoldingNext()
    ensures LockSeats(BOOKED_DB, 1, [7], 5, 60, 5, 8).0 == SOLD_AND_HELD_DB
  {
    assert Found(BOOKED_DB.seats, 1, [7]) == {7};
    assert !Blocked(BOOKED_DB.rows, 1, {7}, 5, 8);
    var db1 := Inserted(BOOKED_DB, 1, {7}, NEXT_HELD, 60);
    assert db1.rows == SOLD_AND_HELD_DB.rows;
    assert IsFor(db1.rows, NEXT_ROW, 1, 7);
    assert Recompute(db1, 1, {7}).seats == SOLD_AND_HELD_DB.seats;
    CountsOfOne(SOLD_AND_HELD_DB.seats[SEAT], db1.rows, 2, Counts(0, 0, 1));
  }

  lemma {:induction false} SoldAndHeld(es: seq<Event>) returns (all: seq<Event>)
    ensures Play(START, all) == Play(At(SOLD_AND_HELD_DB, Idle, 0), es)
  {
    var e2, e3 := Request(Confirm(1, [7], 4, 9, 2, 5)), Request(Lock(1, [7], 5, 5, 8));
    Held([e2] + ([e3] + es));
    PlayStep(At(HELD_DB, Idle, 0), e2, [e3] + es);
    Confirming();
    NothingOwed(HELD_DB, e2.op, 60);
    PlayStep(At(BOOKED_DB, Idle, 0), e3, es);
    HoldingNext();
    NothingOwed(BOOKED_DB, e3.op, 60);
    all := HOLD_IT + ([e2] + ([e3] + es));
  }

  const DROPPED_DB := SOLD_AND_HELD_DB.(rows := BOOKED_DB.rows)
  const STALE := Debt({}, {SEAT}, {})

  lemma {:induction false} NextRowRunsOut()
    ensures ExpiredRows(SOLD_AND_HELD_DB.rows, 61) == {NEXT_ROW}
    ensures SeatsOfRows(SOLD_AND_HELD_DB.rows, {NEXT_ROW}) == {SEAT}
    ensures DeleteRows(SOLD_AND_HELD_DB, {NEXT_ROW}) == DROPPED_DB
  {
    assert SOLD_AND_HELD_DB.rows - {NEXT_ROW} == BOOKED_DB.rows;
  }

  lemma {:induction false} DropAt61(es: seq<Event>)
    ensures Play(At(SOLD_AND_HELD_DB, Idle, 0), [Tick(61)] + ([FindRows] + ([DropRows] + es)))
         == Play(World(DROPPED_DB, PhaseOne(61, {SEAT}, NoTally), 61, STALE), es)
  {
    var db := SOLD_AND_HELD_DB;
    PlayStep(At(db, Idle, 0), Tick(61), [FindRows] + ([DropRows] + es));
    PlayStep(At(db, Idle, 61), FindRows, [DropRows] + es);
    NextRowRunsOut();
    PlayStep(At(db, FoundRows(61, {NEXT_ROW}, {SEAT}), 61), DropRows, es);
    assert NOTHING.(stale := NOTHING.stale + {SEAT}) == STALE;
  }

  /** When a statement of phase one fails after its delete, its error is caught and phase two frees a
      LOCKED seat that has been sold: the seat shows AVAILABLE and its BOOKED row is still there.
      Both clock readings are 61, so the window between them is quiet. */
  lemma {:induction false} PhaseTwoFreesASoldSeat()
    ensures exists es :: var w := Play(START, es);
              && w.job == PhaseOneFailed(w.clock) && Quiet(w, {SEAT})
              && ROW in w.db.rows && w.db.rows[ROW].status == Booked
              && var w2 := Next(Next(w, FindSeats, 60), FreeGroup(1), 60);
                 w2.db.rows == w.db.rows && SEAT in w2.db.seats && w2.db.seats[SEAT].status == Available
  {
    var es := SoldAndHeld([Tick(61)] + ([FindRows] + ([DropRows] + ([FailPhaseOne] + []))));
    DropAt61([FailPhaseOne] + []);
    PlayStep(World(DROPPED_DB, PhaseOne(61, {SEAT}, NoTally), 61, STALE), FailPhaseOne, []);
    var w := World(DROPPED_DB, PhaseOneFailed(61), 61, STALE);
    assert Play(START, es) == w;
    assert ExpiredSeats(DROPPED_DB.seats, 61) == {SEAT};
    OneGroup();
    var w2 := Next(Next(w, FindSeats, 60), FreeGroup(1), 60);
    assert w2.db == FreeSeats(DROPPED_DB, 1, {7});
  }

  // ----- confirmations that come late -----

  lemma {:induction false} ListedAt61(es: seq<Event>)
    ensures Play(At(HELD_DB, Idle, 0), [Tick(61)] + ([FindRows] + es))
         == Play(At(HELD_DB, FoundRows(61, {ROW}, SeatsOfRows(HELD_DB.rows, {ROW})), 61), es)
  {
    PlayStep(At(HELD_DB, Idle, 0), Tick(61), [FindRows] + es);
    PlayStep(At(HELD_DB, Idle, 61), FindRows, es);
    assert ExpiredRows(HELD_DB.rows, 61) == {ROW};
  }

  /** The job deletes by primary key what it found LOCKED and expired. A confirmation that
      lands between the two statements, which no clock check refuses, is deleted with it. */
  lemma {:induction false} AConfirmedRowIsDeleted()
    ensures exists es :: var w := Play(START, es);
              && ROW in w.db.rows && w.db.rows[ROW].status == Booked && w.job.FoundRows?
              && ROW !in Next(w, DropRows, 60).db.rows
  {
    var es := [Tick(61)] + ([FindRows] + ([LATE] + []));
    Held(es);
    ListedAt61([LATE] + []);
    ConfirmedLate();
    assert Play(START, HOLD_IT + es) == LISTED.(db := BOOKED_DB);
  }

  const LATE := Request(Confirm(1, [7], 4, 9, 2, 5))
  const LISTED := At(HELD_DB, FoundRows(61, {ROW}, SeatsOfRows(HELD_DB.rows, {ROW})), 61)

  lemma {:induction false} ConfirmedLate()
    ensures Play(LISTED, [LATE] + []) == LISTED.(db := BOOKED_DB)
  {
    PlayStep(LISTED, LATE, []);
    Confirming();
    NothingOwed(HELD_DB, LATE.op, 121);
  }

  /** The rows that a segment confirmation names. */
  function NamedBy(db: Db, op: Op): set<RowId>
    requires op.Confirm?
  {
    Named(db.rows, op.sc, Found(db.seats, op.sc, op.ids), op.user, op.from, op.to)
  }

  /** A segment confirmation arrives no later than the rows it names expire: the check that the
      comment of confirmSeats speaks of and its code does not make. */
  predicate OnTime(db: Db, op: Op, clock: int) {
    op.Confirm? && IsSegment(op.from, op.to) ==> forall k | k in NamedBy(db, op) :: !Before(db.rows[k].expires, clock)
  }

  predicate OnTimeRun(w: World, es: seq<Event>, ttl: nat)
    decreases |es|
  {
    es != [] ==> (es[0].Request? ==> OnTime(w.db, es[0].op, w.clock)) && OnTimeRun(Next(w, es[0], ttl), es[1..], ttl)
  }

  /** What the job has listed and not yet deleted was found past its expiry. */
  predicate ListIsPast(w: World) {
    w.job.FoundRows? ==>
      && w.job.now <= w.clock
      && forall k | k in w.job.ids && k in w.db.rows ::
           k.hold < w.db.nextHold && (w.db.rows[k].status == Locked ==> Before(w.db.rows[k].expires, w.job.now))
  }

  predicate ListedAreOld(w: World) {
    w.job.FoundRows? ==> forall k | k in w.job.ids :: k.hold < w.db.nextHold
  }

  predicate ListIsLocked(w: World) {
    w.job.FoundRows? ==> forall k | k in w.job.ids && k in w.db.rows :: w.db.rows[k].status == Locked
  }

  lemma {:induction false} NextKeepsPast(w: World, e: Event, ttl: nat)
    requires SafeWorld(w) && ListIsPast(w) && ListedAreOld(w)
    ensures ListIsPast(Next(w, e, ttl)) && ListedAreOld(Next(w, e, ttl))
  {
    if e.Request? {
      RowsKeepIdentity(w.db, e.op, Deadline(w.clock, ttl));
    }
  }

  /** An on-time confirmation names no listed row. */
  lemma {:induction false} NextKeepsLocked(w: World, e: Event, ttl: nat)
    requires SafeWorld(w) && ListIsPast(w) && ListedAreOld(w) && ListIsLocked(w)
    requires e.Request? ==> OnTime(w.db, e.op, w.clock)
    ensures ListIsLocked(Next(w, e, ttl))
  {
    if e.Request? {
      ServeRows(w.db, e.op, Deadline(w.clock, ttl));
    }
  }

  lemma {:induction false} RunKeepsLocked(w: World, es: seq<Event>, ttl: nat)
    requires SafeWorld(w) && ListIsPast(w) && ListedAreOld(w) && ListIsLocked(w) && OnTimeRun(w, es, ttl)
    ensures SafeWorld(Run(w, es, ttl)) && ListIsPast(Run(w, es, ttl)) && ListIsLocked(Run(w, es, ttl))
    decreases |es|
  {
    if es != [] {
      NextIsSafe(w, es[0], ttl);
      NextKeepsPast(w, es[0], ttl);
      NextKeepsLocked(w, es[0], ttl);
      RunKeepsLocked(Next(w, es[0], ttl), es[1..], ttl);
    }
  }

  /** In every run whose segment confirmations arrive on time, whatever fails in the job, its delete
      spares every BOOKED row. */
  lemma {:induction false} OnTimeSalesAreKept(es: seq<Event>, ttl: nat, k: RowId)
    requires OnTimeRun(START, es, ttl)
    requires k in Run(START, es, ttl).db.rows && Run(START, es, ttl).db.rows[k].status == Booked
    ensures k in Next(Run(START, es, ttl), DropRows, ttl).db.rows
  {
    RunKeepsLocked(START, es, ttl);
  }

  lemma {:induction false} RunKeepsPast(w: World, es: seq<Event>, ttl: nat)
    requires SafeWorld(w) && ListIsPast(w) && ListedAreOld(w)
    ensures SafeWorld(Run(w, es, ttl)) && ListIsPast(Run(w, es, ttl)) && ListedAreOld(Run(w, es, ttl))
    decreases |es|
  {
    if es != [] {
      NextIsSafe(w, es[0], ttl);
      NextKeepsPast(w, es[0], ttl);
      RunKeepsPast(Next(w, es[0], ttl), es[1..], ttl);
    }
  }

  /** The converse: in any run at all, a granted segment confirmation that comes between the job's
      query and its delete loses a row to the delete exactly when it names a listed row, and every
      such row was past its expiry when the confirmation came. */
  lemma {:induction false} ConfirmIsUndoneIff(es: seq<Event>, op: Op, ttl: nat)
    requires var w := Run(START, es, ttl);
             && w.job.FoundRows? && op.Confirm? && IsSegment(op.from, op.to)
             && ConfirmSeats(w.db, op.sc, op.ids, op.user, op.booking, op.from, op.to).1.Done?
    ensures var w := Run(START, es, ttl);
            var dropped := Next(Next(w, Request(op), ttl), DropRows, ttl);
            && (forall k | k in NamedBy(w.db, op) :: k !in dropped.db.rows <==> k in w.job.ids)
            && (forall k | k in NamedBy(w.db, op) && k in w.job.ids :: Before(w.db.rows[k].expires, w.clock))
  {
    RunKeepsPast(START, es, ttl);
    var w := Run(START, es, ttl);
    ServeRows(w.db, op, Deadline(w.clock, ttl));
  }
}
