/** Why NoDoubleSale asks for confirmations on time. Segment rows are keyed by user, and a
    confirmation is content with one updated row: when a user's hold on two seats has run out, the
    expiry job has deleted it, and the same user holds one of the seats again for another booking,
    a late confirmation of the first booking succeeds on that one row. The other seat goes to the
    next buyer, and two CONFIRMED tickets share its legs. */
module DoubleSale {
  import opened Ledger
  import L = LedgerRuns
  import opened Saga
  import C = SagaControl
  import SS = SagaService
  import T = SagaTime
  import P = Payments
  import R = PaymentRuns

  predicate Tidy(rows: Rows, next: nat) {
    forall k | k in rows :: k.hold < next && Active(rows[k]) && rows[k].sched == 1 && (k.seat == 7 || k.seat == 8)
  }

  /** Schedule 1 with seats 7 and 8, these segment rows, and this number for the next hold. */
  predicate Depot(db: Db, rows: Rows, next: nat) {
    && db.rows == rows && db.nextHold == next && Tidy(rows, next)
    && db.seats.Keys == {SeatKey(1, 7), SeatKey(1, 8)} && 1 in db.schedules && db.schedules[1].active
  }

  predicate Asks(ids: seq<SeatId>) {
    ids == [7] || ids == [8] || ids == [7, 8]
  }

  lemma {:induction false} AllThere(db: Db, ids: seq<SeatId>)
    requires db.seats.Keys == {SeatKey(1, 7), SeatKey(1, 8)} && Asks(ids)
    ensures Found(db.seats, 1, ids) == Members(ids) && |Members(ids)| == |ids|
  {
    MembersOf(ids);
    assert SeatKey(1, 7) in db.seats.Keys && SeatKey(1, 8) in db.seats.Keys;
  }

  lemma {:induction false} MembersOf(ids: seq<SeatId>)
    requires Asks(ids)
    ensures |Members(ids)| == |ids| && forall x :: x in Members(ids) <==> x in ids
    ensures forall x | x in ids :: x == 7 || x == 8
  {
    assert Members([7]) == {7} && Members([8]) == {8} && Members([7, 8]) == {7, 8};
  }

  /** A row of a hold taken at time `now`. */
  function RowOf(user: UserId, now: int): SegRow {
    SegRow(1, 2, 5, Locked, user, Some(L.Deadline(now, 60)), None)
  }

  lemma {:induction false} Opened()
    ensures Depot(InitializeInventory(EMPTY, 1, [7, 8]), map[], 0)
  {
    assert Members([7, 8]) == {7, 8};
    var seats := InitializeInventory(EMPTY, 1, [7, 8]).seats;
    forall k ensures k in seats <==> k in {SeatKey(1, 7), SeatKey(1, 8)} {
      assert k.seat in [7, 8] ==> k.seat == 7 || k.seat == 8;
    }
  }

  lemma {:induction false} SettleKeepsShape(db: Db, S: set<SeatId>)
    requires 1 in db.schedules
    ensures var (db', reply) := Settle(db, 1, S);
            reply.Done? && db'.rows == db.rows && db'.nextHold == db.nextHold && db'.seats.Keys == db.seats.Keys
            && 1 in db'.schedules && db'.schedules[1].active == db.schedules[1].active
  {
    assert Recompute(db, 1, S).seats.Keys == db.seats.Keys;
  }

  lemma {:induction false} LockIsGranted(db: Db, rows: Rows, next: nat, ids: seq<SeatId>, user: UserId, now: int)
    returns (db': Db, reply: Reply)
    requires Depot(db, rows, next) && Asks(ids) && forall k | k in rows :: k.seat !in ids
    ensures (db', reply) == LockSeats(db, 1, ids, user, L.Deadline(now, 60), 2, 5)
    ensures reply.Done? && Depot(db', rows + NewRows(next, Members(ids), RowOf(user, now)), next + 1)
  {
    AllThere(db, ids);
    MembersOf(ids);
    var S := Members(ids);
    assert !Blocked(db.rows, 1, S, 2, 5);
    var db1 := Inserted(db, 1, S, RowOf(user, now), L.Deadline(now, 60));
    assert db1.seats.Keys == db.seats.Keys;
    SettleKeepsShape(db1, S);
    var (d, r) := LockSeats(db, 1, ids, user, L.Deadline(now, 60), 2, 5);
    db', reply := d, r;
  }

  lemma {:induction false} ConfirmIsGranted(db: Db, rows: Rows, next: nat, ids: seq<SeatId>, user: UserId,
      b: BookingId, hit: set<RowId>)
    returns (db': Db, reply: Reply)
    requires Depot(db, rows, next) && Asks(ids) && hit != {} && Named(rows, 1, Members(ids), user, 2, 5) == hit
    ensures (db', reply) == ConfirmSeats(db, 1, ids, user, b, 2, 5)
    ensures reply.Done? && Depot(db', BookRows(rows, hit, b), next)
  {
    AllThere(db, ids);
    SettleKeepsShape(db.(rows := BookRows(rows, hit, b)), Members(ids));
    var (d, r) := ConfirmSeats(db, 1, ids, user, b, 2, 5);
    db', reply := d, r;
  }

  // ----- pieces of the run -----

  /** The run that has come to `s`, and goes on with `e`. */
  predicate Leads(es: seq<Step>, s: Sys) {
    SS.Reaches(START, es, s)
  }

  lemma {:induction false} OneStep(es: seq<Step>, s: Sys, e: Step, s': Sys)
    requires Leads(es, s) && s' == Next(s, e)
    ensures Leads(es + [e], s')
  {
    SS.Then(START, es, s, e);
  }

  /** A state of the run: its tables, and which bookings and processes there are. */
  predicate Stand(s: Sys, rows: Rows, next: nat, bs: set<BookingId>, ps: set<ProcId>, now: int) {
    && s.clock == now && Depot(s.db, rows, next) && s.due == map[]
    && s.bookings.Keys == bs && s.pay.orders.Keys == bs && s.procs.Keys == ps
  }

  /** Booking `b` of these seats, by this user, for stops 2 to 5. */
  predicate For(bk: Booking, ids: seq<SeatId>, user: UserId) {
    bk.sched == 1 && bk.seats == ids && bk.user == user && bk.from == 2 && bk.to == 5
  }

  /** It waits for its payment, which has been made. */
  predicate Waiting(s: Sys, b: BookingId, ids: seq<SeatId>, user: UserId) {
    && b in s.bookings && Paid(s.pay, b) && For(s.bookings[b], ids, user)
    && s.bookings[b].status == PaymentPending && s.bookings[b].ordered && !s.bookings[b].creating
  }

  predicate Sold(s: Sys, b: BookingId, ids: seq<SeatId>, user: UserId) {
    b in s.bookings && s.bookings[b].status == Confirmed && For(s.bookings[b], ids, user)
  }

  /** What the pieces of the run leave alone. */
  predicate Others(s: Sys, s': Sys, b: BookingId) {
    && s'.clock == s.clock && s'.due == s.due
    && (forall c | c in s.bookings && c != b :: c in s'.bookings && s'.bookings[c] == s.bookings[c])
    && (forall o | o in s.pay.orders && o != b :: o in s'.pay.orders && s'.pay.orders[o] == s.pay.orders[o])
  }

  lemma {:induction false} Record(s: Sys, p: ProcId, b: BookingId, ids: seq<SeatId>, user: UserId) returns (s': Sys)
    requires p !in s.procs && b !in s.bookings && Asks(ids)
    ensures s' == BookStep(s, Book(p, b, 1, ids, user, 2, 5, 100)) && s'.db == s.db && s'.pay == s.pay
    ensures s'.procs.Keys == s.procs.Keys + {p} && s'.bookings.Keys == s.bookings.Keys + {b} && Others(s, s', b)
    ensures At(s', p, Creation, Holding) && s'.procs[p].booking == b
    ensures For(s'.bookings[b], ids, user) && s'.bookings[b].amount == 100
  {
    s' := BookStep(s, Book(p, b, 1, ids, user, 2, 5, 100));
  }

  lemma {:induction false} HoldFor(s: Sys, rows: Rows, next: nat, p: ProcId, b: BookingId, ids: seq<SeatId>,
      user: UserId)
    returns (s': Sys)
    requires Depot(s.db, rows, next) && At(s, p, Creation, Holding)
    requires s.procs[p].booking == b && For(s.bookings[b], ids, user) && Asks(ids)
    requires s.bookings[b].amount == 100 && forall k | k in rows :: k.seat !in ids
    ensures s' == HoldStep(s, p, true, L.Deadline(s.clock, 60))
    ensures Depot(s'.db, rows + NewRows(next, Members(ids), RowOf(user, s.clock)), next + 1)
    ensures s'.pay == s.pay && s'.procs.Keys == s.procs.Keys && s'.bookings.Keys == s.bookings.Keys && Others(s, s', b)
    ensures At(s', p, Creation, Paying) && s'.procs[p].booking == b
    ensures For(s'.bookings[b], ids, user) && s'.bookings[b].amount == 100
  {
    var db, reply := LockIsGranted(s.db, rows, next, ids, user, s.clock);
    C.HoldShape(s, p, true, L.Deadline(s.clock, 60), db, reply);
    s' := HoldStep(s, p, true, L.Deadline(s.clock, 60));
  }

  lemma {:induction false} BookAndHold(s: Sys, rows: Rows, next: nat, p: ProcId, b: BookingId, ids: seq<SeatId>,
      user: UserId)
    returns (s': Sys)
    requires Depot(s.db, rows, next) && p !in s.procs && b !in s.bookings
    requires Asks(ids) && forall k | k in rows :: k.seat !in ids
    ensures s' == HoldStep(BookStep(s, Book(p, b, 1, ids, user, 2, 5, 100)), p, true, L.Deadline(s.clock, 60))
    ensures Depot(s'.db, rows + NewRows(next, Members(ids), RowOf(user, s.clock)), next + 1)
    ensures s'.pay == s.pay && s'.procs.Keys == s.procs.Keys + {p}
    ensures s'.bookings.Keys == s.bookings.Keys + {b} && Others(s, s', b)
    ensures At(s', p, Creation, Paying) && s'.procs[p].booking == b
    ensures For(s'.bookings[b], ids, user) && s'.bookings[b].amount == 100
  {
    var s1 := Record(s, p, b, ids, user);
    s' := HoldFor(s1, rows, next, p, b, ids, user);
  }

  lemma {:induction false} PayAndCapture(s: Sys, p: ProcId, b: BookingId) returns (s': Sys)
    requires At(s, p, Creation, Paying) && s.procs[p].booking == b && s.bookings[b].amount == 100
    requires b !in s.pay.orders && s.due == map[]
    ensures s' == PayStep(s, p, true).(pay := P.WriteCaptured(P.CreateOrder(s.pay, b, 100), b))
    ensures s'.db == s.db && s'.procs.Keys == s.procs.Keys
    ensures s'.pay.orders.Keys == s.pay.orders.Keys + {b} && Paid(s'.pay, b)
    ensures var paid := Logged(s.bookings[b], CreatePayment, true);
            s'.bookings == s.bookings[b := paid.(status := PaymentPending, ordered := true, creating := false)]
    ensures Others(s, s', b)
  {
    s' := PayStep(s, p, true).(pay := P.WriteCaptured(P.CreateOrder(s.pay, b, 100), b));
  }

  /** The two statements of a capture. */
  lemma {:induction false} Captures(es: seq<Step>, s: Sys, b: BookingId) returns (es': seq<Step>)
    requires Leads(es, s) && s.due == map[] && P.IsIn(s.pay, b, P.Created)
    ensures Leads(es', s.(pay := P.WriteCaptured(s.pay, b)))
  {
    var s1 := s.(due := map[0 := R.ToCapture(b)]);
    OneStep(es, s, Gateway(R.BeginCapture(0, b)), s1);
    assert s1.due - {0} == map[];
    OneStep(es + [Gateway(R.BeginCapture(0, b))], s1, Gateway(R.Write(0)), s.(pay := P.WriteCaptured(s.pay, b)));
    es' := es + [Gateway(R.BeginCapture(0, b))] + [Gateway(R.Write(0))];
  }

  /** createBooking as far as the hold. */
  lemma {:induction false} BuyHold(es: seq<Step>, s: Sys, rows: Rows, next: nat, p: ProcId, b: BookingId,
      ids: seq<SeatId>, user: UserId)
    returns (es': seq<Step>, s': Sys)
    requires Leads(es, s) && Depot(s.db, rows, next) && p !in s.procs
    requires b !in s.bookings && Asks(ids) && forall k | k in rows :: k.seat !in ids
    ensures Leads(es', s') && Depot(s'.db, rows + NewRows(next, Members(ids), RowOf(user, s.clock)), next + 1)
    ensures s'.pay == s.pay && s'.procs.Keys == s.procs.Keys + {p}
    ensures s'.bookings.Keys == s.bookings.Keys + {b} && Others(s, s', b)
    ensures At(s', p, Creation, Paying) && s'.procs[p].booking == b
    ensures For(s'.bookings[b], ids, user) && s'.bookings[b].amount == 100
  {
    s' := BookAndHold(s, rows, next, p, b, ids, user);
    es' := BookRun(es, s, Book(p, b, 1, ids, user, 2, 5, 100), s', p);
  }

  lemma {:induction false} BookRun(es: seq<Step>, s: Sys, e: Step, s': Sys, p: ProcId) returns (es': seq<Step>)
    requires Leads(es, s) && e.Book? && s' == HoldStep(BookStep(s, e), p, true, L.Deadline(s.clock, 60))
    ensures Leads(es', s')
  {
    OneStep(es, s, e, BookStep(s, e));
    OneStep(es + [e], BookStep(s, e), Hold(p, true, 60), s');
    es' := es + [e] + [Hold(p, true, 60)];
  }

  /** The payment order, and its capture. */
  lemma {:induction false} BuyPay(es: seq<Step>, s: Sys, p: ProcId, b: BookingId) returns (es': seq<Step>, s': Sys)
    requires Leads(es, s) && At(s, p, Creation, Paying) && s.procs[p].booking == b
    requires s.bookings[b].amount == 100 && b !in s.pay.orders && s.due == map[]
    ensures Leads(es', s') && s'.db == s.db && s'.procs.Keys == s.procs.Keys
    ensures s'.pay.orders.Keys == s.pay.orders.Keys + {b} && Paid(s'.pay, b)
    ensures var paid := Logged(s.bookings[b], CreatePayment, true);
            s'.bookings == s.bookings[b := paid.(status := PaymentPending, ordered := true, creating := false)]
    ensures Others(s, s', b)
  {
    s' := PayAndCapture(s, p, b);
    OneStep(es, s, Pay(p, true), PayStep(s, p, true));
    es' := Captures(es + [Pay(p, true)], PayStep(s, p, true), b);
  }

  /** createBooking and a captured payment. */
  lemma {:induction false} Buy(es: seq<Step>, s: Sys, rows: Rows, next: nat, bs: set<BookingId>, ps: set<ProcId>,
      now: int, p: ProcId, b: BookingId, ids: seq<SeatId>, user: UserId)
    returns (es': seq<Step>, s': Sys)
    requires Leads(es, s) && Stand(s, rows, next, bs, ps, now) && p !in ps
    requires b !in bs && Asks(ids) && forall k | k in rows :: k.seat !in ids
    ensures Leads(es', s')
    ensures Stand(s', rows + NewRows(next, Members(ids), RowOf(user, now)), next + 1, bs + {b}, ps + {p}, now)
    ensures Waiting(s', b, ids, user) && Others(s, s', b)
  {
    es', s' := BuyHold(es, s, rows, next, p, b, ids, user);
    es', s' := BuyPay(es', s', p, b);
  }

  lemma {:induction false} ReadAndClaim(s: Sys, p: ProcId, b: BookingId) returns (s': Sys)
    requires p !in s.procs && b in s.bookings && !s.bookings[b].creating
    requires Paid(s.pay, b) && s.bookings[b].status == PaymentPending
    ensures s' == ClaimStep(ReadStep(SpawnStep(s, p, Success, b), p), p)
    ensures s'.db == s.db && s'.pay == s.pay && s'.due == s.due
    ensures s'.procs.Keys == s.procs.Keys + {p} && s'.clock == s.clock
    ensures At(s', p, Success, Calling) && s'.procs[p].booking == b
    ensures var bk := s.bookings[b];
            s'.bookings == s.bookings[b := bk.(status := Confirming, version := bk.version + 1, claimer := p)]
  {
    s' := ClaimStep(ReadStep(SpawnStep(s, p, Success, b), p), p);
  }

  lemma {:induction false} CallAndFinish(s: Sys, rows: Rows, next: nat, p: ProcId, b: BookingId, ids: seq<SeatId>,
      user: UserId, hit: set<RowId>)
    returns (s': Sys)
    requires Depot(s.db, rows, next) && At(s, p, Success, Calling)
    requires s.procs[p].booking == b && For(s.bookings[b], ids, user) && Asks(ids)
    requires s.bookings[b].status == Confirming && hit != {} && Named(rows, 1, Members(ids), user, 2, 5) == hit
    ensures s' == FinishStep(CallStep(s, p, true), p, true)
    ensures Depot(s'.db, BookRows(rows, hit, b), next) && s'.pay == s.pay && s'.procs.Keys == s.procs.Keys
    ensures s'.bookings.Keys == s.bookings.Keys && Sold(s', b, ids, user) && Others(s, s', b)
  {
    var db, reply := ConfirmIsGranted(s.db, rows, next, ids, user, b, hit);
    C.CallShape(s, p, db, reply);
    s' := FinishStep(CallStep(s, p, true), p, true);
  }

  /** handlePaymentSuccess as far as its claim. */
  lemma {:induction false} ConfirmClaim(es: seq<Step>, s: Sys, p: ProcId, b: BookingId)
    returns (es': seq<Step>, s': Sys)
    requires Leads(es, s) && p !in s.procs && b in s.bookings && !s.bookings[b].creating
    requires Paid(s.pay, b) && s.bookings[b].status == PaymentPending
    ensures Leads(es', s')
    ensures s'.db == s.db && s'.pay == s.pay && s'.due == s.due
    ensures s'.procs.Keys == s.procs.Keys + {p} && s'.clock == s.clock
    ensures At(s', p, Success, Calling) && s'.procs[p].booking == b
    ensures var bk := s.bookings[b];
            s'.bookings == s.bookings[b := bk.(status := Confirming, version := bk.version + 1, claimer := p)]
  {
    s' := ReadAndClaim(s, p, b);
    var s1 := SpawnStep(s, p, Success, b);
    var s2 := ReadStep(s1, p);
    OneStep(es, s, Spawn(p, Success, b), s1);
    OneStep(es + [Spawn(p, Success, b)], s1, Read(p), s2);
    OneStep(es + [Spawn(p, Success, b)] + [Read(p)], s2, Claim(p), s');
    es' := es + [Spawn(p, Success, b)] + [Read(p)] + [Claim(p)];
  }

  /** Its call of confirmSeats, and its last write. */
  lemma {:induction false} ConfirmCall(es: seq<Step>, s: Sys, rows: Rows, next: nat, p: ProcId, b: BookingId,
      ids: seq<SeatId>, user: UserId, hit: set<RowId>)
    returns (es': seq<Step>, s': Sys)
    requires Leads(es, s) && Depot(s.db, rows, next) && At(s, p, Success, Calling) && s.procs[p].booking == b
    requires For(s.bookings[b], ids, user) && Asks(ids)
    requires s.bookings[b].status == Confirming && hit != {} && Named(rows, 1, Members(ids), user, 2, 5) == hit
    ensures Leads(es', s') && Depot(s'.db, BookRows(rows, hit, b), next)
    ensures s'.pay == s.pay && s'.procs.Keys == s.procs.Keys
    ensures s'.bookings.Keys == s.bookings.Keys && Sold(s', b, ids, user) && Others(s, s', b)
  {
    s' := CallAndFinish(s, rows, next, p, b, ids, user, hit);
    es' := FinishRun(es, s, p, s');
  }

  lemma {:induction false} FinishRun(es: seq<Step>, s: Sys, p: ProcId, s': Sys) returns (es': seq<Step>)
    requires Leads(es, s) && s' == FinishStep(CallStep(s, p, true), p, true)
    ensures Leads(es', s')
  {
    OneStep(es, s, Call(p, true), CallStep(s, p, true));
    OneStep(es + [Call(p, true)], CallStep(s, p, true), Finish(p, true), s');
    es' := es + [Call(p, true)] + [Finish(p, true)];
  }

  /** handlePaymentSuccess, all of whose calls go through. */
  lemma {:induction false} Confirm(es: seq<Step>, s: Sys, rows: Rows, next: nat, bs: set<BookingId>, ps: set<ProcId>,
      now: int, p: ProcId, b: BookingId, ids: seq<SeatId>, user: UserId, hit: set<RowId>)
    returns (es': seq<Step>, s': Sys)
    requires Leads(es, s) && Stand(s, rows, next, bs, ps, now) && p !in ps && Waiting(s, b, ids, user) && Asks(ids)
    requires hit != {} && Named(rows, 1, Members(ids), user, 2, 5) == hit
    ensures Leads(es', s') && Stand(s', BookRows(rows, hit, b), next, bs, ps + {p}, now)
    ensures Sold(s', b, ids, user) && Others(s, s', b)
  {
    es', s' := ConfirmClaim(es, s, p, b);
    es', s' := ConfirmCall(es', s', rows, next, p, b, ids, user, hit);
  }

  /** The expiry job at time 61 finds and deletes the rows of hold 0. */
  lemma {:induction false} Expire(es: seq<Step>, s: Sys, bs: set<BookingId>, ps: set<ProcId>)
    returns (es': seq<Step>, s': Sys)
    requires Leads(es, s) && Stand(s, map[] + NewRows(0, {7, 8}, RowOf(4, 0)), 1, bs, ps, 0)
    ensures Leads(es', s') && Stand(s', map[], 1, bs, ps, 61) && s'.bookings == s.bookings && s'.pay == s.pay
  {
    AllExpired(s.db);
    s' := s.(clock := 61, db := DeleteRows(s.db, ExpiredRows(s.db.rows, 61)), listed := {});
    es' := ExpireRun(es, s, s');
  }

  lemma {:induction false} ExpireRun(es: seq<Step>, s: Sys, s': Sys) returns (es': seq<Step>)
    requires Leads(es, s) && s.clock == 0
    requires s' == s.(clock := 61, db := DeleteRows(s.db, ExpiredRows(s.db.rows, 61)), listed := {})
    ensures Leads(es', s')
  {
    var s1 := s.(clock := 61);
    var s2 := s1.(listed := ExpiredRows(s.db.rows, 61));
    OneStep(es, s, Tick(61), s1);
    OneStep(es + [Tick(61)], s1, JobFind, s2);
    OneStep(es + [Tick(61)] + [JobFind], s2, JobDrop, s');
    es' := es + [Tick(61)] + [JobFind] + [JobDrop];
  }

  lemma {:induction false} AllExpired(db: Db)
    requires Depot(db, map[] + NewRows(0, {7, 8}, RowOf(4, 0)), 1)
    ensures Depot(DeleteRows(db, ExpiredRows(db.rows, 61)), map[], 1)
  {
    var ids := ExpiredRows(db.rows, 61);
    assert ids == db.rows.Keys;
    assert db.rows - ids == map[];
  }

  const AGAIN := RowId(1, 7)
  const NEXT := RowId(2, 8)

  /** The rows after the user's second hold, after the first sale, and after the other user's hold. */
  const ROWS1: Rows := map[AGAIN := RowOf(4, 61)]
  const ROWS2: Rows := BookRows(ROWS1, {AGAIN}, 9)
  const ROWS3: Rows := ROWS2 + NewRows(2, Members([8]), RowOf(5, 61))

  lemma {:induction false} SecondHold()
    ensures map[] + NewRows(1, Members([7]), RowOf(4, 61)) == ROWS1
    ensures Named(ROWS1, 1, Members([7, 8]), 4, 2, 5) == {AGAIN}
  {
    assert Members([7]) == {7} && Members([7, 8]) == {7, 8};
  }

  lemma {:induction false} ThirdHold()
    ensures (forall k | k in ROWS2 :: k.seat !in [8]) && Named(ROWS3, 1, Members([8]), 5, 2, 5) == {NEXT}
  {
    assert Members([8]) == {8} && NEXT in NewRows(2, Members([8]), RowOf(5, 61));
  }

  lemma {:induction false} Open() returns (es: seq<Step>, s: Sys)
    ensures Leads(es, s) && Stand(s, map[], 0, {}, {}, 0)
  {
    var open := Inventory(L.Create(1, [7, 8]), 0);
    Opened();
    s := START.(db := InitializeInventory(EMPTY, 1, [7, 8]));
    OneStep([], START, open, s);
    es := [] + [open];
  }

  lemma {:induction false} FirstBooking() returns (es: seq<Step>, s: Sys)
    ensures Leads(es, s) && Stand(s, map[] + NewRows(0, {7, 8}, RowOf(4, 0)), 1, {} + {9}, {} + {0}, 0)
    ensures Waiting(s, 9, [7, 8], 4)
  {
    es, s := Open();
    es, s := Buy(es, s, map[], 0, {}, {}, 0, 0, 9, [7, 8], 4);
    assert Members([7, 8]) == {7, 8};
  }

  /** Booking 9 of user 4 for seats 7 and 8 runs out. */
  lemma {:induction false} RunOut() returns (es: seq<Step>, s: Sys)
    ensures Leads(es, s) && Stand(s, map[], 1, {9}, {0}, 61) && Waiting(s, 9, [7, 8], 4)
  {
    es, s := FirstBooking();
    es, s := Expire(es, s, {} + {9}, {} + {0});
  }

  /** The user books seat 7 again, as number 10. */
  lemma {:induction false} Again() returns (es: seq<Step>, s: Sys)
    ensures Leads(es, s) && Stand(s, ROWS1, 2, {9, 10}, {0, 1}, 61) && Waiting(s, 9, [7, 8], 4)
  {
    es, s := RunOut();
    es, s := Buy(es, s, map[], 1, {9}, {0}, 61, 1, 10, [7], 4);
    SecondHold();
  }

  /** Number 9 is paid, and CONFIRMED, too late for its own rows, on the row of number 10. */
  lemma {:induction false} FirstSale() returns (es: seq<Step>, s: Sys, bs: set<BookingId>, ps: set<ProcId>)
    ensures Leads(es, s) && Stand(s, ROWS2, 2, bs, ps, 61) && 3 !in ps && 4 !in ps && 11 !in bs
    ensures Sold(s, 9, [7, 8], 4)
  {
    es, s := Again();
    SecondHold();
    bs, ps := {9, 10}, {0, 1, 2};
    assert {0, 1} + {2} == ps;
    es, s := Confirm(es, s, ROWS1, 2, bs, {0, 1}, 61, 2, 9, [7, 8], 4, {AGAIN});
  }

  /** User 5 books seat 8, as number 11. */
  lemma {:induction false} Other() returns (es: seq<Step>, s: Sys, bs: set<BookingId>, ps: set<ProcId>)
    ensures Leads(es, s) && Stand(s, ROWS3, 3, bs, ps, 61) && 4 !in ps
    ensures Sold(s, 9, [7, 8], 4) && Waiting(s, 11, [8], 5)
  {
    es, s, bs, ps := FirstSale();
    ThirdHold();
    es, s := Buy(es, s, ROWS2, 2, bs, ps, 61, 3, 11, [8], 5);
    bs, ps := bs + {11}, ps + {3};
  }

  /** Number 11 is paid, and CONFIRMED on its own row. */
  lemma {:induction false} SecondSale() returns (es: seq<Step>, s: Sys)
    ensures Leads(es, s) && Sold(s, 9, [7, 8], 4) && Sold(s, 11, [8], 5)
  {
    var bs, ps;
    es, s, bs, ps := Other();
    ThirdHold();
    es, s := Confirm(es, s, ROWS3, 3, bs, ps, 61, 4, 11, [8], 5, {NEXT});
  }

  /** Bookings 9 and 11, of two users, both CONFIRMED for seat 8 and the same legs. */
  lemma {:induction false} SameUserSellsTwice()
    ensures exists es :: T.Travels(Run(START, es), 9, 1, 8, 3) && T.Travels(Run(START, es), 11, 1, 8, 3)
  {
    var es, s := SecondSale();
    assert T.Travels(s, 9, 1, 8, 3) && T.Travels(s, 11, 1, 8, 3);
    assert Run(START, es) == s;
  }
}
