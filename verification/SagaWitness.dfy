/** The hypotheses of the end-to-end results leave room: a fair run that sells a ticket, and goes on to
    a late write of the payment service. */
module SagaWitness {
  import opened Ledger
  import opened Saga
  import C = SagaControl
  import E = ExpiryRaces
  import L = LedgerRuns
  import P = Payments
  import R = PaymentRuns
  import T = SagaTime
  import W = SagaWhole

  /** Seat 7 of schedule 1 is managed by segment. */
  const MANAGED := {SeatKey(1, 7)}

  predicate Leads(es: seq<Step>, s: Sys) {
    Run(START, es) == s && FairRun(START, es) && W.OrderlyRun(START, es, MANAGED)
  }

  lemma {:induction false} FairThen(s: Sys, es: seq<Step>, e: Step)
    requires FairRun(s, es) && Fair(Run(s, es), e)
    requires W.OrderlyRun(s, es, MANAGED) && W.Orderly(Run(s, es), e, MANAGED)
    ensures Run(s, es + [e]) == Next(Run(s, es), e) && FairRun(s, es + [e]) && W.OrderlyRun(s, es + [e], MANAGED)
    decreases |es|
  {
    if es == [] {
      assert [e][1..] == [] && [] + [e] == [e];
    } else {
      assert (es + [e])[1..] == es[1..] + [e];
      FairThen(Next(s, es[0]), es[1..], e);
    }
  }

  const SEATS: seq<SeatId> := [7]

  /** The booking of seat 7 from stop 2 to stop 5, in the course of its life. */
  function Ticket(status: BookingStatus, version: nat, ordered: bool, log: seq<LogEntry>, creating: bool,
      claimer: ProcId, hold: Option<HoldRef>): Booking
  {
    Booking(1, SEATS, 4, 2, 5, 100, status, version, ordered, log, creating, 0, claimer, hold)
  }

  const LOG1 := [] + [LogEntry(HoldSeats, Completed)]
  const LOG2 := LOG1 + [LogEntry(CreatePayment, Completed)]
  const LOG3 := LOG2 + [LogEntry(ConfirmStep, Completed)]
  const HELD := Some(HoldRef(0, 60))
  const ORDERED := P.Pay(map[9 := P.Order(100, P.Created, false, false, false)], [], map[])
  const PAID := P.Pay(map[9 := P.Order(100, P.Captured, true, true, false)], [], map[])

  function Creating(pc: Pc): map<ProcId, Proc> {
    map[0 := Proc(Creation, 9, pc, Pending, 0, false)]
  }

  const BOOKED := Sys(E.OPEN_DB, P.NO_PAYMENTS, map[], map[9 := Ticket(Pending, 0, false, [], true, 0, None)],
                      Creating(Holding), {}, map[], 0)

  lemma {:induction false} Booked() returns (es: seq<Step>)
    ensures Leads(es, BOOKED)
  {
    E.Opening();
    FairThen(START, [], Inventory(L.Create(1, SEATS), 0));
    es := [] + [Inventory(L.Create(1, SEATS), 0)];
    FairThen(START, es, Book(0, 9, 1, SEATS, 4, 2, 5, 100));
    es := es + [Book(0, 9, 1, SEATS, 4, 2, 5, 100)];
  }

  const HOLDING := Sys(E.HELD_DB, P.NO_PAYMENTS, map[], map[9 := Ticket(SeatsHeld, 0, false, LOG1, true, 0, HELD)],
                       Creating(Paying), {}, map[0 := 9], 0)

  lemma {:induction false} Held() returns (es: seq<Step>)
    ensures Leads(es, HOLDING)
  {
    es := Booked();
    HoldIsGranted();
    FairThen(START, es, Hold(0, true, 60));
    es := es + [Hold(0, true, 60)];
  }

  lemma {:induction false} HoldIsGranted()
    ensures HoldStep(BOOKED, 0, true, 60) == HOLDING
  {
    E.Holding();
    assert Found(E.OPEN_DB.seats, 1, SEATS) == {7};
    var (db, reply) := LockSeats(E.OPEN_DB, 1, SEATS, 4, 60, 2, 5);
    assert db == E.HELD_DB && reply.Done?;
  }

  /** The webhook of a first payment attempt, which failed, has read the order CREATED and not written. */
  const LATE: map<R.CallId, R.Due> := map[1 := R.ToFail(9, true)]

  /** The order is made, and its handlers are at work. */
  function Ordering(pay: P.Pay, due: map<R.CallId, R.Due>): Sys {
    Sys(E.HELD_DB, pay, due, map[9 := Ticket(PaymentPending, 0, true, LOG2, false, 0, HELD)],
        Creating(Stopped), {}, map[0 := 9], 0)
  }

  lemma {:induction false} Ordered() returns (es: seq<Step>)
    ensures Leads(es, Ordering(ORDERED, map[]))
  {
    es := Held();
    FairThen(START, es, Pay(0, true));
    es := es + [Pay(0, true)];
  }

  lemma {:induction false} Begun() returns (es: seq<Step>)
    ensures Leads(es, Ordering(ORDERED, LATE[2 := R.ToCapture(9)]))
  {
    es := Ordered();
    FairThen(START, es, Gateway(R.BeginFailure(1, 9, true)));
    es := es + [Gateway(R.BeginFailure(1, 9, true))];
    assert Leads(es, Ordering(ORDERED, LATE));
    FairThen(START, es, Gateway(R.BeginCapture(2, 9)));
    es := es + [Gateway(R.BeginCapture(2, 9))];
  }

  lemma {:induction false} CaptureIsWritten()
    ensures GatewayStep(Ordering(ORDERED, LATE[2 := R.ToCapture(9)]), R.Write(2)) == Ordering(PAID, LATE)
  {
    assert LATE[2 := R.ToCapture(9)] - {2} == LATE;
  }

  lemma {:induction false} Paid() returns (es: seq<Step>)
    ensures Leads(es, Ordering(PAID, LATE))
  {
    es := Begun();
    CaptureIsWritten();
    FairThen(START, es, Gateway(R.Write(2)));
    es := es + [Gateway(R.Write(2))];
  }

  /** After the booking is paid, with the payment consumer where it stands. */
  function WithConsumer(status: BookingStatus, version: nat, claimer: ProcId, pc: Pc, seen: BookingStatus,
      seenOrder: bool): Sys {
    Sys(E.HELD_DB, PAID, LATE, map[9 := Ticket(status, version, true, LOG2, false, claimer, HELD)],
        Creating(Stopped)[1 := Proc(Success, 9, pc, seen, 0, seenOrder)], {}, map[0 := 9], 0)
  }

  lemma {:induction false} Spawned() returns (es: seq<Step>)
    ensures Leads(es, WithConsumer(PaymentPending, 0, 0, Reading, Pending, false))
  {
    es := Paid();
    FairThen(START, es, Spawn(1, Success, 9));
    es := es + [Spawn(1, Success, 9)];
  }

  lemma {:induction false} ReadIt() returns (es: seq<Step>)
    ensures Leads(es, WithConsumer(PaymentPending, 0, 0, Claiming, PaymentPending, true))
  {
    es := Spawned();
    FairThen(START, es, Read(1));
    es := es + [Read(1)];
  }

  lemma {:induction false} Claimed() returns (es: seq<Step>)
    ensures Leads(es, WithConsumer(Confirming, 1, 1, Calling, PaymentPending, true))
  {
    es := ReadIt();
    FairThen(START, es, Claim(1));
    es := es + [Claim(1)];
  }

  const CALLED := Sys(E.BOOKED_DB, PAID, LATE, map[9 := Ticket(Confirming, 1, true, LOG3, false, 1, HELD)],
                      Creating(Stopped)[1 := Proc(Success, 9, Finishing, PaymentPending, 0, true)],
                      {}, map[0 := 9], 0)

  lemma {:induction false} SeatIsConfirmed()
    ensures CallStep(WithConsumer(Confirming, 1, 1, Calling, PaymentPending, true), 1, true) == CALLED
  {
    var s := WithConsumer(Confirming, 1, 1, Calling, PaymentPending, true);
    var (db, reply) := ConfirmSeats(E.HELD_DB, 1, SEATS, 4, 9, 2, 5);
    ConfirmIsGranted();
    C.CallShape(s, 1, db, reply);
    TicketIsConfirmed(s);
  }

  lemma {:induction false} TicketIsConfirmed(s: Sys)
    requires s == WithConsumer(Confirming, 1, 1, Calling, PaymentPending, true)
    ensures s.(db := E.BOOKED_DB, procs := s.procs[1 := s.procs[1].(pc := Finishing)],
               bookings := s.bookings[9 := Logged(s.bookings[9], ConfirmStep, true)]) == CALLED
  {
  }

  lemma {:induction false} ConfirmIsGranted()
    ensures var (db, reply) := ConfirmSeats(E.HELD_DB, 1, SEATS, 4, 9, 2, 5); db == E.BOOKED_DB && reply.Done?
  {
    E.Confirming();
    assert Found(E.HELD_DB.seats, 1, SEATS) == {7};
    assert E.ROW in Named(E.HELD_DB.rows, 1, {7}, 4, 2, 5);
  }

  lemma {:induction false} Called() returns (es: seq<Step>)
    ensures Leads(es, CALLED)
  {
    es := Claimed();
    SeatIsConfirmed();
    FairThen(START, es, Call(1, true));
    es := es + [Call(1, true)];
  }

  const SOLD := Sys(E.BOOKED_DB, PAID, LATE, map[9 := Ticket(Confirmed, 2, true, LOG3, false, 1, HELD)],
                    Creating(Stopped)[1 := Proc(Success, 9, Stopped, PaymentPending, 0, true)],
                    {}, map[0 := 9], 0)

  lemma {:induction false} Sold() returns (es: seq<Step>)
    ensures Leads(es, SOLD)
  {
    es := Called();
    FairThen(START, es, Finish(1, true));
    es := es + [Finish(1, true)];
  }

  /** A fair run of fixed modes confirms a segment booking, so the end-to-end results speak about
      real tickets. */
  lemma {:induction false} ATicketIsSold()
    ensures exists es :: FairRun(START, es) && W.OrderlyRun(START, es, MANAGED) && T.Travels(Run(START, es), 9, 1, 7, 3)
  {
    var es := Sold();
    assert T.Travels(SOLD, 9, 1, 7, 3);
  }

  /** And its payment order can end FAILED: the webhook of the first attempt writes last. */
  lemma {:induction false} AConfirmedOrderIsFailed()
    ensures exists es :: FairRun(START, es) && T.Travels(Run(START, es), 9, 1, 7, 3)
                         && P.IsIn(Run(START, es).pay, 9, P.Failed)
  {
    var es := Sold();
    FairThen(START, es, Gateway(R.Write(1)));
    var s := Next(SOLD, Gateway(R.Write(1)));
    assert T.Travels(s, 9, 1, 7, 3) && P.IsIn(s.pay, 9, P.Failed);
    assert Run(START, es + [Gateway(R.Write(1))]) == s;
  }
}
