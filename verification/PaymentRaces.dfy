/** Where calls of the payment service overlap, its statuses and sums do not mean what their names say:
    a shortest run for each write. */
module PaymentRaces {
  import opened Ledger
  import opened Payments
  import opened PaymentRuns

  lemma {:induction false} Joined(d: Desk, acts: seq<Act>, acts': seq<Act>)
    requires HonestRun(d, acts) && HonestRun(ActRun(d, acts), acts')
    ensures ActRun(d, acts + acts') == ActRun(ActRun(d, acts), acts') && HonestRun(d, acts + acts')
    decreases |acts|
  {
    if acts == [] {
      assert [] + acts' == acts';
    } else {
      assert (acts + acts')[1..] == acts[1..] + acts';
      Joined(ActStep(d, acts[0]), acts[1..], acts');
    }
  }

  /** Some run of statements leads here. */
  ghost predicate Reached(d: Desk) {
    exists acts :: HonestRun(CLOSED, acts) && ActRun(CLOSED, acts) == d
  }

  lemma {:induction false} Reaches(d: Desk, acts: seq<Act>, d': Desk)
    requires Reached(d) && HonestRun(d, acts) && ActRun(d, acts) == d'
    ensures Reached(d')
  {
    var before :| HonestRun(CLOSED, before) && ActRun(CLOSED, before) == d;
    Joined(CLOSED, before, acts);
  }

  lemma {:induction false} Does(d: Desk, a: Act, d': Desk)
    requires Reached(d) && Honest(d, a) && ActStep(d, a) == d'
    ensures Reached(d')
  {
    assert [a][1..] == [];
    Reaches(d, [a], d');
  }

  /** Where the gateway is not asked, it pays nothing. */
  lemma {:induction false} NothingPaid(d: Desk, acts: seq<Act>)
    requires forall a | a in acts :: !a.Record?
    ensures HonestRun(d, acts)
    decreases |acts|
  {
    if acts != [] {
      assert acts[0] in acts;
      NothingPaid(ActStep(d, acts[0]), acts[1..]);
    }
  }

  /** A refund call, and a refund webhook, that nothing comes between. */
  lemma {:induction false} Refunds(d: Desk, c: CallId, o: OrderId, amount: nat, key: RefundKey, id: GatewayRefundId,
      pay: Pay)
    requires Reached(d) && c !in d.due && pay == InitiateRefund(d.pay, o, amount, key, Some(id)).0
    ensures Reached(d.(pay := pay))
  {
    var begin, record, rest := BeginRefund(c, o, amount, key), Record(c, Some(id)), [Write(c), Save(c)];
    RefundInStatements(d, c, o, amount, key, Some(id));
    var d1 := ActStep(d, begin);
    NothingPaid(ActStep(d1, record), rest);
    assert Honest(d1, record) && ([record] + rest)[1..] == rest && HonestRun(d1, [record] + rest);
    assert [begin, record, Write(c), Save(c)][1..] == [record] + rest;
    Reaches(d, [begin, record, Write(c), Save(c)], d.(pay := pay));
  }

  lemma {:induction false} Processes(d: Desk, c: CallId, o: OrderId, id: GatewayRefundId, pay: Pay)
    requires Reached(d) && c !in d.due && pay == RefundProcessed(d.pay, o, id)
    ensures Reached(d.(pay := pay))
  {
    ProcessedInStatements(d, c, o, id);
    NothingPaid(d, [Complete(c, o, id), Count(c), Write(c)]);
    Reaches(d, [Complete(c, o, id), Count(c), Write(c)], d.(pay := pay));
  }

  // ----- the runs -----

  /** Order 1 for 100 with these refunds. */
  function Shop(status: OrderStatus, refunds: seq<Refund>, keys: map<RefundKey, GatewayRefundId>): Pay {
    Pay(map[1 := Order(100, status, true, true, false)], refunds, keys)
  }

  /** It is captured by call 0, while a second webhook of its capture (8) and one of an earlier attempt
      that failed (9) have read it CREATED and not written yet. */
  const UNDER_WAY := map[8 := ToCapture(1), 9 := ToFail(1, true)]
  const CAPTURED := Desk(Shop(Captured, [], map[]), UNDER_WAY)
  const NEW := Desk(Pay(map[1 := Order(100, Created, false, false, false)], [], map[]), map[])

  lemma {:induction false} CapturedRun()
    ensures Reached(CAPTURED)
  {
    assert HonestRun(CLOSED, []) && ActRun(CLOSED, []) == CLOSED;
    Does(CLOSED, NewOrder(1, 100), NEW);
    var d1 := Begin(NEW, 8, ToCapture(1));
    Does(NEW, BeginCapture(8, 1), d1);
    Does(d1, BeginFailure(9, 1, true), NEW.(due := UNDER_WAY));
    var d2 := NEW.(due := UNDER_WAY[0 := ToCapture(1)]);
    Does(NEW.(due := UNDER_WAY), BeginCapture(0, 1), d2);
    assert UNDER_WAY[0 := ToCapture(1)] - {0} == UNDER_WAY;
    Does(d2, Write(0), CAPTURED);
  }

  function Paid(id: GatewayRefundId, amount: int, n: nat, status: RefundStatus): Refund {
    Refund(id, 1, amount, status, Ticket(n))
  }

  lemma {:induction false} OneRefund(r: Refund, o: OrderId)
    ensures NotFailed([r], o) == if r.order == o && r.status != RefundFailed then r.amount else 0
    ensures CompletedSum([r], o) == if r.order == o && r.status == Completed then r.amount else 0
    ensures Payments.Complete([r], r.id) == [r.(status := Completed)]
  {
    assert [r][1..] == [];
    assert NotFailed([r][1..], o) == 0 && CompletedSum([r][1..], o) == 0;
  }

  /** Refund 7 of the whole amount is recorded by call 2, and completed by its webhook before call 2
      has written REFUND_INITIATED. */
  const OVERTAKEN := Desk(Shop(Refunded, [Paid(7, 100, 0, Completed)], map[]),
                          UNDER_WAY[2 := ToInitiate(1, Ticket(0), 7)])

  lemma {:induction false} OvertakenRun()
    ensures Reached(OVERTAKEN)
  {
    CapturedRun();
    var d1 := Begin(CAPTURED, 2, ToRecord(1, 100, Ticket(0)));
    Does(CAPTURED, BeginRefund(2, 1, 100, Ticket(0)), d1);
    var due := UNDER_WAY[2 := ToInitiate(1, Ticket(0), 7)];
    assert UNDER_WAY[2 := ToRecord(1, 100, Ticket(0))][2 := ToInitiate(1, Ticket(0), 7)] == due;
    var d2 := Desk(Shop(Captured, [Paid(7, 100, 0, Initiated)], map[]), due);
    Does(d1, Record(2, Some(7)), d2);
    OneRefund(Paid(7, 100, 0, Initiated), 1);
    OneRefund(Paid(7, 100, 0, Completed), 1);
    assert d2.pay.refunds[0].id == 7;
    assert RefundProcessed(d2.pay, 1, 7) == OVERTAKEN.pay;
    Processes(d2, 3, 1, 7, OVERTAKEN.pay);
  }

  /** Late writes do take a status away: a run in which a captured order is FAILED, and one in which a
      REFUNDED order becomes REFUND_INITIATED, or CAPTURED, again. */
  lemma {:induction false} LateWritesHappen()
    ensures exists d, c :: Reached(d) && IsIn(d.pay, 1, Captured) && IsIn(ActStep(d, Write(c)).pay, 1, Failed)
    ensures exists d, c, e :: Reached(d) && IsIn(d.pay, 1, Refunded)
              && IsIn(ActStep(d, Write(c)).pay, 1, RefundInitiated) && IsIn(ActStep(d, Write(e)).pay, 1, Captured)
  {
    CapturedRun();
    OvertakenRun();
    assert IsIn(ActStep(CAPTURED, Write(9)).pay, 1, Failed);
    assert IsIn(ActStep(OVERTAKEN, Write(2)).pay, 1, RefundInitiated);
    assert IsIn(ActStep(OVERTAKEN, Write(8)).pay, 1, Captured);
  }

  /** Refunds 7 of 60 and 8 of 40 are both completed; the first webhook of refund 7 has counted before
      refund 8 was made, and not written yet. */
  const SETTLED := Desk(Shop(Refunded, [Paid(7, 60, 0, Completed), Paid(8, 40, 1, Completed)],
                             map[Ticket(0) := 7, Ticket(1) := 8]),
                        UNDER_WAY[3 := ToSettle(1, PartiallyRefunded)])

  const FIRST := Paid(7, 60, 0, Completed)
  const FIRST_MADE := Shop(RefundInitiated, [Paid(7, 60, 0, Initiated)], map[Ticket(0) := 7])
  const FIRST_DONE := FIRST_MADE.(refunds := [FIRST])
  const PART_PAID := Shop(PartiallyRefunded, [FIRST], map[Ticket(0) := 7])
  const SECOND_MADE := Shop(RefundInitiated, [FIRST, Paid(8, 40, 1, Initiated)], map[Ticket(0) := 7, Ticket(1) := 8])

  lemma {:induction false} FirstSums()
    ensures InitiateRefund(CAPTURED.pay, 1, 60, Ticket(0), Some(7)).0 == FIRST_MADE
    ensures Payments.Complete(FIRST_MADE.refunds, 7) == [FIRST] && HasId(FIRST_MADE.refunds, 7)
    ensures RefundProcessed(FIRST_DONE, 1, 7) == PART_PAID && Counted(FIRST_DONE, 1) == PartiallyRefunded
  {
    OneRefund(Paid(7, 60, 0, Initiated), 1);
    OneRefund(FIRST, 1);
    assert FIRST_MADE.refunds[0].id == 7 && FIRST_DONE.refunds[0].id == 7;
  }

  lemma {:induction false} SecondSums()
    ensures InitiateRefund(PART_PAID, 1, 40, Ticket(1), Some(8)).0 == SECOND_MADE
    ensures RefundProcessed(SECOND_MADE, 1, 8) == SETTLED.pay
  {
    var done := Paid(8, 40, 1, Completed);
    OneRefund(FIRST, 1);
    assert [FIRST] + [Paid(8, 40, 1, Initiated)] == SECOND_MADE.refunds;
    SumsAppend([FIRST], done, 1);
    assert [FIRST] + [done] == SETTLED.pay.refunds && SECOND_MADE.refunds[1].id == 8;
    assert Payments.Complete(SECOND_MADE.refunds, 8) == SETTLED.pay.refunds;
  }

  lemma {:induction false} FirstPartMade()
    ensures Reached(Desk(FIRST_MADE, UNDER_WAY))
  {
    CapturedRun();
    FirstSums();
    Refunds(CAPTURED, 2, 1, 60, Ticket(0), 7, FIRST_MADE);
  }

  lemma {:induction false} FirstPartCompleted()
    ensures Reached(Desk(FIRST_DONE, UNDER_WAY[3 := ToCount(1)]))
  {
    FirstPartMade();
    FirstSums();
    Does(Desk(FIRST_MADE, UNDER_WAY), Complete(3, 1, 7), Desk(FIRST_DONE, UNDER_WAY[3 := ToCount(1)]));
  }

  lemma {:induction false} FirstPartCounted()
    ensures Reached(Desk(FIRST_DONE, SETTLED.due))
  {
    FirstPartCompleted();
    FirstSums();
    assert UNDER_WAY[3 := ToCount(1)][3 := ToSettle(1, PartiallyRefunded)] == SETTLED.due;
    Does(Desk(FIRST_DONE, UNDER_WAY[3 := ToCount(1)]), Count(3), Desk(FIRST_DONE, SETTLED.due));
  }

  lemma {:induction false} FirstPartDone()
    ensures Reached(Desk(PART_PAID, SETTLED.due))
  {
    FirstPartCounted();
    FirstSums();
    Processes(Desk(FIRST_DONE, SETTLED.due), 4, 1, 7, PART_PAID);
  }

  /** A refund status that was counted too early takes REFUNDED back to PARTIALLY_REFUNDED. */
  lemma {:induction false} AnEarlyCountIsWritten()
    ensures exists d, c :: Reached(d) && IsIn(d.pay, 1, Refunded)
              && IsIn(ActStep(d, Write(c)).pay, 1, PartiallyRefunded)
  {
    FirstPartDone();
    SecondSums();
    Refunds(Desk(PART_PAID, SETTLED.due), 5, 1, 40, Ticket(1), 8, SECOND_MADE);
    Processes(Desk(SECOND_MADE, SETTLED.due), 6, 1, 8, SETTLED.pay);
    assert IsIn(ActStep(SETTLED, Write(3)).pay, 1, PartiallyRefunded);
  }

  const BOTH := Shop(Captured, [Paid(7, 60, 0, Initiated), Paid(8, 60, 1, Initiated)], map[])

  lemma {:induction false} BothSums()
    ensures Recorded(CAPTURED.pay, 1, 60, Ticket(0), 7).refunds == [Paid(7, 60, 0, Initiated)]
    ensures Recorded(Recorded(CAPTURED.pay, 1, 60, Ticket(0), 7), 1, 60, Ticket(1), 8) == BOTH
    ensures NotFailed(BOTH.refunds, 1) == 120
  {
    var r, q := Paid(7, 60, 0, Initiated), Paid(8, 60, 1, Initiated);
    OneRefund(r, 1);
    SumsAppend([r], q, 1);
    assert [r] + [q] == BOTH.refunds;
  }

  /** Two refund calls of 60 each, with different keys, that read the captured order before either has
      recorded: 120 of 100 are refunded. */
  lemma {:induction false} TwoRefundsPassTheBound()
    ensures exists d :: Reached(d) && 1 in d.pay.orders && NotFailed(d.pay.refunds, 1) > d.pay.orders[1].amount
  {
    CapturedRun();
    BothSums();
    var d1 := Begin(CAPTURED, 2, ToRecord(1, 60, Ticket(0)));
    Does(CAPTURED, BeginRefund(2, 1, 60, Ticket(0)), d1);
    var d2 := Begin(d1, 3, ToRecord(1, 60, Ticket(1)));
    Does(d1, BeginRefund(3, 1, 60, Ticket(1)), d2);
    var d3 := RecordStep(d2, 2, Some(7));
    Does(d2, Record(2, Some(7)), d3);
    assert d3.pay.refunds[0] == Paid(7, 60, 0, Initiated) && d3.due[3] == d2.due[3];
    var d4 := RecordStep(d3, 3, Some(8));
    Does(d3, Record(3, Some(8)), d4);
    assert d4.pay == BOTH;
  }
}
