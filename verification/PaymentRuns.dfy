/** The payment service one statement at a time. No call of it is a transaction: each reads the
    order, and writes it later without a condition. Any number of calls are under way at once, in any
    order; one that crashes takes no further step. */
module PaymentRuns {
  import opened Ledger
  import opened Payments

  type CallId = nat

  /** What a call has still to do: the capture and failure handlers after they have read a CREATED
      order; initiateRefund after its reads, after it has recorded the refund, and after it has written
      the order; the refund webhook after it has completed the refund, and after it has counted. */
  datatype Due =
    | ToCapture(order: OrderId)
    | ToFail(order: OrderId, named: bool)
    | ToRecord(order: OrderId, amount: int, key: RefundKey)
    | ToInitiate(order: OrderId, key: RefundKey, id: GatewayRefundId)
    | ToSave(order: OrderId, key: RefundKey, id: GatewayRefundId)
    | ToCount(order: OrderId)
    | ToSettle(order: OrderId, status: OrderStatus)

  datatype Desk = Desk(pay: Pay, due: map<CallId, Due>)

  const CLOSED := Desk(NO_PAYMENTS, map[])

  datatype Act =
    | NewOrder(order: OrderId, amount: int)
    | BeginCapture(c: CallId, order: OrderId)
    | BeginFailure(c: CallId, order: OrderId, named: bool)
    | BeginRefund(c: CallId, order: OrderId, amount: int, key: RefundKey)
    | Record(c: CallId, answer: Option<GatewayRefundId>)   // the gateway has answered
    | Complete(c: CallId, order: OrderId, id: GatewayRefundId)
    | Count(c: CallId)
    | Write(c: CallId)                                     // the status of the order
    | Save(c: CallId)                                      // the idempotency record

  function Begin(d: Desk, c: CallId, due: Due): Desk {
    d.(due := d.due[c := due])
  }

  function End(d: Desk, c: CallId): Desk {
    d.(due := d.due - {c})
  }

  function RecordStep(d: Desk, c: CallId, answer: Option<GatewayRefundId>): Desk {
    if c !in d.due || !d.due[c].ToRecord? then d
    else
      var ToRecord(o, amount, key) := d.due[c];
      if answer.None? || !IsNew(d.pay.refunds, answer.value, key) then End(d, c)
      else Desk(Recorded(d.pay, o, amount, key, answer.value), d.due[c := ToInitiate(o, key, answer.value)])
  }

  /** The last write of a call, whatever the order has become since its reads. */
  function WriteStep(d: Desk, c: CallId): Desk {
    if c !in d.due || d.due[c].order !in d.pay.orders then d
    else
      match d.due[c]
      case ToCapture(o) => End(d.(pay := WriteCaptured(d.pay, o)), c)
      case ToFail(o, named) => End(d.(pay := WriteFailed(d.pay, o, named)), c)
      case ToInitiate(o, key, id) => Desk(SetStatus(d.pay, o, RefundInitiated), d.due[c := ToSave(o, key, id)])
      case ToSettle(o, status) => End(d.(pay := SetStatus(d.pay, o, status)), c)
      case _ => d
  }

  function ActStep(d: Desk, a: Act): Desk {
    match a
    case NewOrder(o, amount) => d.(pay := CreateOrder(d.pay, o, amount))
    case BeginCapture(c, o) => if c !in d.due && IsIn(d.pay, o, Created) then Begin(d, c, ToCapture(o)) else d
    case BeginFailure(c, o, named) =>
      if c !in d.due && IsIn(d.pay, o, Created) then Begin(d, c, ToFail(o, named)) else d
    case BeginRefund(c, o, amount, key) =>
      if c !in d.due && Early(d.pay, o, amount, key).None? then Begin(d, c, ToRecord(o, amount, key)) else d
    case Record(c, answer) => RecordStep(d, c, answer)
    case Complete(c, o, id) =>
      if c in d.due || o !in d.pay.orders || !HasId(d.pay.refunds, id) then d
      else Begin(d.(pay := d.pay.(refunds := Payments.Complete(d.pay.refunds, id))), c, ToCount(o))
    case Count(c) =>
      if c !in d.due || !d.due[c].ToCount? || d.due[c].order !in d.pay.orders then d
      else Begin(d, c, ToSettle(d.due[c].order, Counted(d.pay, d.due[c].order)))
    case Write(c) => WriteStep(d, c)
    case Save(c) =>
      if c !in d.due || !d.due[c].ToSave? then d
      else if d.due[c].key in d.pay.keys then End(d, c)
      else End(d.(pay := d.pay.(keys := d.pay.keys[d.due[c].key := d.due[c].id])), c)
  }

  function ActRun(d: Desk, acts: seq<Act>): Desk
    decreases |acts|
  {
    if acts == [] then d else ActRun(ActStep(d, acts[0]), acts[1..])
  }

  /** The gateway pays back positive amounts only. */
  predicate Honest(d: Desk, a: Act) {
    a.Record? && a.answer.Some? && a.c in d.due && d.due[a.c].ToRecord? ==> d.due[a.c].amount > 0
  }

  predicate HonestRun(d: Desk, acts: seq<Act>)
    decreases |acts|
  {
    acts != [] ==> Honest(d, acts[0]) && HonestRun(ActStep(d, acts[0]), acts[1..])
  }

  /** A refund call reads its order while no other stands between its read and its record. */
  predicate Alone(d: Desk, a: Act) {
    a.BeginRefund? ==> forall c | c in d.due && d.due[c].ToRecord? :: d.due[c].order != a.order
  }

  predicate AloneRun(d: Desk, acts: seq<Act>)
    decreases |acts|
  {
    acts != [] ==> Alone(d, acts[0]) && AloneRun(ActStep(d, acts[0]), acts[1..])
  }

  // ----- a call that nothing comes between -----

  lemma {:induction false} Twice(d: Desk, a: Act, b: Act)
    ensures ActRun(d, [a, b]) == ActStep(ActStep(d, a), b)
  {
    assert [a, b][1..] == [b] && [b][1..] == [];
    assert ActRun(ActStep(d, a), [b]) == ActStep(ActStep(d, a), b);
  }

  lemma {:induction false} Thrice(d: Desk, a: Act, b: Act, e: Act)
    ensures ActRun(d, [a, b, e]) == ActStep(ActStep(ActStep(d, a), b), e)
  {
    assert [a, b, e][1..] == [b, e];
    Twice(ActStep(d, a), b, e);
  }

  lemma {:induction false} EndForgets(due: map<CallId, Due>, c: CallId, x: Due)
    requires c !in due
    ensures due[c := x] - {c} == due && due - {c} == due
  {
  }

  /** The statements of one call in a row are the call. */
  lemma {:induction false} CaptureInStatements(d: Desk, c: CallId, o: OrderId)
    requires c !in d.due
    ensures ActRun(d, [BeginCapture(c, o), Write(c)]) == d.(pay := Capture(d.pay, o))
  {
    Twice(d, BeginCapture(c, o), Write(c));
    EndForgets(d.due, c, ToCapture(o));
  }

  lemma {:induction false} FailInStatements(d: Desk, c: CallId, o: OrderId, named: bool)
    requires c !in d.due
    ensures ActRun(d, [BeginFailure(c, o, named), Write(c)]) == d.(pay := Fail(d.pay, o, named))
  {
    Twice(d, BeginFailure(c, o, named), Write(c));
    EndForgets(d.due, c, ToFail(o, named));
  }

  lemma {:induction false} RefundInStatements(d: Desk, c: CallId, o: OrderId, amount: int, key: RefundKey,
      answer: Option<GatewayRefundId>)
    requires c !in d.due
    ensures ActRun(d, [BeginRefund(c, o, amount, key), Record(c, answer), Write(c), Save(c)])
         == d.(pay := InitiateRefund(d.pay, o, amount, key, answer).0)
  {
    var begin := BeginRefund(c, o, amount, key);
    assert [begin, Record(c, answer), Write(c), Save(c)][1..] == [Record(c, answer), Write(c), Save(c)];
    Thrice(ActStep(d, begin), Record(c, answer), Write(c), Save(c));
    EndForgets(d.due, c, ToRecord(o, amount, key));
    if answer.Some? {
      var initiate, save := ToInitiate(o, key, answer.value), ToSave(o, key, answer.value);
      EndForgets(d.due, c, save);
      assert d.due[c := ToRecord(o, amount, key)][c := initiate][c := save] == d.due[c := save];
    }
  }

  lemma {:induction false} ProcessedInStatements(d: Desk, c: CallId, o: OrderId, id: GatewayRefundId)
    requires c !in d.due
    ensures ActRun(d, [Complete(c, o, id), Count(c), Write(c)]) == d.(pay := RefundProcessed(d.pay, o, id))
  {
    Thrice(d, Complete(c, o, id), Count(c), Write(c));
    if o in d.pay.orders && HasId(d.pay.refunds, id) {
      var d1 := ActStep(d, Complete(c, o, id));
      var settle := ToSettle(o, Counted(d1.pay, o));
      EndForgets(d.due, c, settle);
      assert d1.due[c := settle] == d.due[c := settle];
    }
  }

  // ----- what every statement keeps -----

  predicate DueFits(p: Pay, due: Due) {
    && due.order in p.orders
    && (due.ToSettle? && due.status == Refunded ==>
          CompletedSum(p.refunds, due.order) >= p.orders[due.order].amount)
  }

  predicate DeskSane(d: Desk) {
    && Sane(d.pay) && RefundedEnough(d.pay)
    && forall c | c in d.due :: DueFits(d.pay, d.due[c])
  }

  /** Orders stay, with their amounts, and what is completed stays completed. */
  predicate Onward(p: Pay, p': Pay) {
    forall o | o in p.orders :: o in p'.orders && p'.orders[o].amount == p.orders[o].amount
      && CompletedSum(p'.refunds, o) >= CompletedSum(p.refunds, o)
  }

  lemma {:induction false} DuesStay(d: Desk, d': Desk)
    requires DeskSane(d) && Onward(d.pay, d'.pay)
    requires forall c | c in d'.due :: DueFits(d'.pay, d'.due[c]) || (c in d.due && d'.due[c] == d.due[c])
    ensures forall c | c in d'.due :: DueFits(d'.pay, d'.due[c])
  {
    forall c | c in d'.due ensures DueFits(d'.pay, d'.due[c]) {
      if c in d.due { assert DueFits(d.pay, d.due[c]); }
    }
  }

  lemma {:induction false} RecordKeepsSane(d: Desk, c: CallId, answer: Option<GatewayRefundId>)
    requires DeskSane(d) && Honest(d, Record(c, answer))
    ensures DeskSane(RecordStep(d, c, answer)) && Onward(d.pay, RecordStep(d, c, answer).pay)
  {
    var d' := RecordStep(d, c, answer);
    if d'.pay != d.pay {
      var ToRecord(o, amount, key) := d.due[c];
      assert DueFits(d.pay, d.due[c]);
      RecordedIsSane(d.pay, o, amount, key, answer.value);
      forall x ensures CompletedSum(d'.pay.refunds, x) == CompletedSum(d.pay.refunds, x) {
        RecordedSums(d.pay, o, amount, key, answer.value, x);
      }
    }
    DuesStay(d, d');
  }

  lemma {:induction false} CompleteKeepsSane(d: Desk, c: CallId, o: OrderId, id: GatewayRefundId)
    requires DeskSane(d)
    ensures var d' := ActStep(d, Complete(c, o, id)); DeskSane(d') && Onward(d.pay, d'.pay)
  {
    var d' := ActStep(d, Complete(c, o, id));
    if d' != d {
      CompleteIsSane(d.pay, id);
      forall x ensures CompletedSum(d.pay.refunds, x) <= CompletedSum(d'.pay.refunds, x) {
        SumsComplete(d.pay.refunds, id, x);
      }
      DuesStay(d, d');
    }
  }

  /** A write changes the status of its order, and no amount and no refund. */
  predicate SameMoney(p: Pay, p': Pay) {
    && p'.refunds == p.refunds && p'.orders.Keys == p.orders.Keys
    && forall o | o in p.orders :: p'.orders[o].amount == p.orders[o].amount
  }

  lemma {:induction false} WriteShape(d: Desk, c: CallId)
    ensures var d' := WriteStep(d, c);
            && SameMoney(d.pay, d'.pay)
            && (forall e | e in d'.due && e != c :: e in d.due && d'.due[e] == d.due[e])
            && (c in d'.due ==> c in d.due && d'.due[c].order == d.due[c].order)
            && (c in d'.due && d'.due[c] != d.due[c] ==> d'.due[c].ToSave?)
  {
  }

  lemma {:induction false} WriteKeepsEnough(d: Desk, c: CallId)
    requires DeskSane(d)
    ensures RefundedEnough(WriteStep(d, c).pay)
  {
    if c in d.due { assert DueFits(d.pay, d.due[c]); }
  }

  lemma {:induction false} WriteKeepsSane(d: Desk, c: CallId)
    requires DeskSane(d)
    ensures DeskSane(WriteStep(d, c)) && Onward(d.pay, WriteStep(d, c).pay)
  {
    WriteShape(d, c);
    WriteKeepsEnough(d, c);
    SameMoneyIsSane(d, WriteStep(d, c));
  }

  lemma {:induction false} SameMoneyIsSane(d: Desk, d': Desk)
    requires DeskSane(d) && SameMoney(d.pay, d'.pay) && RefundedEnough(d'.pay)
    requires forall c | c in d'.due ::
      c in d.due && d'.due[c].order == d.due[c].order && (d'.due[c] == d.due[c] || d'.due[c].ToSave?)
    ensures DeskSane(d') && Onward(d.pay, d'.pay)
  {
    forall c | c in d'.due ensures DueFits(d'.pay, d'.due[c]) { assert DueFits(d.pay, d.due[c]); }
  }

  lemma {:induction false} CreateKeepsSane(d: Desk, o: OrderId, amount: int)
    requires DeskSane(d)
    ensures var d' := ActStep(d, NewOrder(o, amount)); DeskSane(d') && Onward(d.pay, d'.pay)
  {
    DuesStay(d, ActStep(d, NewOrder(o, amount)));
  }

  /** The statements that write no order and no refund. */
  lemma {:induction false} QuietKeepsSane(d: Desk, a: Act)
    requires DeskSane(d) && !a.NewOrder? && !a.Record? && !a.Complete? && !a.Write?
    ensures DeskSane(ActStep(d, a)) && Onward(d.pay, ActStep(d, a).pay)
  {
    DuesStay(d, ActStep(d, a));
  }

  lemma {:induction false} ActKeepsSane(d: Desk, a: Act)
    requires DeskSane(d) && Honest(d, a)
    ensures DeskSane(ActStep(d, a)) && Onward(d.pay, ActStep(d, a).pay)
  {
    match a
    case NewOrder(o, amount) => CreateKeepsSane(d, o, amount);
    case Record(c, answer) => RecordKeepsSane(d, c, answer);
    case Complete(c, o, id) => CompleteKeepsSane(d, c, o, id);
    case Write(c) => WriteKeepsSane(d, c);
    case _ => QuietKeepsSane(d, a);
  }

  lemma {:induction false} RunKeepsSane(d: Desk, acts: seq<Act>)
    requires DeskSane(d) && HonestRun(d, acts)
    ensures DeskSane(ActRun(d, acts))
    decreases |acts|
  {
    if acts != [] {
      ActKeepsSane(d, acts[0]);
      RunKeepsSane(ActStep(d, acts[0]), acts[1..]);
    }
  }

  // ----- the refund bound -----

  /** A refund call that is about to record still has the room that it has read. */
  predicate HasRoom(p: Pay, due: Due) {
    due.ToRecord? && due.order in p.orders ==>
      NotFailed(p.refunds, due.order) + due.amount <= p.orders[due.order].amount
  }

  predicate Roomy(d: Desk) {
    && Bounded(d.pay) && (forall c | c in d.due :: HasRoom(d.pay, d.due[c]))
    && forall c, e | c in d.due && e in d.due && d.due[c].ToRecord? && d.due[e].ToRecord? && c != e ::
         d.due[c].order != d.due[e].order
  }

  /** Exactly when a record keeps the bound: there is still room when the gateway has answered. */
  lemma {:induction false} RecordKeepsBoundIff(d: Desk, c: CallId, id: GatewayRefundId)
    requires DeskSane(d) && Bounded(d.pay) && c in d.due && d.due[c].ToRecord?
    requires IsNew(d.pay.refunds, id, d.due[c].key)
    ensures Bounded(RecordStep(d, c, Some(id)).pay) <==> HasRoom(d.pay, d.due[c])
  {
    var ToRecord(o, amount, key) := d.due[c];
    assert DueFits(d.pay, d.due[c]);
    forall x ensures NotFailed(RecordStep(d, c, Some(id)).pay.refunds, x)
                  == NotFailed(d.pay.refunds, x) + if x == o then amount else 0 {
      RecordedSums(d.pay, o, amount, key, id, x);
    }
  }

  lemma {:induction false} RecordKeepsRoom(d: Desk, c: CallId, answer: Option<GatewayRefundId>)
    requires DeskSane(d) && Roomy(d) && Honest(d, Record(c, answer))
    ensures Roomy(RecordStep(d, c, answer))
  {
    var d' := RecordStep(d, c, answer);
    if d'.pay != d.pay {
      var ToRecord(o, amount, key) := d.due[c];
      assert DueFits(d.pay, d.due[c]) && HasRoom(d.pay, d.due[c]);
      RecordKeepsBoundIff(d, c, answer.value);
      forall e | e in d'.due ensures HasRoom(d'.pay, d'.due[e]) {
        assert e in d.due && HasRoom(d.pay, d.due[e]);
        RecordedSums(d.pay, o, amount, key, answer.value, d'.due[e].order);
      }
    }
  }

  lemma {:induction false} CompleteKeepsRoom(d: Desk, c: CallId, o: OrderId, id: GatewayRefundId)
    requires DeskSane(d) && Roomy(d)
    ensures Roomy(ActStep(d, Complete(c, o, id)))
  {
    var d' := ActStep(d, Complete(c, o, id));
    if d' != d {
      forall x ensures NotFailed(d'.pay.refunds, x) == NotFailed(d.pay.refunds, x) {
        SumsComplete(d.pay.refunds, id, x);
      }
      forall e | e in d'.due ensures HasRoom(d'.pay, d'.due[e]) { if e in d.due { assert HasRoom(d.pay, d.due[e]); } }
    }
  }

  lemma {:induction false} CreateKeepsRoom(d: Desk, o: OrderId, amount: int)
    requires DeskSane(d) && Roomy(d)
    ensures Roomy(ActStep(d, NewOrder(o, amount)))
  {
    if o !in d.pay.orders { NoRefundsNoSum(d.pay.refunds, o); }
    var d' := ActStep(d, NewOrder(o, amount));
    forall e | e in d'.due ensures HasRoom(d'.pay, d'.due[e]) {
      assert HasRoom(d.pay, d.due[e]) && DueFits(d.pay, d.due[e]);
    }
  }

  lemma {:induction false} WriteKeepsRoom(d: Desk, c: CallId)
    requires Roomy(d)
    ensures Roomy(WriteStep(d, c))
  {
    var d' := WriteStep(d, c);
    WriteShape(d, c);
    forall e | e in d'.due ensures HasRoom(d'.pay, d'.due[e]) { assert HasRoom(d.pay, d.due[e]); }
  }

  lemma {:induction false} BeginKeepsRoom(d: Desk, a: Act)
    requires Roomy(d) && Alone(d, a) && a.BeginRefund?
    ensures Roomy(ActStep(d, a))
  {
    var d' := ActStep(d, a);
    forall e | e in d'.due ensures HasRoom(d'.pay, d'.due[e]) {
      if e in d.due { assert HasRoom(d.pay, d.due[e]); }
    }
  }

  /** Nothing else makes a refund call, a refund or an amount. */
  lemma {:induction false} OtherKeepsRoom(d: Desk, a: Act)
    requires Roomy(d) && (a.BeginCapture? || a.BeginFailure? || a.Count? || a.Save?)
    ensures Roomy(ActStep(d, a))
  {
    var d' := ActStep(d, a);
    forall e | e in d'.due ensures HasRoom(d'.pay, d'.due[e]) {
      if e in d.due { assert HasRoom(d.pay, d.due[e]); }
    }
  }

  lemma {:induction false} ActKeepsRoom(d: Desk, a: Act)
    requires DeskSane(d) && Roomy(d) && Honest(d, a) && Alone(d, a)
    ensures Roomy(ActStep(d, a))
  {
    match a
    case NewOrder(o, amount) => CreateKeepsRoom(d, o, amount);
    case Record(c, answer) => RecordKeepsRoom(d, c, answer);
    case Complete(c, o, id) => CompleteKeepsRoom(d, c, o, id);
    case Write(c) => WriteKeepsRoom(d, c);
    case BeginRefund(_, _, _, _) => BeginKeepsRoom(d, a);
    case _ => OtherKeepsRoom(d, a);
  }

  lemma {:induction false} RunKeepsRoom(d: Desk, acts: seq<Act>)
    requires DeskSane(d) && Roomy(d) && HonestRun(d, acts) && AloneRun(d, acts)
    ensures DeskSane(ActRun(d, acts)) && Roomy(ActRun(d, acts))
    decreases |acts|
  {
    if acts != [] {
      ActKeepsSane(d, acts[0]);
      ActKeepsRoom(d, acts[0]);
      RunKeepsRoom(ActStep(d, acts[0]), acts[1..]);
    }
  }

  /** Refund bound: in every run of statements, whatever webhooks arrive for whatever refunds and
      however often, and however late any status is written, the refunds of an order that have not
      failed sum to at most its amount, an order is REFUNDED only when the completed ones sum to
      exactly its amount, and no key has two refunds, as long as no refund call reads an order while
      another is between its read of that order and its record. */
  lemma {:induction false} RefundsAreBounded(acts: seq<Act>, o: OrderId)
    requires HonestRun(CLOSED, acts) && AloneRun(CLOSED, acts) && o in ActRun(CLOSED, acts).pay.orders
    ensures var p := ActRun(CLOSED, acts).pay;
            && NotFailed(p.refunds, o) <= p.orders[o].amount
            && (p.orders[o].status == Refunded ==> CompletedSum(p.refunds, o) == p.orders[o].amount)
            && (forall i, j | 0 <= i < j < |p.refunds| :: p.refunds[i].key != p.refunds[j].key)
  {
    RunKeepsRoom(CLOSED, acts);
    var p := ActRun(CLOSED, acts).pay;
    if p.orders[o].status == Refunded { Payments.RefundedInFull(p, o); }
  }

  /** Where they do overlap, an order is still REFUNDED only when its completed refunds reach its amount,
      and no key has two refunds. */
  lemma {:induction false} KeysAreUsedOnce(acts: seq<Act>)
    requires HonestRun(CLOSED, acts)
    ensures var p := ActRun(CLOSED, acts).pay;
            && (forall o | o in p.orders && p.orders[o].status == Refunded ::
                  CompletedSum(p.refunds, o) >= p.orders[o].amount)
            && (forall i, j | 0 <= i < j < |p.refunds| :: p.refunds[i].key != p.refunds[j].key)
  {
    RunKeepsSane(CLOSED, acts);
  }

  // ----- exactly when REFUNDED stays -----

  /** This call will take the order out of REFUNDED. */
  predicate Threatens(p: Pay, due: Due, o: OrderId) {
    due.order == o &&
    match due
    case ToCapture(_) => true
    case ToFail(_, _) => true
    case ToRecord(_, amount, key) => amount > 0 && !HasKey(p.refunds, key)
    case ToInitiate(_, _, _) => true
    case ToSettle(_, status) => status != Refunded
    case _ => false
  }

  predicate NoThreat(d: Desk, o: OrderId) {
    forall c | c in d.due :: !Threatens(d.pay, d.due[c], o)
  }

  lemma {:induction false} ActKeepsRefunded(d: Desk, a: Act, o: OrderId)
    requires DeskSane(d) && Honest(d, a) && IsIn(d.pay, o, Refunded) && NoThreat(d, o)
    ensures IsIn(ActStep(d, a).pay, o, Refunded) && NoThreat(ActStep(d, a), o)
  {
    var d' := ActStep(d, a);
    if a.Record? || a.Count? || a.Write? || a.Save? {
      if a.c in d.due { assert DueFits(d.pay, d.due[a.c]) && !Threatens(d.pay, d.due[a.c], o); }
    }
    assert HasKeys(d.pay.refunds, d'.pay.refunds) by { KeysStay(d, a); }
    forall c | c in d'.due ensures !Threatens(d'.pay, d'.due[c], o) {
      if c in d.due { assert !Threatens(d.pay, d.due[c], o); }
    }
  }

  ghost predicate HasKeys(refunds: seq<Refund>, refunds': seq<Refund>) {
    forall key | HasKey(refunds, key) :: HasKey(refunds', key)
  }

  /** Refunds keep their place and their key. */
  lemma {:induction false} KeysStay(d: Desk, a: Act)
    ensures HasKeys(d.pay.refunds, ActStep(d, a).pay.refunds)
  {
    var refunds, refunds' := d.pay.refunds, ActStep(d, a).pay.refunds;
    assert |refunds| <= |refunds'| && forall i | 0 <= i < |refunds| :: refunds'[i].key == refunds[i].key;
    forall key | HasKey(refunds, key) ensures HasKey(refunds', key) {
      var i :| 0 <= i < |refunds| && refunds[i].key == key;
      assert refunds'[i].key == key;
    }
  }

  lemma {:induction false} RefundedStays(d: Desk, acts: seq<Act>, o: OrderId)
    requires DeskSane(d) && HonestRun(d, acts) && IsIn(d.pay, o, Refunded) && NoThreat(d, o)
    ensures IsIn(ActRun(d, acts).pay, o, Refunded)
    decreases |acts|
  {
    if acts != [] {
      ActKeepsSane(d, acts[0]);
      ActKeepsRefunded(d, acts[0], o);
      RefundedStays(ActStep(d, acts[0]), acts[1..], o);
    }
  }

  /** An id that no refund has. */
  lemma {:induction false} FreshId(refunds: seq<Refund>) returns (id: GatewayRefundId)
    ensures forall i | 0 <= i < |refunds| :: refunds[i].id < id
  {
    if refunds == [] {
      id := 0;
    } else {
      var rest := FreshId(refunds[1..]);
      id := if refunds[0].id < rest then rest else refunds[0].id + 1;
      forall i | 0 <= i < |refunds| ensures refunds[i].id < id {
        if i > 0 { assert refunds[i] == refunds[1..][i - 1]; }
      }
    }
  }

  /** A threat can be carried out. */
  lemma {:induction false} ThreatTakesIt(d: Desk, o: OrderId, c: CallId) returns (acts: seq<Act>)
    requires DeskSane(d) && IsIn(d.pay, o, Refunded) && c in d.due && Threatens(d.pay, d.due[c], o)
    ensures HonestRun(d, acts) && !IsIn(ActRun(d, acts).pay, o, Refunded)
  {
    if d.due[c].ToRecord? {
      var id := FreshId(d.pay.refunds);
      acts := [Record(c, Some(id)), Write(c)];
      Twice(d, Record(c, Some(id)), Write(c));
      assert acts[1..] == [Write(c)] && [Write(c)][1..] == [];
    } else {
      acts := [Write(c)];
      assert [Write(c)][1..] == [];
    }
  }

  /** REFUNDED is absorbing, in whatever run of statements, exactly when no call that has read the
      order earlier has a write before it that takes it away: a capture or a failure, REFUND_INITIATED
      with its refund recorded or to be recorded, or a refund status that was counted too early. */
  lemma {:induction false} RefundedStaysIff(d: Desk, o: OrderId)
    requires DeskSane(d) && IsIn(d.pay, o, Refunded)
    ensures (forall acts | HonestRun(d, acts) :: IsIn(ActRun(d, acts).pay, o, Refunded)) <==> NoThreat(d, o)
  {
    if NoThreat(d, o) {
      forall acts | HonestRun(d, acts) ensures IsIn(ActRun(d, acts).pay, o, Refunded) { RefundedStays(d, acts, o); }
    } else {
      var c :| c in d.due && Threatens(d.pay, d.due[c], o);
      var acts := ThreatTakesIt(d, o, c);
    }
  }

  /** A saved key answers with its refund and changes nothing, however late. */
  lemma {:induction false} SavedKeyAnswers(d: Desk, acts: seq<Act>, o: OrderId, amount: int, key: RefundKey,
      answer: Option<GatewayRefundId>)
    requires key in d.pay.keys && amount != 0
    ensures var later := ActRun(d, acts).pay;
            InitiateRefund(later, o, amount, key, answer) == (later, Accepted(d.pay.keys[key]))
    decreases |acts|
  {
    if acts != [] { SavedKeyAnswers(ActStep(d, acts[0]), acts[1..], o, amount, key, answer); }
  }

  /** A refund call that was accepted is answered with the same refund whenever its key comes again,
      whatever it asks for then, and changes nothing. */
  lemma {:induction false} KeyIsIdempotent(d: Desk, acts: seq<Act>, o: OrderId, amount: int, key: RefundKey,
      answer: Option<GatewayRefundId>, o': OrderId, amount': int, answer': Option<GatewayRefundId>)
    requires InitiateRefund(d.pay, o, amount, key, answer).1.Accepted? && amount' != 0
    ensures var (pay1, first) := InitiateRefund(d.pay, o, amount, key, answer);
            var later := ActRun(d.(pay := pay1), acts).pay;
            InitiateRefund(later, o', amount', key, answer') == (later, first)
  {
    var d1 := d.(pay := InitiateRefund(d.pay, o, amount, key, answer).0);
    SavedKeyAnswers(d1, acts, o', amount', key, answer');
  }

  // ----- late writes -----

  /** What each of the four writes would leave if it looked at the order again first. */
  function Guarded(p: Pay, due: Due): Pay
    requires due.order in p.orders
  {
    match due
    case ToCapture(o) => Capture(p, o)
    case ToFail(o, named) => Fail(p, o, named)
    case ToInitiate(o, _, _) =>
      if IsIn(p, o, Captured) || IsIn(p, o, PartiallyRefunded) then SetStatus(p, o, RefundInitiated) else p
    case ToSettle(o, _) => SetStatus(p, o, Counted(p, o))
    case _ => p
  }

  /** The order already is as the write leaves it. */
  predicate Already(order: Order, due: Due) {
    match due
    case ToCapture(_) => order.status == Captured && order.payment && order.succeeded
    case ToFail(_, named) => order.status == Failed && order.declined && (named ==> order.payment)
    case ToInitiate(_, _, _) => order.status == RefundInitiated
    case _ => true
  }

  /** What a call has read and its write relies on still holds. */
  predicate StillSo(p: Pay, due: Due)
    requires due.order in p.orders
  {
    var status := p.orders[due.order].status;
    match due
    case ToCapture(_) => status == Created
    case ToFail(_, _) => status == Created
    case ToInitiate(_, _, _) => status == Captured || status == PartiallyRefunded
    case ToSettle(_, counted) => counted == Counted(p, due.order)
    case _ => true
  }

  /** A write that does not look does what one that looks would do, exactly when what the call has read
      still holds, or the order already is as the write leaves it. */
  lemma {:induction false} StaleWriteIff(d: Desk, c: CallId)
    requires c in d.due && d.due[c].order in d.pay.orders
    ensures WriteStep(d, c).pay == Guarded(d.pay, d.due[c]) <==>
      StillSo(d.pay, d.due[c]) || (!d.due[c].ToSettle? && Already(d.pay.orders[d.due[c].order], d.due[c]))
  {
    var due := d.due[c];
    var order, order' := d.pay.orders[due.order], WriteStep(d, c).pay.orders[due.order];
    assert d.pay.orders[due.order := order] == d.pay.orders;
    if due.ToSettle? { assert Guarded(d.pay, due).orders[due.order].status == Counted(d.pay, due.order); }
  }
}
