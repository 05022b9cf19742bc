/** Saga and payments together: a refund is only ever made for a booking that is lost, and a
    confirmed booking is paid. These results need no hypothesis on the inventory, and the handlers of
    the payment service may overlap in any way. */
module SagaMoney {
  import opened Ledger
  import opened Saga
  import opened SagaControl
  import L = LedgerRuns
  import P = Payments
  import R = PaymentRuns

  /** The order has never been refunded. */
  predicate Clean(pay: P.Pay, o: P.OrderId) {
    forall i | 0 <= i < |pay.refunds| :: pay.refunds[i].order != o
  }

  predicate OrderFits(pay: P.Pay, o: P.OrderId)
    requires o in pay.orders
  {
    var order := pay.orders[o];
    && (order.succeeded ==> order.status != P.Created)
    && (Clean(pay, o) ==> order.status == P.Created || order.status == P.Captured || order.status == P.Failed)
  }

  /** Handlers that are under way are about orders that exist, and refund webhooks about refunded ones. */
  predicate DueFits(pay: P.Pay, due: R.Due) {
    && due.order in pay.orders
    && (due.ToCapture? || due.ToFail? || ((due.ToCount? || due.ToSettle?) && !Clean(pay, due.order)))
    && (due.ToSettle? ==> due.status == P.Refunded || due.status == P.PartiallyRefunded)
  }

  predicate PayFits(s: Sys) {
    && RefundsKnown(s.pay)
    && (forall o {:trigger OrderFits(s.pay, o)} | o in s.pay.orders :: OrderFits(s.pay, o))
    && (forall c {:trigger s.due[c]} | c in s.due :: DueFits(s.pay, s.due[c]))
  }

  /** The booking is CONFIRMING, and the handler that owns it has turned to compensation. */
  predicate Failing(s: Sys, b: BookingId)
    requires b in s.bookings
  {
    var bk := s.bookings[b];
    && bk.status == Confirming && bk.claimer in s.procs && s.procs[bk.claimer].booking == b
    && (s.procs[bk.claimer].pc == Loading || s.procs[bk.claimer].pc.Undoing?)
  }

  /** The booking is lost, or about to be. */
  predicate Lost(s: Sys, b: BookingId)
    requires b in s.bookings
  {
    var status := s.bookings[b].status;
    status == FailedBooking || status == Expired || status == CancelledBooking || Failing(s, b)
  }

  predicate BookingMoney(s: Sys, b: BookingId)
    requires b in s.bookings
  {
    var bk := s.bookings[b];
    && (bk.ordered <==> b in s.pay.orders)
    && (b in s.pay.orders ==> s.pay.orders[b].amount == bk.amount)
    && (Lost(s, b) || Clean(s.pay, b))
    && (bk.status == Confirming || bk.status == Confirmed ==> Paid(s.pay, b))
  }

  predicate ProcMoney(s: Sys, p: ProcId)
    requires p in s.procs
  {
    s.procs[p].kind == Success ==> Paid(s.pay, s.procs[p].booking)
  }

  predicate RefundsKnown(pay: P.Pay) {
    forall i | 0 <= i < |pay.refunds| :: pay.refunds[i].order in pay.orders
  }

  predicate MoneyInv(s: Sys) {
    && PayFits(s) && s.pay.orders.Keys <= s.bookings.Keys
    && (forall b {:trigger BookingMoney(s, b)} | b in s.bookings :: BookingMoney(s, b))
    && (forall p {:trigger ProcMoney(s, p)} | p in s.procs :: ProcMoney(s, p))
  }

  /** Payments move on: captured orders stay captured, and no order outside `touched` is
      made, or refunded for the first time. */
  ghost predicate Grows(pay: P.Pay, pay': P.Pay, touched: set<P.OrderId>) {
    && pay.orders.Keys <= pay'.orders.Keys <= pay.orders.Keys + touched
    && (forall o | o in pay.orders :: pay'.orders[o].amount == pay.orders[o].amount)
    && (forall o | Paid(pay, o) :: Paid(pay', o))
    && (forall o | o !in touched && Clean(pay, o) :: Clean(pay', o))
  }

  /** Refunds keep their place and their order. */
  predicate Keeps(pay: P.Pay, pay': P.Pay) {
    && |pay.refunds| <= |pay'.refunds|
    && forall i | 0 <= i < |pay.refunds| :: pay'.refunds[i].order == pay.refunds[i].order
  }

  lemma {:induction false} StillRefunded(pay: P.Pay, pay': P.Pay, o: P.OrderId)
    requires Keeps(pay, pay') && !Clean(pay, o)
    ensures !Clean(pay', o)
  {
    var i :| 0 <= i < |pay.refunds| && pay.refunds[i].order == o;
    assert pay'.refunds[i].order == o;
  }

  lemma {:induction false} DuesStay(s: Sys, s': Sys)
    requires PayFits(s) && Keeps(s.pay, s'.pay) && s.pay.orders.Keys <= s'.pay.orders.Keys
    requires forall c | c in s'.due :: DueFits(s'.pay, s'.due[c]) || (c in s.due && s'.due[c] == s.due[c])
    ensures forall c | c in s'.due :: DueFits(s'.pay, s'.due[c])
  {
    forall c | c in s'.due ensures DueFits(s'.pay, s'.due[c]) {
      if c in s.due && s'.due[c] == s.due[c] && !Clean(s.pay, s.due[c].order) {
        StillRefunded(s.pay, s'.pay, s.due[c].order);
      }
    }
  }

  lemma {:induction false} CreatingGrows(s: Sys, o: P.OrderId, amount: int)
    requires PayFits(s) && o !in s.pay.orders && amount > 0
    ensures var pay' := P.CreateOrder(s.pay, o, amount);
            && PayFits(s.(pay := pay')) && Grows(s.pay, pay', {o})
            && Clean(pay', o) && o in pay'.orders && pay'.orders[o].amount == amount
  {
    var s' := s.(pay := P.CreateOrder(s.pay, o, amount));
    assert s'.pay.refunds == s.pay.refunds;
    forall x | x in s'.pay.orders ensures OrderFits(s'.pay, x) { if x != o { assert OrderFits(s.pay, x); } }
    DuesStay(s, s');
  }

  lemma {:induction false} RefundingGrows(s: Sys, o: P.OrderId, amount: int, key: P.RefundKey,
      answer: Option<P.GatewayRefundId>)
    requires PayFits(s)
    ensures var pay' := P.InitiateRefund(s.pay, o, amount, key, answer).0;
            && PayFits(s.(pay := pay')) && Grows(s.pay, pay', {o}) && pay'.orders.Keys == s.pay.orders.Keys
  {
    var s' := s.(pay := P.InitiateRefund(s.pay, o, amount, key, answer).0);
    if s'.pay != s.pay {
      assert s'.pay.refunds[|s.pay.refunds|].order == o;
      forall x | x in s'.pay.orders ensures OrderFits(s'.pay, x) {
        assert OrderFits(s.pay, x);
        if x != o && !Clean(s.pay, x) { StillRefunded(s.pay, s'.pay, x); }
      }
    }
    DuesStay(s, s');
  }

  /** What the last write of a call makes of its order. */
  function Written(order: P.Order, due: R.Due): P.Order {
    match due
    case ToCapture(_) => order.(status := P.Captured, payment := true, succeeded := true)
    case ToFail(_, named) => order.(status := P.Failed, payment := order.payment || named, declined := true)
    case ToSettle(_, status) => order.(status := status)
    case _ => order
  }

  /** No other order and no refund changes. */
  lemma {:induction false} WriteIs(s: Sys, c: R.CallId, o: P.OrderId)
    requires PayFits(s) && o in s.pay.orders
    ensures var pay' := R.WriteStep(R.Desk(s.pay, s.due), c).pay;
            && pay'.orders.Keys == s.pay.orders.Keys && pay'.refunds == s.pay.refunds
            && pay'.orders[o] ==
                 if c in s.due && s.due[c].order == o then Written(s.pay.orders[o], s.due[c]) else s.pay.orders[o]
  {
    if c in s.due { assert DueFits(s.pay, s.due[c]); }
  }

  lemma {:induction false} WriteFits(s: Sys, c: R.CallId)
    requires PayFits(s)
    ensures var pay' := R.WriteStep(R.Desk(s.pay, s.due), c).pay;
            (forall o | o in pay'.orders :: OrderFits(pay', o)) && Grows(s.pay, pay', {})
  {
    var pay' := R.WriteStep(R.Desk(s.pay, s.due), c).pay;
    if c in s.due { assert DueFits(s.pay, s.due[c]); }
    forall o | o in s.pay.orders ensures OrderFits(pay', o) && pay'.orders[o].amount == s.pay.orders[o].amount
                                         && (Paid(s.pay, o) ==> Paid(pay', o)) {
      WriteIs(s, c, o);
      assert OrderFits(s.pay, o);
    }
  }

  lemma {:induction false} WriteGrows(s: Sys, c: R.CallId)
    requires PayFits(s)
    ensures PayFits(GatewayStep(s, R.Write(c))) && Grows(s.pay, GatewayStep(s, R.Write(c)).pay, {})
  {
    WriteFits(s, c);
    R.WriteShape(R.Desk(s.pay, s.due), c);
    if c in s.due { assert DueFits(s.pay, s.due[c]); }
    DuesStay(s, GatewayStep(s, R.Write(c)));
  }

  lemma {:induction false} CompleteGrows(s: Sys, a: R.Act)
    requires PayFits(s) && a.Complete?
    ensures PayFits(GatewayStep(s, a)) && Grows(s.pay, GatewayStep(s, a).pay, {})
  {
    var s' := GatewayStep(s, a);
    if s' != s {
      var i :| 0 <= i < |s.pay.refunds| && s.pay.refunds[i].id == a.id;
      assert s'.pay.refunds[i].order == a.order;
      forall o | o in s'.pay.orders ensures OrderFits(s'.pay, o) {
        assert OrderFits(s.pay, o);
        if !Clean(s.pay, o) { StillRefunded(s.pay, s'.pay, o); }
      }
    }
    DuesStay(s, s');
  }

  /** The other statements write no order and no refund. */
  lemma {:induction false} ReadGrows(s: Sys, a: R.Act)
    requires PayFits(s) && !a.Write? && !a.Complete?
    ensures PayFits(GatewayStep(s, a)) && Grows(s.pay, GatewayStep(s, a).pay, {})
    ensures GatewayStep(s, a).pay == s.pay
  {
    var s' := GatewayStep(s, a);
    if (a.Record? || a.Save? || a.Count?) && a.c in s.due { assert DueFits(s.pay, s.due[a.c]); }
    DuesStay(s, s');
  }

  lemma {:induction false} GatewayGrows(s: Sys, a: R.Act)
    requires PayFits(s)
    ensures PayFits(GatewayStep(s, a)) && Grows(s.pay, GatewayStep(s, a).pay, {})
  {
    if a.Write? { WriteGrows(s, a.c); } else if a.Complete? { CompleteGrows(s, a); } else { ReadGrows(s, a); }
  }

  /** The frame: a step of `p` on `b` that is right for them keeps the money right. */
  lemma {:induction false} MoveKeepsMoney(s: Sys, s': Sys, p: ProcId, b: BookingId)
    requires MoneyInv(s) && OnlyMoves(s, s', p, b) && Grows(s.pay, s'.pay, {b}) && PayFits(s')
    requires p in s'.procs && ProcMoney(s', p) && b in s'.bookings && BookingMoney(s', b) && s'.procs[p].booking == b
    requires p in s.procs ==> s.procs[p].booking == b
    ensures MoneyInv(s')
  {
    forall c | c in s'.bookings ensures BookingMoney(s', c) {
      if c != b { assert BookingMoney(s, c); }
    }
    forall q | q in s'.procs ensures ProcMoney(s', q) {
      if q != p { assert ProcMoney(s, q); }
    }
  }

  /** A step that leaves the payments alone: the booking may only get lost, or be claimed. */
  lemma {:induction false} FreeMove(s: Sys, s': Sys, p: ProcId, b: BookingId)
    requires MoneyInv(s) && OnlyMoves(s, s', p, b) && s'.pay == s.pay && s'.due == s.due
    requires p in s.procs && s.procs[p].booking == b && b in s.bookings
    requires s'.procs[p] == s.procs[p].(pc := s'.procs[p].pc)
    requires s'.bookings[b].ordered == s.bookings[b].ordered && s'.bookings[b].amount == s.bookings[b].amount
    requires Lost(s, b) ==> Lost(s', b)
    requires s'.bookings[b].status == Confirming || s'.bookings[b].status == Confirmed ==>
               s.procs[p].kind == Success || s'.bookings[b].status == s.bookings[b].status
    ensures MoneyInv(s')
  {
    assert BookingMoney(s, b) && ProcMoney(s, p);
    MoveKeepsMoney(s, s', p, b);
  }

  lemma {:induction false} BookKeepsMoney(s: Sys, e: Step)
    requires MoneyInv(s) && Control(s) && e.Book?
    ensures MoneyInv(BookStep(s, e))
  {
    var s' := BookStep(s, e);
    if s' != s { MoveKeepsMoney(s, s', e.p, e.b); }
  }

  lemma {:induction false} HoldKeepsMoney(s: Sys, p: ProcId, up: bool, until: int)
    requires MoneyInv(s) && Control(s)
    ensures MoneyInv(HoldStep(s, p, up, until))
  {
    if At(s, p, Creation, Holding) {
      var b := s.procs[p].booking;
      var bk := s.bookings[b];
      assert ProcFits(s, p);
      var (db, reply) := Unless(up, s.db, LockSeats(s.db, bk.sched, bk.seats, bk.user, until, bk.from, bk.to));
      HoldShape(s, p, up, until, db, reply);
      FreeMove(s, HoldStep(s, p, up, until), p, b);
    }
  }

  lemma {:induction false} PayKeepsMoney(s: Sys, p: ProcId, up: bool)
    requires MoneyInv(s) && Control(s)
    ensures MoneyInv(PayStep(s, p, up))
  {
    if At(s, p, Creation, Paying) {
      var b := s.procs[p].booking;
      assert ProcFits(s, p) && BookingFits(s, b) && BookingMoney(s, b);
      if up && s.bookings[b].amount > 0 {
        CreatingGrows(s, b, s.bookings[b].amount);
        MoveKeepsMoney(s, PayStep(s, p, up), p, b);
      } else {
        FreeMove(s, PayStep(s, p, up), p, b);
      }
    }
  }

  lemma {:induction false} AbandonKeepsMoney(s: Sys, p: ProcId)
    requires MoneyInv(s) && Control(s)
    ensures MoneyInv(AbandonStep(s, p))
  {
    if AbandonStep(s, p) != s {
      assert ProcFits(s, p) && BookingFits(s, s.procs[p].booking);
      FreeMove(s, AbandonStep(s, p), p, s.procs[p].booking);
    }
  }

  lemma {:induction false} SpawnKeepsMoney(s: Sys, p: ProcId, kind: Kind, b: BookingId)
    requires MoneyInv(s)
    ensures MoneyInv(SpawnStep(s, p, kind, b))
  {
    var s' := SpawnStep(s, p, kind, b);
    if s' != s {
      assert BookingMoney(s, b) && (Lost(s, b) ==> Lost(s', b));
      MoveKeepsMoney(s, s', p, b);
    }
  }

  lemma {:induction false} ReadKeepsMoney(s: Sys, p: ProcId)
    requires MoneyInv(s)
    ensures MoneyInv(ReadStep(s, p))
  {
    if p in s.procs && s.procs[p].pc == Reading && s.procs[p].booking in s.bookings {
      var b := s.procs[p].booking;
      var s' := ReadStep(s, p);
      assert BookingMoney(s, b) && ProcMoney(s, p) && (Lost(s, b) ==> Lost(s', b));
      MoveKeepsMoney(s, s', p, b);
    }
  }

  lemma {:induction false} ClaimKeepsMoney(s: Sys, p: ProcId)
    requires MoneyInv(s) && Control(s)
    ensures MoneyInv(ClaimStep(s, p))
  {
    if p in s.procs && s.procs[p].pc == Claiming && s.procs[p].booking in s.bookings {
      var b := s.procs[p].booking;
      assert ProcFits(s, p) && BookingFits(s, b);
      FreeMove(s, ClaimStep(s, p), p, b);
    }
  }

  lemma {:induction false} CallKeepsMoney(s: Sys, p: ProcId, up: bool)
    requires MoneyInv(s) && Control(s)
    ensures MoneyInv(CallStep(s, p, up))
  {
    if At(s, p, Success, Calling) {
      assert ProcFits(s, p);
      FreeMove(s, CallStep(s, p, up), p, s.procs[p].booking);
    }
  }

  /** The last write before success: the handler that makes it has not compensated. */
  lemma {:induction false} FinishKeepsMoney(s: Sys, p: ProcId, up: bool)
    requires MoneyInv(s) && Control(s)
    ensures MoneyInv(FinishStep(s, p, up))
  {
    if At(s, p, Success, Finishing) {
      assert ProcFits(s, p);
      FreeMove(s, FinishStep(s, p, up), p, s.procs[p].booking);
    }
  }

  lemma {:induction false} LoadKeepsMoney(s: Sys, p: ProcId)
    requires MoneyInv(s)
    ensures MoneyInv(LoadStep(s, p))
  {
    if p in s.procs && s.procs[p].pc == Loading && s.procs[p].booking in s.bookings {
      FreeMove(s, LoadStep(s, p), p, s.procs[p].booking);
    }
  }

  /** Who compensates has lost the booking, or has not got as far as an order. */
  lemma {:induction false} CompensatingMeansLost(s: Sys, p: ProcId)
    requires Control(s) && p in s.procs && s.procs[p].pc.Undoing? && s.procs[p].booking in s.bookings
    ensures Lost(s, s.procs[p].booking) || !s.procs[p].seenOrder
  {
    assert ProcFits(s, p);
  }

  lemma {:induction false} UndoKeepsMoney(s: Sys, p: ProcId, up: bool, answer: Option<P.GatewayRefundId>)
    requires MoneyInv(s) && Control(s)
    ensures MoneyInv(UndoStep(s, p, up, answer))
  {
    if p in s.procs && s.procs[p].pc.Undoing? && s.procs[p].pc.todo != [] && s.procs[p].booking in s.bookings {
      UndoShape(s, p, up, answer);
      UndoTables(s, p, up, answer);
      UndoPays(s, p, up, answer);
      CompensatingMeansLost(s, p);
      CompensationKeepsMoney(s, UndoStep(s, p, up, answer), p, s.procs[p].booking, answer);
    }
  }

  lemma {:induction false} CompensationKeepsMoney(s: Sys, s': Sys, p: ProcId, b: BookingId,
      answer: Option<P.GatewayRefundId>)
    requires MoneyInv(s) && OnlyMoves(s, s', p, b) && p in s.procs && s.procs[p].booking == b && b in s.bookings
    requires s.procs[p].pc.Undoing? && s'.procs[p] == s.procs[p].(pc := s'.procs[p].pc) && s'.procs[p].pc.Undoing?
    requires s'.bookings[b] == s.bookings[b].(log := s'.bookings[b].log) && s'.due == s.due
    requires s'.pay == s.pay
      || (Lost(s, b) && s'.pay == P.InitiateRefund(s.pay, b, s.bookings[b].amount, P.Compensation(b), answer).0)
    ensures MoneyInv(s')
  {
    assert Lost(s, b) ==> Lost(s', b);
    if s'.pay == s.pay {
      FreeMove(s, s', p, b);
    } else {
      PaidBackKeepsMoney(s, s', p, b, P.Compensation(b), answer);
    }
  }

  lemma {:induction false} PaidBackKeepsMoney(s: Sys, s': Sys, p: ProcId, b: BookingId, key: P.RefundKey,
      answer: Option<P.GatewayRefundId>)
    requires MoneyInv(s) && OnlyMoves(s, s', p, b) && p in s.procs && s.procs[p].booking == b && b in s.bookings
    requires s'.pay == P.InitiateRefund(s.pay, b, s.bookings[b].amount, key, answer).0 && s'.due == s.due
    requires s'.procs[p] == s.procs[p].(pc := s'.procs[p].pc)
    requires s'.bookings[b] == s.bookings[b].(log := s'.bookings[b].log)
    requires Lost(s, b) && Lost(s', b)
    ensures MoneyInv(s')
  {
    assert BookingMoney(s, b) && ProcMoney(s, p);
    RefundingGrows(s, b, s.bookings[b].amount, key, answer);
    MoveKeepsMoney(s, s', p, b);
  }

  lemma {:induction false} FailKeepsMoney(s: Sys, p: ProcId)
    requires MoneyInv(s) && Control(s)
    ensures MoneyInv(FailStep(s, p))
  {
    if p in s.procs && s.procs[p].pc == Undoing([]) && s.procs[p].booking in s.bookings {
      assert ProcFits(s, p);
      FreeMove(s, FailStep(s, p), p, s.procs[p].booking);
    }
  }

  lemma {:induction false} RefundKeepsMoney(s: Sys, p: ProcId, up: bool, answer: Option<P.GatewayRefundId>)
    requires MoneyInv(s) && Control(s)
    ensures MoneyInv(RefundStep(s, p, up, answer))
  {
    if At(s, p, ScheduleClose, Refunding) {
      var b := s.procs[p].booking;
      assert ProcFits(s, p);
      if up {
        PaidBackKeepsMoney(s, RefundStep(s, p, up, answer), p, b, P.ScheduleCancel(b), answer);
      } else {
        FreeMove(s, RefundStep(s, p, up, answer), p, b);
      }
    }
  }

  lemma {:induction false} GatewayKeepsMoney(s: Sys, a: R.Act)
    requires MoneyInv(s)
    ensures MoneyInv(GatewayStep(s, a))
  {
    var s' := GatewayStep(s, a);
    GatewayGrows(s, a);
    forall b | b in s'.bookings ensures BookingMoney(s', b) { assert BookingMoney(s, b); }
    forall p | p in s'.procs ensures ProcMoney(s', p) { assert ProcMoney(s, p); }
  }

  lemma {:induction false} ElsewhereKeepsMoney(s: Sys, s': Sys)
    requires MoneyInv(s) && s'.pay == s.pay && s'.due == s.due && s'.bookings == s.bookings && s'.procs == s.procs
    ensures MoneyInv(s')
  {
    forall b | b in s'.bookings ensures BookingMoney(s', b) { assert BookingMoney(s, b); }
    forall p | p in s'.procs ensures ProcMoney(s', p) { assert ProcMoney(s, p); }
  }

  lemma {:induction false} WorldKeepsMoney(s: Sys, e: Step)
    requires MoneyInv(s)
    requires (e.Inventory? || e.JobFind? || e.JobDrop? || e.JobRecompute? || e.JobFree? || e.JobRecount? || e.Tick?)
    ensures MoneyInv(Next(s, e))
  {
    ElsewhereKeepsMoney(s, Next(s, e));
  }

  /** The steps of creation, and those with which a contender begins. */
  lemma {:induction false} EarlyKeepsMoney(s: Sys, e: Step)
    requires MoneyInv(s) && Control(s)
    requires e.Book? || e.Hold? || e.Pay? || e.Abandon? || e.Spawn? || e.Read? || e.Claim?
    ensures MoneyInv(Next(s, e))
  {
    match e
    case Book(_, _, _, _, _, _, _, _) => BookKeepsMoney(s, e);
    case Hold(p, up, ttl) => HoldKeepsMoney(s, p, up, L.Deadline(s.clock, ttl));
    case Pay(p, up) => PayKeepsMoney(s, p, up);
    case Abandon(p) => AbandonKeepsMoney(s, p);
    case Spawn(p, kind, b) => SpawnKeepsMoney(s, p, kind, b);
    case Read(p) => ReadKeepsMoney(s, p);
    case Claim(p) => ClaimKeepsMoney(s, p);
  }

  lemma {:induction false} NextKeepsMoney(s: Sys, e: Step)
    requires MoneyInv(s) && Control(s)
    ensures MoneyInv(Next(s, e))
  {
    match e
    case Call(p, up) => CallKeepsMoney(s, p, up);
    case Finish(p, up) => FinishKeepsMoney(s, p, up);
    case Load(p) => LoadKeepsMoney(s, p);
    case Undo(p, up, answer) => UndoKeepsMoney(s, p, up, answer);
    case Fail(p) => FailKeepsMoney(s, p);
    case Refund(p, up, answer) => RefundKeepsMoney(s, p, up, answer);
    case Gateway(a) => GatewayKeepsMoney(s, a);
    case _ =>
      if e.Book? || e.Hold? || e.Pay? || e.Abandon? || e.Spawn? || e.Read? || e.Claim? {
        EarlyKeepsMoney(s, e);
      } else {
        WorldKeepsMoney(s, e);
      }
  }

  lemma {:induction false} RunKeepsMoney(s: Sys, es: seq<Step>)
    requires MoneyInv(s) && Control(s)
    ensures MoneyInv(Run(s, es)) && Control(Run(s, es))
    decreases |es|
  {
    if es != [] {
      NextKeepsMoney(s, es[0]);
      NextKeepsControl(s, es[0]);
      RunKeepsMoney(Next(s, es[0]), es[1..]);
    }
  }

  /** Money and seats agree: in every run, however the payment handlers overlap, a CONFIRMED booking's
      order has been captured for exactly its amount, and nothing of it has been refunded. */
  lemma {:induction false} ConfirmedIsPaid(es: seq<Step>, b: BookingId)
    requires b in Run(START, es).bookings && Run(START, es).bookings[b].status == Confirmed
    ensures var s := Run(START, es);
            && Paid(s.pay, b) && s.pay.orders[b].amount == s.bookings[b].amount
            && (s.pay.orders[b].status == P.Captured || s.pay.orders[b].status == P.Failed)
            && forall i | 0 <= i < |s.pay.refunds| :: s.pay.refunds[i].order != b
  {
    RunKeepsMoney(START, es);
    var s := Run(START, es);
    assert BookingMoney(s, b) && OrderFits(s.pay, b);
  }

  /** A refund exists only for a booking that is FAILED, EXPIRED or CANCELLED, or CONFIRMING
      under the one handler that owns it, which has turned to compensation. */
  lemma {:induction false} RefundedIsLost(es: seq<Step>, i: nat)
    requires i < |Run(START, es).pay.refunds|
    ensures var s := Run(START, es);
            var b := s.pay.refunds[i].order;
            b in s.bookings && Lost(s, b)
  {
    RunKeepsMoney(START, es);
    assert BookingMoney(Run(START, es), Run(START, es).pay.refunds[i].order);
  }

  // ----- exactly when the order says CAPTURED -----

  predicate WritesCapture(s: Sys, e: Step, o: P.OrderId) {
    e.Gateway? && e.act.Write? && e.act.c in s.due && s.due[e.act.c] == R.ToCapture(o)
  }

  predicate WritesFailure(s: Sys, e: Step, o: P.OrderId) {
    e.Gateway? && e.act.Write? && e.act.c in s.due && s.due[e.act.c].ToFail? && s.due[e.act.c].order == o
  }

  /** Step number `i` of the run writes FAILED to the order, and no later step CAPTURED. */
  predicate FailsLast(es: seq<Step>, o: P.OrderId, i: int) {
    && 0 <= i < |es| && WritesFailure(Run(START, es[..i]), es[i], o)
    && forall j | i < j < |es| :: !WritesCapture(Run(START, es[..j]), es[j], o)
  }

  /** A failure was the last of the captures and failures that were written to the order. */
  ghost predicate FailedSinceCapture(es: seq<Step>, o: P.OrderId) {
    exists i :: FailsLast(es, o, i)
  }

  lemma {:induction false} LastStep(es: seq<Step>)
    requires es != []
    ensures Run(START, es) == Next(Run(START, es[..|es| - 1]), es[|es| - 1])
  {
    var pre, e := es[..|es| - 1], es[|es| - 1];
    assert es == pre + [e] && [e][1..] == [];
    RunSplits(START, pre, [e]);
    assert Run(Run(START, pre), [e]) == Next(Run(START, pre), e);
  }

  /** One more step: a failure makes it so, a capture ends it, and nothing else touches it. */
  lemma {:induction false} SinceStep(es: seq<Step>, o: P.OrderId)
    requires es != []
    ensures var pre, e := es[..|es| - 1], es[|es| - 1];
            var s := Run(START, pre);
            FailedSinceCapture(es, o) <==>
              WritesFailure(s, e, o) || (FailedSinceCapture(pre, o) && !WritesCapture(s, e, o))
  {
    var n := |es| - 1;
    var pre := es[..n];
    assert forall i | 0 <= i <= n :: pre[..i] == es[..i];
    forall i | FailsLast(es, o, i) && i < n ensures FailsLast(pre, o, i) {
      forall j | i < j < n ensures !WritesCapture(Run(START, pre[..j]), pre[j], o) { assert es[..j] == pre[..j]; }
    }
    forall i | FailsLast(pre, o, i) && !WritesCapture(Run(START, pre), es[n], o) ensures FailsLast(es, o, i) {
      forall j | i < j < |es| ensures !WritesCapture(Run(START, es[..j]), es[j], o) {
        if j < n { assert es[..j] == pre[..j] && es[j] == pre[j]; }
      }
    }
    if WritesFailure(Run(START, pre), es[n], o) { assert FailsLast(es, o, n); }
  }

  function StatusAfter(s: Sys, e: Step, o: P.OrderId): P.OrderStatus {
    if WritesFailure(s, e, o) then P.Failed
    else if WritesCapture(s, e, o) then P.Captured
    else if o in s.pay.orders then s.pay.orders[o].status
    else P.Created
  }

  lemma {:induction false} GatewayStatus(s: Sys, a: R.Act, o: P.OrderId)
    requires PayFits(s) && o in GatewayStep(s, a).pay.orders && Clean(GatewayStep(s, a).pay, o)
    ensures Clean(s.pay, o) && GatewayStep(s, a).pay.orders[o].status == StatusAfter(s, Gateway(a), o)
    ensures o in s.pay.orders
  {
    if !Clean(s.pay, o) { StillRefunded(s.pay, GatewayStep(s, a).pay, o); }
    if a.Write? {
      if a.c in s.due { assert DueFits(s.pay, s.due[a.c]); }
      WriteIs(s, a.c, o);
    } else if !a.Complete? {
      ReadGrows(s, a);
    }
  }

  /** A refund that leaves the order unrefunded leaves it alone. */
  lemma {:induction false} RefundLeavesClean(pay: P.Pay, b: BookingId, amount: int, key: P.RefundKey,
      answer: Option<P.GatewayRefundId>, o: P.OrderId)
    requires var pay' := P.InitiateRefund(pay, b, amount, key, answer).0; o in pay'.orders && Clean(pay', o)
    ensures var pay' := P.InitiateRefund(pay, b, amount, key, answer).0;
            Clean(pay, o) && o in pay.orders && pay'.orders[o] == pay.orders[o]
  {
    var pay' := P.InitiateRefund(pay, b, amount, key, answer).0;
    if !Clean(pay, o) { StillRefunded(pay, pay', o); }
    if pay' != pay { assert pay'.refunds[|pay.refunds|].order == b; }
  }

  lemma {:induction false} SagaStatus(s: Sys, e: Step, o: P.OrderId)
    requires !e.Gateway? && o in Next(s, e).pay.orders && Clean(Next(s, e).pay, o)
    ensures Clean(s.pay, o) && Next(s, e).pay.orders[o].status == StatusAfter(s, e, o)
  {
    if e.Undo? {
      UndoStatus(s, e.p, e.up, e.answer, o);
    } else if e.Refund? {
      RefundStatus(s, e.p, e.up, e.answer, o);
    } else if e.Pay? {
      PayStatus(s, e.p, e.up, o);
    } else {
      OthersLeavePay(s, e);
    }
  }

  lemma {:induction false} OthersLeavePay(s: Sys, e: Step)
    requires !e.Gateway? && !e.Undo? && !e.Refund? && !e.Pay?
    ensures Next(s, e).pay == s.pay
  {
  }

  lemma {:induction false} PayStatus(s: Sys, p: ProcId, up: bool, o: P.OrderId)
    requires o in PayStep(s, p, up).pay.orders
    ensures PayStep(s, p, up).pay.refunds == s.pay.refunds
    ensures PayStep(s, p, up).pay.orders[o].status == if o in s.pay.orders then s.pay.orders[o].status else P.Created
  {
  }

  lemma {:induction false} UndoStatus(s: Sys, p: ProcId, up: bool, answer: Option<P.GatewayRefundId>, o: P.OrderId)
    requires o in UndoStep(s, p, up, answer).pay.orders && Clean(UndoStep(s, p, up, answer).pay, o)
    ensures Clean(s.pay, o) && o in s.pay.orders && UndoStep(s, p, up, answer).pay.orders[o] == s.pay.orders[o]
  {
    UndoPays(s, p, up, answer);
    if UndoStep(s, p, up, answer).pay != s.pay {
      var b := s.procs[p].booking;
      RefundLeavesClean(s.pay, b, s.bookings[b].amount, P.Compensation(b), answer, o);
    }
  }

  lemma {:induction false} RefundStatus(s: Sys, p: ProcId, up: bool, answer: Option<P.GatewayRefundId>, o: P.OrderId)
    requires o in RefundStep(s, p, up, answer).pay.orders && Clean(RefundStep(s, p, up, answer).pay, o)
    ensures Clean(s.pay, o) && o in s.pay.orders && RefundStep(s, p, up, answer).pay.orders[o] == s.pay.orders[o]
  {
    if At(s, p, ScheduleClose, Refunding) && up {
      var b := s.procs[p].booking;
      RefundLeavesClean(s.pay, b, s.bookings[b].amount, P.ScheduleCancel(b), answer, o);
    }
  }

  lemma {:induction false} UndoPays(s: Sys, p: ProcId, up: bool, answer: Option<P.GatewayRefundId>)
    ensures var s' := UndoStep(s, p, up, answer);
            s'.pay == s.pay ||
            (p in s.procs && s.procs[p].booking in s.bookings
             && s.procs[p].seenOrder
             && var b := s.procs[p].booking;
                s'.pay == P.InitiateRefund(s.pay, b, s.bookings[b].amount, P.Compensation(b), answer).0)
  {
  }

  lemma {:induction false} StatusIsLastWrite(es: seq<Step>, o: P.OrderId)
    requires o in Run(START, es).pay.orders ==> Clean(Run(START, es).pay, o)
    ensures FailedSinceCapture(es, o) <==> P.IsIn(Run(START, es).pay, o, P.Failed)
    decreases |es|
  {
    if es != [] {
      var pre, e := es[..|es| - 1], es[|es| - 1];
      LastStep(es);
      RunKeepsMoney(START, pre);
      SinceStep(es, o);
      FailedAfter(Run(START, pre), e, o);
      StatusIsLastWrite(pre, o);
    }
  }

  /** One step, for an order that is not refunded after it. */
  lemma {:induction false} FailedAfter(s: Sys, e: Step, o: P.OrderId)
    requires MoneyInv(s) && (o in Next(s, e).pay.orders ==> Clean(Next(s, e).pay, o))
    ensures o in s.pay.orders ==> Clean(s.pay, o)
    ensures P.IsIn(Next(s, e).pay, o, P.Failed) <==>
              WritesFailure(s, e, o) || (P.IsIn(s.pay, o, P.Failed) && !WritesCapture(s, e, o))
  {
    OrderStays(s, e, o);
    if o in Next(s, e).pay.orders {
      if e.Gateway? { GatewayStatus(s, e.act, o); } else { SagaStatus(s, e, o); }
    }
  }

  /** Orders are not deleted, and a handler that writes has one. */
  lemma {:induction false} OrderStays(s: Sys, e: Step, o: P.OrderId)
    requires MoneyInv(s)
    ensures o in s.pay.orders ==> o in Next(s, e).pay.orders
    ensures WritesFailure(s, e, o) || WritesCapture(s, e, o) ==> o in s.pay.orders
  {
    if e.Gateway? {
      GatewayGrows(s, e.act);
      if e.act.Write? && e.act.c in s.due { assert DueFits(s.pay, s.due[e.act.c]); }
    } else if e.Undo? {
      UndoPays(s, e.p, e.up, e.answer);
    } else if e.Refund? || e.Pay? {
      assert s.pay.orders.Keys <= Next(s, e).pay.orders.Keys;
    } else {
      OthersLeavePay(s, e);
    }
  }

  /** The order of a CONFIRMED booking says CAPTURED exactly when no failure of it was written after its
      last capture. */
  lemma {:induction false} CapturedIff(es: seq<Step>, b: BookingId)
    requires b in Run(START, es).bookings && Run(START, es).bookings[b].status == Confirmed
    ensures P.IsIn(Run(START, es).pay, b, P.Captured) <==> !FailedSinceCapture(es, b)
  {
    ConfirmedIsPaid(es, b);
    StatusIsLastWrite(es, b);
  }
}
