/** The payment service's orders and refunds, as values, and each of its calls as one function on
    them. Amounts are whole paise. PaymentRuns.dfy takes the calls apart into their statements. */
module Payments {
  import opened Ledger

  type OrderId = nat
  type GatewayRefundId = nat

  datatype OrderStatus = Created | Captured | Failed | RefundInitiated | Refunded | PartiallyRefunded

  datatype RefundStatus = Initiated | Processing | Completed | RefundFailed

  /** The idempotency keys the booking service builds, and any other. */
  datatype RefundKey = Compensation(booking: BookingId) | ScheduleCancel(booking: BookingId) | Ticket(n: nat)

  /** `payment` says that gatewayPaymentId is set, `succeeded` and `declined` that PAYMENT_SUCCESS or
      PAYMENT_FAILED has been published for the order. */
  datatype Order = Order(amount: int, status: OrderStatus, payment: bool, succeeded: bool, declined: bool)

  datatype Refund = Refund(id: GatewayRefundId, order: OrderId, amount: int, status: RefundStatus, key: RefundKey)

  /** `keys` holds the cached answers of withIdempotency: which refund a key has created. */
  datatype Pay = Pay(orders: map<OrderId, Order>, refunds: seq<Refund>, keys: map<RefundKey, GatewayRefundId>)

  datatype RefundReply = Accepted(id: GatewayRefundId) | Rejected(error: Error)

  const NO_PAYMENTS := Pay(map[], [], map[])

  function SetStatus(p: Pay, o: OrderId, status: OrderStatus): Pay
    requires o in p.orders
  {
    p.(orders := p.orders[o := p.orders[o].(status := status)])
  }

  function CreateOrder(p: Pay, o: OrderId, amount: int): Pay {
    if o in p.orders || amount <= 0 then p
    else p.(orders := p.orders[o := Order(amount, Created, false, false, false)])
  }

  /** The unconditional writes at the end of the capture and failure handlers, and the events that
      follow them. A failed payment is `named` by its webhook, not by a bad signature. */
  function WriteCaptured(p: Pay, o: OrderId): Pay
    requires o in p.orders
  {
    p.(orders := p.orders[o := p.orders[o].(status := Captured, payment := true, succeeded := true)])
  }

  function WriteFailed(p: Pay, o: OrderId, named: bool): Pay
    requires o in p.orders
  {
    var order := p.orders[o];
    p.(orders := p.orders[o := order.(status := Failed, payment := order.payment || named, declined := true)])
  }

  predicate IsIn(p: Pay, o: OrderId, status: OrderStatus) {
    o in p.orders && p.orders[o].status == status
  }

  /** payment.captured, payment.authorized, or a verified signature. */
  function Capture(p: Pay, o: OrderId): Pay {
    if IsIn(p, o, Created) then WriteCaptured(p, o) else p
  }

  /** payment.failed, or a signature that does not verify. */
  function Fail(p: Pay, o: OrderId, named: bool): Pay {
    if IsIn(p, o, Created) then WriteFailed(p, o, named) else p
  }

  /** The sum over the order's refunds that have not failed. */
  function NotFailed(refunds: seq<Refund>, o: OrderId): int {
    if refunds == [] then 0
    else (if refunds[0].order == o && refunds[0].status != RefundFailed then refunds[0].amount else 0)
         + NotFailed(refunds[1..], o)
  }

  /** The sum over the order's refunds that are completed. */
  function CompletedSum(refunds: seq<Refund>, o: OrderId): int {
    if refunds == [] then 0
    else (if refunds[0].order == o && refunds[0].status == Completed then refunds[0].amount else 0)
         + CompletedSum(refunds[1..], o)
  }

  predicate HasId(refunds: seq<Refund>, id: GatewayRefundId) {
    exists i :: 0 <= i < |refunds| && refunds[i].id == id
  }

  predicate HasKey(refunds: seq<Refund>, key: RefundKey) {
    exists i :: 0 <= i < |refunds| && refunds[i].key == key
  }

  /** What initiateRefund answers before it asks the gateway, if it does not ask. */
  function Early(p: Pay, o: OrderId, amount: int, key: RefundKey): Option<RefundReply> {
    if amount == 0 then Some(Rejected(BadRequest))
    else if key in p.keys then Some(Accepted(p.keys[key]))
    else if o !in p.orders then Some(Rejected(NotFound))
    else if p.orders[o].status != Captured && p.orders[o].status != PartiallyRefunded then Some(Rejected(Conflict))
    else if !p.orders[o].payment then Some(Rejected(Conflict))
    else if NotFailed(p.refunds, o) + amount > p.orders[o].amount then Some(Rejected(BadRequest))
    else None
  }

  /** The new row breaks no unique index: neither its id nor its key is taken. */
  predicate IsNew(refunds: seq<Refund>, id: GatewayRefundId, key: RefundKey) {
    !HasId(refunds, id) && !HasKey(refunds, key)
  }

  function Recorded(p: Pay, o: OrderId, amount: int, key: RefundKey, id: GatewayRefundId): Pay {
    p.(refunds := p.refunds + [Refund(id, o, amount, Initiated, key)])
  }

  /** `answer` is the id the gateway gives the refund, or None when it refuses. */
  function InitiateRefund(p: Pay, o: OrderId, amount: int, key: RefundKey, answer: Option<GatewayRefundId>)
    : (Pay, RefundReply)
  {
    var early := Early(p, o, amount, key);
    if early.Some? then (p, early.value)
    else if answer.None? || !IsNew(p.refunds, answer.value, key) then (p, Rejected(Internal))
    else
      var p1 := SetStatus(Recorded(p, o, amount, key, answer.value), o, RefundInitiated);
      (p1.(keys := p1.keys[key := answer.value]), Accepted(answer.value))
  }

  function Complete(refunds: seq<Refund>, id: GatewayRefundId): seq<Refund> {
    seq(|refunds|, i requires 0 <= i < |refunds| =>
      if refunds[i].id == id then refunds[i].(status := Completed) else refunds[i])
  }

  /** What the completed refunds of the order make of it. */
  function Counted(p: Pay, o: OrderId): OrderStatus
    requires o in p.orders
  {
    if CompletedSum(p.refunds, o) >= p.orders[o].amount then Refunded else PartiallyRefunded
  }

  /** refund.processed or refund.created, for the payment order `o` of the webhook's payment. */
  function RefundProcessed(p: Pay, o: OrderId, id: GatewayRefundId): Pay {
    if o !in p.orders || !HasId(p.refunds, id) then p
    else
      var p1 := p.(refunds := Complete(p.refunds, id));
      SetStatus(p1, o, Counted(p1, o))
  }

  // ----- what the calls keep -----

  /** Orders and refunds have positive amounts, and neither ids nor keys of refunds repeat. */
  predicate Sane(p: Pay) {
    && (forall o | o in p.orders :: p.orders[o].amount > 0)
    && (forall i | 0 <= i < |p.refunds| ::
          p.refunds[i].amount > 0 && p.refunds[i].status != RefundFailed && p.refunds[i].order in p.orders)
    && (forall i, j | 0 <= i < j < |p.refunds| ::
          p.refunds[i].id != p.refunds[j].id && p.refunds[i].key != p.refunds[j].key)
  }

  predicate Bounded(p: Pay) {
    forall o | o in p.orders :: NotFailed(p.refunds, o) <= p.orders[o].amount
  }

  /** The completed refunds of a REFUNDED order sum to its amount at least. */
  predicate RefundedEnough(p: Pay) {
    forall o | o in p.orders && p.orders[o].status == Refunded :: CompletedSum(p.refunds, o) >= p.orders[o].amount
  }

  predicate PaySound(p: Pay) {
    Sane(p) && Bounded(p) && RefundedEnough(p)
  }

  lemma {:induction false} SumsAppend(refunds: seq<Refund>, r: Refund, o: OrderId)
    ensures NotFailed(refunds + [r], o)
         == NotFailed(refunds, o) + if r.order == o && r.status != RefundFailed then r.amount else 0
    ensures CompletedSum(refunds + [r], o)
         == CompletedSum(refunds, o) + if r.order == o && r.status == Completed then r.amount else 0
  {
    if refunds != [] {
      assert (refunds + [r])[1..] == refunds[1..] + [r];
      SumsAppend(refunds[1..], r, o);
    }
  }

  lemma {:induction false} CompleteTail(refunds: seq<Refund>, id: GatewayRefundId)
    requires refunds != []
    ensures Complete(refunds, id)[1..] == Complete(refunds[1..], id)
  {
  }

  /** Completing a refund moves it between sums: none grows past the sum of all that have not failed. */
  lemma {:induction false} SumsComplete(refunds: seq<Refund>, id: GatewayRefundId, o: OrderId)
    requires forall i | 0 <= i < |refunds| :: refunds[i].amount > 0 && refunds[i].status != RefundFailed
    ensures var after := Complete(refunds, id);
            && NotFailed(after, o) == NotFailed(refunds, o)
            && CompletedSum(refunds, o) <= CompletedSum(after, o) <= NotFailed(after, o)
  {
    if refunds != [] {
      CompleteTail(refunds, id);
      SumsComplete(refunds[1..], id, o);
    }
  }

  /** Refunds that do not belong to the order leave its sums alone. */
  lemma {:induction false} NoRefundsNoSum(refunds: seq<Refund>, o: OrderId)
    requires forall i | 0 <= i < |refunds| :: refunds[i].order != o
    ensures NotFailed(refunds, o) == 0 && CompletedSum(refunds, o) == 0
  {
    if refunds != [] { NoRefundsNoSum(refunds[1..], o); }
  }

  lemma {:induction false} CompletedIsNotFailed(refunds: seq<Refund>, o: OrderId)
    requires forall i | 0 <= i < |refunds| :: refunds[i].amount > 0
    ensures CompletedSum(refunds, o) <= NotFailed(refunds, o)
  {
    if refunds != [] { CompletedIsNotFailed(refunds[1..], o); }
  }

  lemma {:induction false} CreateIsSound(p: Pay, o: OrderId, amount: int)
    requires PaySound(p)
    ensures PaySound(CreateOrder(p, o, amount))
  {
    if o !in p.orders { NoRefundsNoSum(p.refunds, o); }
  }

  /** A recorded refund is new for its order, and for no other. */
  lemma {:induction false} RecordedSums(p: Pay, o: OrderId, amount: int, key: RefundKey, id: GatewayRefundId,
      x: OrderId)
    ensures var p' := Recorded(p, o, amount, key, id);
            && NotFailed(p'.refunds, x) == NotFailed(p.refunds, x) + (if x == o then amount else 0)
            && CompletedSum(p'.refunds, x) == CompletedSum(p.refunds, x)
  {
    SumsAppend(p.refunds, Refund(id, o, amount, Initiated, key), x);
  }

  lemma {:induction false} RecordedIsSane(p: Pay, o: OrderId, amount: int, key: RefundKey, id: GatewayRefundId)
    requires Sane(p) && o in p.orders && amount > 0 && IsNew(p.refunds, id, key)
    ensures Sane(Recorded(p, o, amount, key, id))
  {
  }

  lemma {:induction false} RefundIsSound(p: Pay, o: OrderId, amount: int, key: RefundKey,
      answer: Option<GatewayRefundId>)
    requires PaySound(p) && (answer.Some? ==> amount > 0)
    ensures PaySound(InitiateRefund(p, o, amount, key, answer).0)
  {
    var p' := InitiateRefund(p, o, amount, key, answer).0;
    if p' != p {
      RecordedIsSane(p, o, amount, key, answer.value);
      forall x | x in p.orders ensures NotFailed(p'.refunds, x) <= p'.orders[x].amount
                                       && CompletedSum(p'.refunds, x) == CompletedSum(p.refunds, x) {
        RecordedSums(p, o, amount, key, answer.value, x);
      }
    }
  }

  lemma {:induction false} CompleteIsSane(p: Pay, id: GatewayRefundId)
    requires Sane(p)
    ensures Sane(p.(refunds := Complete(p.refunds, id)))
  {
  }

  lemma {:induction false} ProcessedIsSound(p: Pay, o: OrderId, id: GatewayRefundId)
    requires PaySound(p)
    ensures PaySound(RefundProcessed(p, o, id))
  {
    var p' := RefundProcessed(p, o, id);
    if p' != p {
      CompleteIsSane(p, id);
      forall x | x in p.orders ensures NotFailed(p'.refunds, x) == NotFailed(p.refunds, x)
                                       && CompletedSum(p.refunds, x) <= CompletedSum(p'.refunds, x) {
        SumsComplete(p.refunds, id, x);
      }
    }
  }

  /** In a sound state a REFUNDED order is refunded exactly. */
  lemma {:induction false} RefundedInFull(p: Pay, o: OrderId)
    requires PaySound(p) && IsIn(p, o, Refunded)
    ensures CompletedSum(p.refunds, o) == NotFailed(p.refunds, o) == p.orders[o].amount
  {
    CompletedIsNotFailed(p.refunds, o);
  }

  /** A late capture takes a REFUNDED order back to CAPTURED. No money follows: only a key that has
      made its refund before is answered, with that refund, and nothing is paid back again. */
  lemma {:induction false} LateCaptureReopens(p: Pay, o: OrderId, amount: int, key: RefundKey,
      answer: Option<GatewayRefundId>)
    requires PaySound(p) && IsIn(p, o, Refunded) && amount > 0
    ensures var reopened := WriteCaptured(p, o);
            && IsIn(reopened, o, Captured) && Capture(p, o) == p
            && InitiateRefund(reopened, o, amount, key, answer).0 == reopened
            && (InitiateRefund(reopened, o, amount, key, answer).1.Accepted? <==> key in p.keys)
  {
    RefundedInFull(p, o);
  }
}
