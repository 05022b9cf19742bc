/** What each call of the payment service answers and leaves, said of orders and refunds one by one,
    without the functions that compute it. */
module PaymentCalls {
  import opened Ledger
  import opened Payments

  // ----- vocabulary -----

  /** Nothing but the row of this order differs, and of it neither the amount nor whether there is one. */
  predicate OnlyOrder(p: Pay, p': Pay, o: OrderId) {
    && p'.keys == p.keys && p'.orders.Keys == p.orders.Keys
    && forall x | x in p.orders :: p'.orders[x].amount == p.orders[x].amount && (x != o ==> p'.orders[x] == p.orders[x])
  }

  /** A refund of this amount fits: it is not nothing, the order is paid or partly paid back, with its
      gateway payment known, and the refunds that it has leave room. */
  predicate HasRoom(p: Pay, o: OrderId, amount: int) {
    && amount != 0 && o in p.orders && p.orders[o].payment
    && (p.orders[o].status == Captured || p.orders[o].status == PartiallyRefunded)
    && NotFailed(p.refunds, o) + amount <= p.orders[o].amount
  }

  /** The gateway answers with an id, and no refund has this id or this key yet. */
  predicate Answers(p: Pay, key: RefundKey, answer: Option<GatewayRefundId>) {
    answer.Some? && forall i | 0 <= i < |p.refunds| :: p.refunds[i].id != answer.value && p.refunds[i].key != key
  }

  /** A new refund will be made. */
  predicate Refundable(p: Pay, o: OrderId, amount: int, key: RefundKey, answer: Option<GatewayRefundId>) {
    key !in p.keys && HasRoom(p, o, amount) && Answers(p, key, answer)
  }

  /** One refund of this amount is recorded for the order, which waits for it, and under the key. */
  predicate PaidBack(p: Pay, p': Pay, o: OrderId, amount: int, key: RefundKey, id: GatewayRefundId) {
    && p'.refunds == p.refunds + [Refund(id, o, amount, Initiated, key)]
    && o in p.orders && p'.orders.Keys == p.orders.Keys && p'.orders[o] == p.orders[o].(status := RefundInitiated)
    && (forall x | x in p.orders && x != o :: p'.orders[x] == p.orders[x])
    && p'.keys.Keys == p.keys.Keys + {key} && p'.keys[key] == id
    && forall k | k in p.keys && k != key :: p'.keys[k] == p.keys[k]
  }

  /** A new order waits for its payment. */
  predicate OrderMade(p: Pay, p': Pay, o: OrderId, amount: int) {
    && p'.refunds == p.refunds && p'.keys == p.keys && p'.orders.Keys == p.orders.Keys + {o}
    && (forall x | x in p.orders && x != o :: p'.orders[x] == p.orders[x])
    && p'.orders[o] == Order(amount, Created, false, false, false)
  }

  // ----- orders -----

  /** An order is made once, for a positive amount. */
  lemma {:induction false} CreateDoes(p: Pay, o: OrderId, amount: int)
    ensures var p' := CreateOrder(p, o, amount);
            if o !in p.orders && amount > 0 then OrderMade(p, p', o, amount) else p' == p
  {
  }

  /** A capture or a failure settles a CREATED order, once: whatever comes second finds it settled. A
      captured order knows its payment, and so does one whose failure names it. */
  lemma {:induction false} SettlesOnce(p: Pay, o: OrderId, named: bool)
    ensures var paid, failed := Capture(p, o), Fail(p, o, named);
            if o in p.orders && p.orders[o].status == Created then
              && OnlyOrder(p, paid, o) && OnlyOrder(p, failed, o) && paid.refunds == failed.refunds == p.refunds
              && paid.orders[o] == Order(p.orders[o].amount, Captured, true, true, p.orders[o].declined)
              && failed.orders[o]
                 == Order(p.orders[o].amount, Failed, p.orders[o].payment || named, p.orders[o].succeeded, true)
            else paid == p && failed == p
    ensures Fail(Capture(p, o), o, named) == Capture(p, o) == Capture(Capture(p, o), o)
    ensures Capture(Fail(p, o, named), o) == Fail(p, o, named)
  {
  }

  // ----- refunds -----

  /** A refund is accepted exactly when its key has been used, and then it is the refund of that time
      and nothing changes, or when there is room for it and the gateway answers. */
  lemma {:induction false} RefundDoes(p: Pay, o: OrderId, amount: int, key: RefundKey, answer: Option<GatewayRefundId>)
    ensures var (p', reply) := InitiateRefund(p, o, amount, key, answer);
            if amount != 0 && key in p.keys then p' == p && reply == Accepted(p.keys[key])
            else if Refundable(p, o, amount, key, answer) then
              PaidBack(p, p', o, amount, key, answer.value) && reply == Accepted(answer.value)
            else p' == p && reply.Rejected?
  {
    var early := Early(p, o, amount, key);
    if early.None? && answer.Some? {
      assert Answers(p, key, answer) <==> IsNew(p.refunds, answer.value, key);
    }
  }

  /** Why it is refused. */
  lemma {:induction false} RefusedBecause(p: Pay, o: OrderId, amount: int, key: RefundKey,
      answer: Option<GatewayRefundId>)
    requires amount == 0 || key !in p.keys
    requires !Refundable(p, o, amount, key, answer)
    ensures InitiateRefund(p, o, amount, key, answer).1 == Rejected(
              if amount == 0 then BadRequest
              else if o !in p.orders then NotFound
              else if HasRoom(p, o, amount) then Internal
              else if p.orders[o].payment
                      && (p.orders[o].status == Captured || p.orders[o].status == PartiallyRefunded)
              then BadRequest else Conflict)
  {
    RefundDoes(p, o, amount, key, answer);
  }

  /** A webhook completes its refund, and no other, and makes the order REFUNDED exactly when the
      completed refunds have reached its amount. */
  lemma {:induction false} ProcessedDoes(p: Pay, o: OrderId, id: GatewayRefundId)
    requires Sane(p)
    ensures var p' := RefundProcessed(p, o, id);
            && (o !in p.orders || !HasId(p.refunds, id) ==> p' == p)
            && forall i | 0 <= i < |p.refunds| && p.refunds[i].id == id && o in p.orders ::
                 && OnlyOrder(p, p', o) && p'.refunds == p.refunds[i := p.refunds[i].(status := Completed)]
                 && p'.orders[o] == p.orders[o].(status :=
                      if CompletedSum(p'.refunds, o) >= p.orders[o].amount then Refunded else PartiallyRefunded)
  {
    forall i | 0 <= i < |p.refunds| && p.refunds[i].id == id
      ensures Payments.Complete(p.refunds, id) == p.refunds[i := p.refunds[i].(status := Completed)] {}
  }
}
