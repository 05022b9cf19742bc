/** The payment service as it works: orders, refunds and idempotency records updated in place.
    Each call is proved to compute the value that Payments.dfy gives it. */
module PaymentService {
  import opened Ledger
  import P = Payments

  datatype Verified = AlreadyCaptured | NowCaptured | VerifyFailed(error: Error)

  class PaymentOrders {
    var orders: map<P.OrderId, P.Order>
    var refunds: seq<P.Refund>
    var keys: map<P.RefundKey, P.GatewayRefundId>

    ghost function State(): P.Pay
      reads this
    {
      P.Pay(orders, refunds, keys)
    }

    ghost predicate Valid()
      reads this
    {
      P.PaySound(State())
    }

    constructor ()
      ensures State() == P.NO_PAYMENTS && Valid()
    {
      orders, refunds, keys := map[], [], map[];
    }

    /** `o` is the id the new record gets. */
    method CreatePaymentOrder(o: P.OrderId, amount: int) returns (ok: bool)
      requires Valid() && o !in orders
      modifies this`orders
      ensures Valid() && State() == P.CreateOrder(old(State()), o, amount)
      ensures ok <==> amount > 0
    {
      P.CreateIsSound(State(), o, amount);
      if amount <= 0 { return false; }
      orders := orders[o := P.Order(amount, P.Created, false, false, false)];
      ok := true;
    }

    method HandlePaymentCaptured(o: P.OrderId)
      requires Valid()
      modifies this`orders
      ensures Valid() && State() == P.Capture(old(State()), o)
    {
      if o !in orders { return; }
      if orders[o].status == P.Captured { return; }
      if orders[o].status != P.Created { return; }
      orders := orders[o := orders[o].(status := P.Captured, payment := true, succeeded := true)];
    }

    method HandlePaymentFailed(o: P.OrderId)
      requires Valid()
      modifies this`orders
      ensures Valid() && State() == P.Fail(old(State()), o, true)
    {
      if o !in orders { return; }
      if orders[o].status == P.Failed { return; }
      if orders[o].status != P.Created { return; }
      orders := orders[o := orders[o].(status := P.Failed, payment := true, declined := true)];
    }

    /** A signature that verifies captures the order, any other fails it. */
    method VerifyAndCapturePayment(o: P.OrderId, signatureIsValid: bool) returns (reply: Verified)
      requires Valid()
      modifies this`orders
      ensures Valid()
      ensures State() == if signatureIsValid then P.Capture(old(State()), o) else P.Fail(old(State()), o, false)
      ensures reply.NowCaptured? ==> o in orders && orders[o].status == P.Captured && orders[o].payment
      ensures reply.AlreadyCaptured? <==> o in old(orders) && old(orders[o]).status == P.Captured
      ensures reply.NowCaptured? <==> o in old(orders) && old(orders[o]).status == P.Created && signatureIsValid
      ensures reply == VerifyFailed(NotFound) <==> o !in old(orders)
      ensures reply == VerifyFailed(BadRequest) <==>
        o in old(orders) && old(orders[o]).status == P.Created && !signatureIsValid
    {
      if o !in orders { return VerifyFailed(NotFound); }
      if orders[o].status == P.Captured { return AlreadyCaptured; }
      if orders[o].status != P.Created { return VerifyFailed(Conflict); }
      if !signatureIsValid {
        orders := orders[o := orders[o].(status := P.Failed, declined := true)];
        return VerifyFailed(BadRequest);
      }
      orders := orders[o := orders[o].(status := P.Captured, payment := true, succeeded := true)];
      reply := NowCaptured;
    }

    /** initiateRefund under withIdempotency; `answer` is the gateway's. */
    method InitiateRefund(o: P.OrderId, amount: int, key: P.RefundKey, answer: Option<P.GatewayRefundId>)
      returns (reply: P.RefundReply)
      requires Valid() && (answer.Some? ==> amount > 0)
      modifies this
      ensures Valid() && (State(), reply) == P.InitiateRefund(old(State()), o, amount, key, answer)
    {
      P.RefundIsSound(State(), o, amount, key, answer);
      if amount == 0 { return P.Rejected(BadRequest); }
      if key in keys { return P.Accepted(keys[key]); }
      if o !in orders { return P.Rejected(NotFound); }
      var order := orders[o];
      if order.status != P.Captured && order.status != P.PartiallyRefunded { return P.Rejected(Conflict); }
      if !order.payment { return P.Rejected(Conflict); }
      var totalRefunded := P.NotFailed(refunds, o);
      if totalRefunded + amount > order.amount { return P.Rejected(BadRequest); }
      if answer.None? || P.HasId(refunds, answer.value) || P.HasKey(refunds, key) { return P.Rejected(Internal); }
      refunds := refunds + [P.Refund(answer.value, o, amount, P.Initiated, key)];
      orders := orders[o := order.(status := P.RefundInitiated)];
      keys := keys[key := answer.value];
      reply := P.Accepted(answer.value);
    }

    /** A refund webhook for the order of its payment: the refund first, then the order. */
    method HandleRefundProcessed(o: P.OrderId, id: P.GatewayRefundId)
      requires Valid()
      modifies this
      ensures Valid() && State() == P.RefundProcessed(old(State()), o, id)
    {
      P.ProcessedIsSound(State(), o, id);
      if o !in orders { return; }
      var i := FindRefund(id);
      if i == |refunds| { return; }
      refunds := refunds[i := refunds[i].(status := P.Completed)];
      assert refunds == P.Complete(old(refunds), id);
      var totalRefunded := P.CompletedSum(refunds, o);
      var newStatus := if totalRefunded >= orders[o].amount then P.Refunded else P.PartiallyRefunded;
      orders := orders[o := orders[o].(status := newStatus)];
    }

    method FindRefund(id: P.GatewayRefundId) returns (i: nat)
      ensures i <= |refunds| && (i < |refunds| ==> refunds[i].id == id)
      ensures i == |refunds| <==> !P.HasId(refunds, id)
    {
      i := 0;
      while i < |refunds| && refunds[i].id != id
        invariant i <= |refunds| && forall j | 0 <= j < i :: refunds[j].id != id
      {
        i := i + 1;
      }
    }
  }
}
