/** The `orders` collection as an object whose handlers update documents in place: one
    method per request handler. Each method is proved to produce the reply, the gateway
    call and the new collection that the corresponding outcome function describes. */
module Store {
  import opened Values
  import opened Orders
  import opened PaymentRoutes
  import opened PaymentController

  class OrderStore {
    var orders: Db

    constructor (initial: Db)
      ensures orders == initial
    {
      orders := initial;
    }

    /** POST /create-order (paymentController.createOrder). */
    method CreateOrder(userId: string, req: CreateRequest, gateway: Option<GatewayOrder>, freshId: string)
      returns (call: GatewayOrderRequest, reply: CreateReply)
      requires freshId !in orders
      modifies this
      ensures CreateResult(reply, orders, call) == CreateOutcome(old(orders), userId, req, gateway, freshId)
    {
      call := GatewayOrderRequest(req.amount * 100, OrDefault(req.currency, DefaultCurrency), 1);
      if gateway.None? {
        reply := CreateFailed;
        return;
      }
      var g := gateway.value;
      orders := orders[freshId := NewOrder(userId, req, g)];
      reply := OrderCreated(g.id, g.amount, g.currency, freshId);
    }

    /** POST /verify-payment (paymentController.verifyPayment). `pick` is the document the
        query returned, when it returned one. */
    method VerifyPayment(userId: string, req: VerifyRequest, secret: string, sign: (string, string) -> string)
      returns (reply: VerifyReply, ghost pick: string)
      modifies this
      ensures Picks(old(orders), req.orderId, userId, pick)
      ensures VerifyResult(reply, orders) == VerifyOutcome(old(orders), userId, req, secret, sign, pick)
    {
      pick := "";
      if Matching(orders, req.orderId, userId) != {} {
        // a rejected request reads no document; any match stands for the one the query would return
        pick :| pick in Matching(orders, req.orderId, userId);
      }
      var generated := sign(SignaturePayload(req.orderId, req.paymentId), secret);
      if generated != req.signature {
        reply := InvalidSignature;
        return;
      }
      var found := Matching(orders, req.orderId, userId);
      if found == {} {
        reply := VerifyNotFound;
        return;
      }
      var id :| id in found;
      pick := id;
      orders := orders[id := MarkPaid(orders[id], req.paymentId, req.signature)];
      reply := Verified(id);
    }

    /** POST /:orderId/fail. */
    method FailOrder(orderId: string, reason: Option<string>) returns (reply: FailReply)
      modifies this
      ensures FailResult(reply, orders) == FailOutcome(old(orders), orderId, reason)
    {
      if orderId !in orders {
        reply := FailNotFound;
        return;
      }
      var o := orders[orderId];
      orders := orders[orderId := o.(status := Some(StatusFailed),
                                     failureReason := Some(OrDefault(reason, DefaultFailureReason)))];
      reply := MarkedFailed;
    }

    /** `initiateRefund(orderId, amount, reason, speed)`; `gateway` is the reply of the
        gateway's refund call, and `call` what that call was sent (`None`: not called). */
    method InitiateRefund(orderId: string, amount: Option<int>, reason: string, speed: string,
                          gateway: Option<RefundResponse>)
      returns (reply: RefundReply, call: Option<RefundPayload>)
      modifies this
      ensures RefundResult(reply, orders, call) == RefundOutcome(old(orders), orderId, amount, reason, speed, gateway)
    {
      call := None;
      if orderId !in orders {
        reply := RefundFailed(OrderMissing);
        return;
      }
      var o := orders[orderId];
      if !Truthy(o.paymentId) {
        reply := RefundFailed(NoPaymentId);
        return;
      }
      if o.paymentStatus != Some(PaymentCaptured) {
        reply := RefundFailed(NotCaptured(o.paymentStatus));
        return;
      }
      if FullyRefunded(o) {
        reply := RefundFailed(AlreadyRefunded);
        return;
      }
      call := Some(RefundPayload(o.paymentId.value, amount, speed, reason, orderId, RefundInitiator));
      if gateway.None? {
        reply := RefundFailed(GatewayFailed);
        return;
      }
      var g := gateway.value;
      var record := RefundRecord(g.id, g.amount, g.status, g.createdAt, reason, speed);
      var newRefundedAmount := OrZero(o.amountRefunded) + g.amount;
      var isFullRefund := o.totalAmount.Some? && newRefundedAmount >= o.totalAmount.value;
      orders := orders[orderId := o.(refunds := ArrayUnion(o.refunds, record),
                                     amountRefunded := Some(newRefundedAmount),
                                     paymentStatus := Some(if isFullRefund then PaymentRefunded
                                                           else PaymentPartiallyRefunded))];
      reply := Refunded(g.id, g.amount, g.status);
    }

    /** POST /:orderId/cancel; `gateway` is the reply of the refund call it may make. */
    method CancelOrder(orderId: string, userId: Option<string>, reason: Option<string>, gateway: Option<RefundResponse>)
      returns (reply: CancelReply, refundCall: Option<RefundPayload>)
      modifies this
      ensures CancelResult(reply, orders, refundCall) == CancelOutcome(old(orders), orderId, userId, reason, gateway)
    {
      refundCall := None;
      if orderId !in orders {
        reply := CancelNotFound;
        return;
      }
      var orderData := orders[orderId];
      if orderData.customerUid != userId && orderData.restaurantUid != userId {
        reply := CancelForbidden;
        return;
      }
      if orderData.status != Some(StatusPending) {
        reply := NotCancellable(NotCancellableMessage(orderData.status));
        return;
      }
      if userId.None? {
        // Firestore refuses the update's `cancelledBy: undefined`
        reply := CancelFailed;
        return;
      }
      orders := orders[orderId := orderData.(status := Some(StatusCancelled),
                                             cancellationReason := Some(OrDefault(reason, DefaultCancellationReason)),
                                             cancelledBy := userId)];
      reply := Cancelled;
      if orderData.paymentStatus == Some(PaymentCaptured) {
        var refund;
        refund, refundCall := InitiateRefund(orderId, orderData.totalAmount, DefaultRefundReason, DefaultRefundSpeed,
                                             gateway);
        if refund.RefundFailed? {
          reply := CancelFailed;
        }
      }
    }
  }
}
