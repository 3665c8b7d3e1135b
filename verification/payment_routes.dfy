/** The handlers of routes/paymentRoutes.js as functions from the `orders` collection
    before the request to the reply and the collection after it: `/:orderId/fail`,
    `/:orderId/cancel` and `initiateRefund`. The payment gateway's refund endpoint is an
    input (its reply, or `None` when the call throws) and an output (the payload the
    handler sends, or `None` when it is never called). */
module PaymentRoutes {
  import opened Values
  import opened Orders

  const DefaultFailureReason := "Payment failed"
  const DefaultCancellationReason := "User requested cancellation"
  /** `initiateRefund`'s default parameters, which the cancel handler relies on. */
  const DefaultRefundReason := "User requested cancellation"
  const DefaultRefundSpeed := "normal"
  const RefundInitiator := "system"

  // ----- /:orderId/fail -----

  datatype FailReply =
    | MarkedFailed   // 200 'Order marked as failed'
    | FailNotFound   // 404 'Order not found'

  datatype FailResult = FailResult(reply: FailReply, db: Db)

  /** The `/:orderId/fail` handler: the order is marked failed whatever its status was. */
  function FailOutcome(db: Db, orderId: string, reason: Option<string>): (r: FailResult)
    ensures orderId !in db <==> r.reply == FailNotFound
    ensures orderId !in db ==> r.db == db
    ensures orderId in db ==> OthersUnchanged(db, r.db, orderId)
    ensures orderId in db ==> r.db[orderId].status == Some(StatusFailed)
    ensures orderId in db ==> r.db[orderId].failureReason.Some?
    ensures orderId in db && Truthy(reason) ==> r.db[orderId].failureReason == reason
    ensures orderId in db && !Truthy(reason) ==> r.db[orderId].failureReason == Some(DefaultFailureReason)
    ensures orderId in db ==>
      r.db[orderId] == db[orderId].(status := r.db[orderId].status, failureReason := r.db[orderId].failureReason)
  {
    if orderId !in db then
      FailResult(FailNotFound, db)
    else
      var o := db[orderId];
      FailResult(MarkedFailed, db[orderId := o.(status := Some(StatusFailed),
                                                failureReason := Some(OrDefault(reason, DefaultFailureReason)))])
  }

  /** The fail handler does not look at the prior status: two stores that differ only in
      the status of the order being failed end up identical. */
  lemma FailIgnoresPriorStatus(db: Db, orderId: string, reason: Option<string>, prior: Option<string>)
    requires orderId in db
    ensures FailOutcome(db[orderId := db[orderId].(status := prior)], orderId, reason) == FailOutcome(db, orderId, reason)
  {
  }

  // ----- initiateRefund -----

  /** What the gateway's `payments.refund` is asked for. */
  datatype RefundPayload = RefundPayload(
    paymentId: string, amount: Option<int>, speed: string, reason: string, orderId: string, initiatedBy: string)

  /** The gateway's refund response; `createdAt` is its `created_at` in seconds. */
  datatype RefundResponse = RefundResponse(id: string, amount: int, status: string, createdAt: int, currency: string)

  datatype RefundError =
    | OrderMissing                                   // 'Order not found in database'
    | NoPaymentId                                    // 'No payment ID associated with this order'
    | NotCaptured(paymentStatus: Option<string>)     // 'Payment status is ${paymentStatus}, cannot refund'
    | AlreadyRefunded                                // 'Full amount already refunded'
    | GatewayFailed                                  // the gateway's refund call threw

  datatype RefundReply = Refunded(refundId: string, amount: int, status: string) | RefundFailed(error: RefundError)

  datatype RefundResult = RefundResult(reply: RefundReply, db: Db, call: Option<RefundPayload>)

  /** `amountRefunded && amountRefunded >= totalAmount`: a zero or absent refunded amount is
      falsy, and a comparison with an absent total is false. */
  predicate FullyRefunded(o: Order)
  {
    o.amountRefunded.Some? && o.amountRefunded.value != 0 &&
    o.totalAmount.Some? && o.amountRefunded.value >= o.totalAmount.value
  }

  /** The order carries a payment id and its payment is captured. */
  predicate CapturedPayment(o: Order)
  {
    Truthy(o.paymentId) && o.paymentStatus == Some(PaymentCaptured)
  }

  /** The three checks `initiateRefund` makes on a document it found. */
  predicate Refundable(o: Order)
  {
    CapturedPayment(o) && !FullyRefunded(o)
  }

  /** The first check that rejects a refund of `orderId`, in the order the handler makes them. */
  function RefundRejection(db: Db, orderId: string): Option<RefundError>
  {
    if orderId !in db then Some(OrderMissing)
    else
      var o := db[orderId];
      if !Truthy(o.paymentId) then Some(NoPaymentId)
      else if o.paymentStatus != Some(PaymentCaptured) then Some(NotCaptured(o.paymentStatus))
      else if FullyRefunded(o) then Some(AlreadyRefunded)
      else None
  }

  /** The accounting step applied once the gateway has answered `g`. */
  function ApplyRefund(o: Order, g: RefundResponse, reason: string, speed: string): Order
  {
    var total := OrZero(o.amountRefunded) + g.amount;
    var full := o.totalAmount.Some? && total >= o.totalAmount.value;
    o.(refunds := ArrayUnion(o.refunds, RefundRecord(g.id, g.amount, g.status, g.createdAt, reason, speed)),
       amountRefunded := Some(total),
       paymentStatus := Some(if full then PaymentRefunded else PaymentPartiallyRefunded))
  }

  /** `initiateRefund(orderId, amount, reason, speed)`, with `gateway` the reply of the
      gateway's refund call. */
  function RefundOutcome(db: Db, orderId: string, amount: Option<int>, reason: string, speed: string,
                         gateway: Option<RefundResponse>): (r: RefundResult)
    // the checks, in order; a rejected refund never reaches the gateway and changes nothing
    ensures orderId !in db ==> r == RefundResult(RefundFailed(OrderMissing), db, None)
    ensures orderId in db && !Truthy(db[orderId].paymentId) ==>
      r == RefundResult(RefundFailed(NoPaymentId), db, None)
    ensures orderId in db && Truthy(db[orderId].paymentId) && db[orderId].paymentStatus != Some(PaymentCaptured) ==>
      r == RefundResult(RefundFailed(NotCaptured(db[orderId].paymentStatus)), db, None)
    ensures orderId in db && CapturedPayment(db[orderId]) && FullyRefunded(db[orderId]) ==>
      r == RefundResult(RefundFailed(AlreadyRefunded), db, None)
    // the gateway is called exactly when the checks pass, with the caller's amount
    ensures r.call.Some? <==> orderId in db && Refundable(db[orderId])
    ensures r.call.Some? ==>
      r.call.value == RefundPayload(db[orderId].paymentId.value, amount, speed, reason, orderId, RefundInitiator)
    ensures r.reply.RefundFailed? ==> r.db == db
    ensures r.call.Some? && gateway.None? ==> r.reply == RefundFailed(GatewayFailed)
    ensures r.reply.Refunded? <==> r.call.Some? && gateway.Some?
    // the accounting uses the amount the gateway reports
    ensures r.reply.Refunded? ==> orderId in db && OthersUnchanged(db, r.db, orderId)
    ensures r.reply.Refunded? ==>
      var o, n, g := db[orderId], r.db[orderId], gateway.value;
      && r.reply == Refunded(g.id, g.amount, g.status)
      && n.amountRefunded == Some(OrZero(o.amountRefunded) + g.amount)
      && (n.paymentStatus == Some(PaymentRefunded) <==> o.totalAmount.Some? && n.amountRefunded.value >= o.totalAmount.value)
      && (n.paymentStatus == Some(PaymentRefunded) || n.paymentStatus == Some(PaymentPartiallyRefunded))
      && n.(refunds := o.refunds, amountRefunded := o.amountRefunded, paymentStatus := o.paymentStatus) == o
      // `arrayUnion` adds the record once, unless an equal one is already there
      && var rec := RefundRecord(g.id, g.amount, g.status, g.createdAt, reason, speed);
         n.refunds == (if rec in o.refunds then o.refunds else o.refunds + [rec])
  {
    var rejection := RefundRejection(db, orderId);
    if rejection.Some? then
      RefundResult(RefundFailed(rejection.value), db, None)
    else
      var o := db[orderId];
      var call := RefundPayload(o.paymentId.value, amount, speed, reason, orderId, RefundInitiator);
      if gateway.None? then
        RefundResult(RefundFailed(GatewayFailed), db, Some(call))
      else
        var g := gateway.value;
        RefundResult(Refunded(g.id, g.amount, g.status), db[orderId := ApplyRefund(o, g, reason, speed)], Some(call))
  }

  /** The amount the caller asks for reaches the gateway but never the stored totals:
      two refunds that differ only in the requested amount leave the same store. */
  lemma RefundTotalsIgnoreRequestedAmount(db: Db, orderId: string, a1: Option<int>, a2: Option<int>,
                                          reason: string, speed: string, gateway: Option<RefundResponse>)
    ensures RefundOutcome(db, orderId, a1, reason, speed, gateway).db == RefundOutcome(db, orderId, a2, reason, speed, gateway).db
    ensures RefundOutcome(db, orderId, a1, reason, speed, gateway).reply == RefundOutcome(db, orderId, a2, reason, speed, gateway).reply
  {
  }

  /** A successful refund moves `paymentStatus` away from `captured`, so a second refund of
      the same order is rejected before the gateway is called, and changes nothing. */
  lemma SecondRefundRejected(db: Db, orderId: string, amount: Option<int>, reason: string, speed: string,
                             gateway: Option<RefundResponse>,
                             amount2: Option<int>, reason2: string, speed2: string, gateway2: Option<RefundResponse>)
    requires RefundOutcome(db, orderId, amount, reason, speed, gateway).reply.Refunded?
    ensures var db1 := RefundOutcome(db, orderId, amount, reason, speed, gateway).db;
      var r2 := RefundOutcome(db1, orderId, amount2, reason2, speed2, gateway2);
      && r2.call.None?
      && r2.db == db1
      && r2.reply == RefundFailed(NotCaptured(db1[orderId].paymentStatus))
  {
  }

  // ----- /:orderId/cancel -----

  datatype CancelReply =
    | Cancelled                       // 200 'Order cancelled successfully'
    | CancelNotFound                  // 404 'Order not found'
    | CancelForbidden                 // 403 'Unauthorized to cancel this order'
    | NotCancellable(message: string) // 400, names the current status
    | CancelFailed                    // 500 'Internal server error'

  datatype CancelResult = CancelResult(reply: CancelReply, db: Db, refundCall: Option<RefundPayload>)

  /** The 400 message, which prints the current status (`undefined` when there is none). */
  function NotCancellableMessage(status: Option<string>): string
  {
    "Order cannot be cancelled in its current state (" + Show(status) + ")"
  }

  /** The ownership check `customerUid !== userId && restaurantUid !== userId` fails: the
      body's `userId` equals one of the two fields. Both sides may be `undefined`, and
      `undefined !== undefined` is false, so a request without `userId` passes for an order
      that lacks either field. */
  predicate MayCancel(o: Order, userId: Option<string>)
  {
    o.customerUid == userId || o.restaurantUid == userId
  }

  /** The cancel handler's write, made before any refund. */
  function MarkCancelled(o: Order, userId: string, reason: Option<string>): Order
  {
    o.(status := Some(StatusCancelled),
       cancellationReason := Some(OrDefault(reason, DefaultCancellationReason)),
       cancelledBy := Some(userId))
  }

  /** The order gets past the three checks of the cancel handler. */
  predicate PassesCancelChecks(db: Db, orderId: string, userId: Option<string>)
  {
    orderId in db && MayCancel(db[orderId], userId) && db[orderId].status == Some(StatusPending)
  }

  /** The `/:orderId/cancel` handler; `userId` comes from the request body, `gateway` is the
      reply of the refund call it may make. Without a `userId` the write carries
      `cancelledBy: undefined`, which Firestore refuses, so the handler answers 500. */
  function CancelOutcome(db: Db, orderId: string, userId: Option<string>, reason: Option<string>,
                         gateway: Option<RefundResponse>): (r: CancelResult)
    // rejections, in order, each leaving the store alone and the gateway uncalled
    ensures orderId !in db ==> r == CancelResult(CancelNotFound, db, None)
    ensures orderId in db && !MayCancel(db[orderId], userId) ==> r == CancelResult(CancelForbidden, db, None)
    ensures orderId in db && MayCancel(db[orderId], userId) && db[orderId].status != Some(StatusPending) ==>
      r == CancelResult(NotCancellable(NotCancellableMessage(db[orderId].status)), db, None)
    ensures PassesCancelChecks(db, orderId, userId) && userId.None? ==> r == CancelResult(CancelFailed, db, None)
    // past the checks the order is cancelled, even when the refund that follows fails
    ensures r.reply == Cancelled || r.reply == CancelFailed <==> PassesCancelChecks(db, orderId, userId)
    ensures r.reply == Cancelled ==> userId.Some?
    ensures PassesCancelChecks(db, orderId, userId) && userId.Some? ==>
      && OthersUnchanged(db, r.db, orderId)
      && r.db[orderId].status == Some(StatusCancelled)
      && r.db[orderId].cancelledBy == userId
      && r.db[orderId].cancellationReason == Some(OrDefault(reason, DefaultCancellationReason))
    // a refund of the order's total is attempted only for a captured payment
    ensures r.refundCall.Some? ==>
      && db[orderId].paymentStatus == Some(PaymentCaptured)
      && r.refundCall.value.amount == db[orderId].totalAmount
      && r.refundCall.value.reason == DefaultRefundReason
      && r.refundCall.value.speed == DefaultRefundSpeed
    ensures PassesCancelChecks(db, orderId, userId) && userId.Some? && db[orderId].paymentStatus != Some(PaymentCaptured) ==>
      r == CancelResult(Cancelled, db[orderId := MarkCancelled(db[orderId], userId.value, reason)], None)
    // for a captured payment the refund runs on the cancelled order; 500 exactly when it fails
    ensures PassesCancelChecks(db, orderId, userId) && userId.Some? && db[orderId].paymentStatus == Some(PaymentCaptured) ==>
      var rr := RefundOutcome(db[orderId := MarkCancelled(db[orderId], userId.value, reason)], orderId,
                              db[orderId].totalAmount, DefaultRefundReason, DefaultRefundSpeed, gateway);
      && r.db == rr.db
      && r.refundCall == rr.call
      && (r.reply == Cancelled <==> rr.reply.Refunded?)
      && (r.reply == CancelFailed <==> rr.reply.RefundFailed?)
  {
    if orderId !in db then
      CancelResult(CancelNotFound, db, None)
    else
      var o := db[orderId];
      if !MayCancel(o, userId) then
        CancelResult(CancelForbidden, db, None)
      else if o.status != Some(StatusPending) then
        CancelResult(NotCancellable(NotCancellableMessage(o.status)), db, None)
      else if userId.None? then
        CancelResult(CancelFailed, db, None)
      else
        var db1 := db[orderId := MarkCancelled(o, userId.value, reason)];
        if o.paymentStatus == Some(PaymentCaptured) then
          var rr := RefundOutcome(db1, orderId, o.totalAmount, DefaultRefundReason, DefaultRefundSpeed, gateway);
          CancelResult(if rr.reply.Refunded? then Cancelled else CancelFailed, rr.db, rr.call)
        else
          CancelResult(Cancelled, db1, None)
  }

  /** A cancelled order whose payment was captured is refunded for its total (when the
      refund checks pass and the gateway answers): its `paymentStatus` leaves `captured`. */
  lemma CancelRefundsCapturedOrder(db: Db, orderId: string, userId: string, reason: Option<string>, g: RefundResponse)
    requires PassesCancelChecks(db, orderId, Some(userId))
    requires Refundable(db[orderId])
    ensures var r := CancelOutcome(db, orderId, Some(userId), reason, Some(g));
      && r.reply == Cancelled
      && r.refundCall.Some?
      && r.db[orderId].paymentStatus != Some(PaymentCaptured)
      && r.db[orderId].amountRefunded == Some(OrZero(db[orderId].amountRefunded) + g.amount)
  {
  }
}
