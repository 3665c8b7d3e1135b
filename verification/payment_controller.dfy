/** The handlers of controllers/paymentController.js as functions: `createOrder` and
    `verifyPayment`. The gateway's order-creation call is an input (its reply, or `None`
    when it throws) and an output (the request it receives); `generateSignature` is the
    function parameter `sign`; the caller's uid comes from the verified ID token. */
module PaymentController {
  import opened Values
  import opened Orders

  const DefaultCurrency := "INR"
  const DefaultOrderType := "dine_in"

  // ----- createOrder -----

  datatype CreateRequest = CreateRequest(amount: int, currency: Option<string>, items: seq<LineItem>,
                                         orderType: Option<string>)

  /** What `razorpay.orders.create` is asked for (the receipt, a timestamp, is left out). */
  datatype GatewayOrderRequest = GatewayOrderRequest(amount: int, currency: string, paymentCapture: int)

  /** The gateway's order: its id and the amount and currency it recorded. */
  datatype GatewayOrder = GatewayOrder(id: string, amount: int, currency: string)

  datatype CreateReply =
    | OrderCreated(id: string, amount: int, currency: string, firebaseOrderId: string)
    | CreateFailed                  // 500 'Failed to create order'

  datatype CreateResult = CreateResult(reply: CreateReply, db: Db, call: GatewayOrderRequest)

  /** The document `createOrder` adds for `userId` once the gateway returned order `g`. */
  function NewOrder(userId: string, req: CreateRequest, g: GatewayOrder): Order
  {
    Order(razorpayOrderId := Some(g.id), status := Some(StatusCreated), amount := Some(req.amount),
          currency := Some(OrDefault(req.currency, DefaultCurrency)), userId := Some(userId),
          items := Some(req.items), orderType := Some(OrDefault(req.orderType, DefaultOrderType)),
          paymentId := None, paymentSignature := None,
          customerUid := None, restaurantUid := None, totalAmount := None, paymentStatus := None,
          failureReason := None, cancellationReason := None, cancelledBy := None,
          amountRefunded := None, refunds := [])
  }

  /** `createOrder` for the caller `userId`. `freshId` is the id the store assigns to the new
      document; the store never hands out an id already in use. */
  function CreateOutcome(db: Db, userId: string, req: CreateRequest, gateway: Option<GatewayOrder>,
                         freshId: string): (r: CreateResult)
    requires freshId !in db
    // the gateway is asked for the amount in paise, in the requested currency or INR
    ensures r.call.amount == 100 * req.amount
    ensures r.call.currency == (if Truthy(req.currency) then req.currency.value else DefaultCurrency)
    ensures r.call.paymentCapture == 1
    // no gateway order, no document
    ensures gateway.None? <==> r.reply == CreateFailed
    ensures gateway.None? ==> r.db == db
    // otherwise exactly one document is added, the others are untouched
    ensures gateway.Some? ==>
      && r.db.Keys == db.Keys + {freshId}
      && |r.db| == |db| + 1
      && (forall k :: k in db ==> r.db[k] == db[k])
      && r.reply == OrderCreated(gateway.value.id, gateway.value.amount, gateway.value.currency, freshId)
    ensures gateway.Some? ==>
      var o := r.db[freshId];
      && o.razorpayOrderId == Some(gateway.value.id)
      && o.status == Some(StatusCreated)
      && o.amount == Some(req.amount)
      && o.currency == Some(r.call.currency)
      && o.userId == Some(userId)
      && o.items == Some(req.items)
      && o.orderType == Some(if Truthy(req.orderType) then req.orderType.value else DefaultOrderType)
      // no other field is set
      && o.paymentId.None? && o.paymentSignature.None?
      && o.customerUid.None? && o.restaurantUid.None? && o.totalAmount.None? && o.paymentStatus.None?
      && o.failureReason.None? && o.cancellationReason.None? && o.cancelledBy.None?
      && o.amountRefunded.None? && o.refunds == []
  {
    var call := GatewayOrderRequest(req.amount * 100, OrDefault(req.currency, DefaultCurrency), 1);
    match gateway
    case None => CreateResult(CreateFailed, db, call)
    case Some(g) =>
      assert |(db[freshId := NewOrder(userId, req, g)]).Keys| == |db.Keys + {freshId}|;
      CreateResult(OrderCreated(g.id, g.amount, g.currency, freshId), db[freshId := NewOrder(userId, req, g)], call)
  }

  // ----- verifyPayment -----

  datatype VerifyRequest = VerifyRequest(orderId: string, paymentId: string, signature: string)

  datatype VerifyReply =
    | Verified(orderId: string)     // 200 { success: true, orderId }
    | InvalidSignature              // 400 'Invalid signature'
    | VerifyNotFound                // 404 'Order not found'

  datatype VerifyResult = VerifyResult(reply: VerifyReply, db: Db)

  /** The text the gateway signs: the gateway order id and the payment id joined by `|`. */
  function SignaturePayload(orderId: string, paymentId: string): string
  {
    orderId + "|" + paymentId
  }

  /** In the payload of an id without `|`, the first `|` is the separator. */
  lemma FirstBar(o: string, p: string)
    requires '|' !in o
    ensures var s := SignaturePayload(o, p); s[|o|] == '|' && forall i :: 0 <= i < |o| ==> s[i] != '|'
  {
  }

  /** The payload is unambiguous as long as gateway order ids contain no `|`. */
  lemma {:induction false} SignaturePayloadInjective(o1: string, p1: string, o2: string, p2: string)
    requires '|' !in o1 && '|' !in o2
    requires SignaturePayload(o1, p1) == SignaturePayload(o2, p2)
    ensures o1 == o2 && p1 == p2
  {
    var s1, s2 := SignaturePayload(o1, p1), SignaturePayload(o2, p2);
    FirstBar(o1, p1);
    FirstBar(o2, p2);
    assert |o1| == |o2|;
    assert o1 == s1[..|o1|] == s2[..|o2|] == o2;
    assert p1 == s1[|o1| + 1..] == s2[|o2| + 1..] == p2;
  }

  /** Without that restriction two different (order, payment) pairs share a payload. */
  lemma SignaturePayloadAmbiguousWithBar()
    ensures SignaturePayload("a|b", "c") == SignaturePayload("a", "b|c")
  {
  }

  /** The documents the query `razorpayOrderId == orderId && userId == userId` returns. */
  function Matching(db: Db, orderId: string, userId: string): set<string>
  {
    set k | k in db && db[k].razorpayOrderId == Some(orderId) && db[k].userId == Some(userId)
  }

  /** `pick` is the document `.limit(1)` returns: any one of the matches, when there are any. */
  predicate Picks(db: Db, orderId: string, userId: string, pick: string)
  {
    Matching(db, orderId, userId) == {} || pick in Matching(db, orderId, userId)
  }

  /** The update made to the matched document. */
  function MarkPaid(o: Order, paymentId: string, signature: string): Order
  {
    o.(status := Some(StatusPaid), paymentId := Some(paymentId), paymentSignature := Some(signature))
  }

  /** `verifyPayment` for the caller `userId`, with `secret` the webhook secret. */
  function VerifyOutcome(db: Db, userId: string, req: VerifyRequest, secret: string,
                         sign: (string, string) -> string, pick: string): (r: VerifyResult)
    requires Picks(db, req.orderId, userId, pick)
    // the signature over "orderId|paymentId" is checked first; a mismatch changes nothing
    ensures r.reply == InvalidSignature <==> sign(SignaturePayload(req.orderId, req.paymentId), secret) != req.signature
    ensures !r.reply.Verified? ==> r.db == db
    // only the caller's own order with that gateway id is found
    ensures r.reply == VerifyNotFound <==>
      sign(SignaturePayload(req.orderId, req.paymentId), secret) == req.signature &&
      forall k :: k in db ==> db[k].razorpayOrderId != Some(req.orderId) || db[k].userId != Some(userId)
    // exactly the picked document is marked paid, whatever its status was
    ensures r.reply.Verified? ==>
      && r.reply.orderId == pick
      && pick in db && db[pick].razorpayOrderId == Some(req.orderId) && db[pick].userId == Some(userId)
      && OthersUnchanged(db, r.db, pick)
      && r.db[pick].status == Some(StatusPaid)
      && r.db[pick].paymentId == Some(req.paymentId)
      && r.db[pick].paymentSignature == Some(req.signature)
      && r.db[pick].(status := db[pick].status, paymentId := db[pick].paymentId,
                     paymentSignature := db[pick].paymentSignature) == db[pick]
  {
    if sign(SignaturePayload(req.orderId, req.paymentId), secret) != req.signature then
      VerifyResult(InvalidSignature, db)
    else if Matching(db, req.orderId, userId) == {} then
      assert forall k :: k in db && db[k].razorpayOrderId == Some(req.orderId) && db[k].userId == Some(userId) ==>
        k in Matching(db, req.orderId, userId);
      VerifyResult(VerifyNotFound, db)
    else
      VerifyResult(Verified(pick), db[pick := MarkPaid(db[pick], req.paymentId, req.signature)])
  }

  /** Verifying is idempotent: the same request repeated on the store the first one left
      finds the same document again, succeeds again and changes nothing more. */
  lemma VerifyTwice(db: Db, userId: string, req: VerifyRequest, secret: string,
                    sign: (string, string) -> string, pick: string)
    requires Picks(db, req.orderId, userId, pick)
    requires VerifyOutcome(db, userId, req, secret, sign, pick).reply.Verified?
    ensures var db1 := VerifyOutcome(db, userId, req, secret, sign, pick).db;
      && Picks(db1, req.orderId, userId, pick)
      && VerifyOutcome(db1, userId, req, secret, sign, pick) == VerifyResult(Verified(pick), db1)
  {
  }

  /** Another user's orders are invisible to the caller: verifying never touches a
      document whose `userId` is not the caller's. */
  lemma VerifyLeavesOtherUsersOrders(db: Db, userId: string, req: VerifyRequest, secret: string,
                                     sign: (string, string) -> string, pick: string, k: string)
    requires Picks(db, req.orderId, userId, pick)
    requires k in db && db[k].userId != Some(userId)
    ensures var r := VerifyOutcome(db, userId, req, secret, sign, pick); k in r.db && r.db[k] == db[k]
  {
  }
}
