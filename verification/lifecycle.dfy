/** Sequences of requests to the payment handlers, each handled as one atomic step, and
    what no sequence can do: no handler ever writes `status: 'pending'` or
    `paymentStatus: 'captured'` (other parts of the system do), so an order is cancelled
    at most once and refunded at most once, and an order made by `createOrder` is never
    cancelled or refunded at all. */
module Lifecycle {
  import opened Values
  import opened Orders
  import opened PaymentRoutes
  import opened PaymentController

  /** The webhook secret and the gateway's signing function, fixed for a run. */
  datatype Config = Config(secret: string, sign: (string, string) -> string)

  /** One request, with the replies its external collaborators give. */
  datatype Call =
    | CreateCall(userId: string, create: CreateRequest, orderGateway: Option<GatewayOrder>, freshId: string)
    | VerifyCall(userId: string, verify: VerifyRequest, pick: string)
    | FailCall(orderId: string, reason: Option<string>)
    | CancelCall(orderId: string, cancelUser: Option<string>, reason: Option<string>, refundGateway: Option<RefundResponse>)
    | RefundCall(orderId: string, amount: Option<int>, refundReason: string, speed: string,
                 refundGateway: Option<RefundResponse>)

  /** The store assigns fresh ids and the query returns a matching document. */
  predicate Allowed(db: Db, c: Call)
  {
    match c
    case CreateCall(_, _, _, freshId) => freshId !in db
    case VerifyCall(userId, v, pick) => Picks(db, v.orderId, userId, pick)
    case _ => true
  }

  function Step(cfg: Config, db: Db, c: Call): Db
    requires Allowed(db, c)
  {
    match c
    case CreateCall(userId, req, g, freshId) => CreateOutcome(db, userId, req, g, freshId).db
    case VerifyCall(userId, v, pick) => VerifyOutcome(db, userId, v, cfg.secret, cfg.sign, pick).db
    case FailCall(orderId, reason) => FailOutcome(db, orderId, reason).db
    case CancelCall(orderId, userId, reason, g) => CancelOutcome(db, orderId, userId, reason, g).db
    case RefundCall(orderId, amount, reason, speed, g) => RefundOutcome(db, orderId, amount, reason, speed, g).db
  }

  predicate Admissible(cfg: Config, db: Db, calls: seq<Call>)
    decreases |calls|
  {
    calls == [] || (Allowed(db, calls[0]) && Admissible(cfg, Step(cfg, db, calls[0]), calls[1..]))
  }

  // ----- refunds -----

  predicate Captured(db: Db, id: string)
  {
    id in db && db[id].paymentStatus == Some(PaymentCaptured)
  }

  /** The call refunds order `id` and the gateway accepts: directly, or from the cancel handler. */
  predicate RefundsOrder(db: Db, c: Call, id: string)
  {
    match c
    case RefundCall(orderId, amount, reason, speed, g) =>
      orderId == id && RefundOutcome(db, orderId, amount, reason, speed, g).reply.Refunded?
    case CancelCall(orderId, userId, reason, g) =>
      var r := CancelOutcome(db, orderId, userId, reason, g);
      orderId == id && r.reply == Cancelled && r.refundCall.Some?
    case _ => false
  }

  /** How many calls of the run refund order `id`. */
  function RefundCount(cfg: Config, db: Db, calls: seq<Call>, id: string): nat
    requires Admissible(cfg, db, calls)
    decreases |calls|
  {
    if calls == [] then 0
    else (if RefundsOrder(db, calls[0], id) then 1 else 0) + RefundCount(cfg, Step(cfg, db, calls[0]), calls[1..], id)
  }

  /** No handler sets `paymentStatus` to `captured`; a refund needs a captured payment and
      sets it to something else. */
  lemma StepNeverCaptures(cfg: Config, db: Db, c: Call, id: string)
    requires Allowed(db, c)
    ensures Captured(Step(cfg, db, c), id) ==> Captured(db, id) && !RefundsOrder(db, c, id)
    ensures RefundsOrder(db, c, id) ==> Captured(db, id)
  {
  }

  /** Over any run, order `id` is refunded at most once, and never unless its payment was
      captured when the run began. */
  lemma {:induction false} AtMostOneRefund(cfg: Config, db: Db, calls: seq<Call>, id: string)
    requires Admissible(cfg, db, calls)
    ensures RefundCount(cfg, db, calls, id) <= (if Captured(db, id) then 1 else 0)
    decreases |calls|
  {
    if calls != [] {
      var db1 := Step(cfg, db, calls[0]);
      AtMostOneRefund(cfg, db1, calls[1..], id);
      StepNeverCaptures(cfg, db, calls[0], id);
    }
  }

  // ----- cancellation -----

  predicate Pending(db: Db, id: string)
  {
    id in db && db[id].status == Some(StatusPending)
  }

  /** The call writes `cancelled` to order `id`: it gets past the cancel handler's checks
      and carries a `userId` (the order is then cancelled, whether or not the refund that
      follows succeeds). */
  predicate CancelsOrder(db: Db, c: Call, id: string)
  {
    c.CancelCall? && c.orderId == id && c.cancelUser.Some? && PassesCancelChecks(db, id, c.cancelUser)
  }

  function CancelCount(cfg: Config, db: Db, calls: seq<Call>, id: string): nat
    requires Admissible(cfg, db, calls)
    decreases |calls|
  {
    if calls == [] then 0
    else (if CancelsOrder(db, calls[0], id) then 1 else 0) + CancelCount(cfg, Step(cfg, db, calls[0]), calls[1..], id)
  }

  /** No handler sets `status` to `pending`, and a cancellation sets it to `cancelled`. */
  lemma StepNeverMakesPending(cfg: Config, db: Db, c: Call, id: string)
    requires Allowed(db, c)
    ensures Pending(Step(cfg, db, c), id) ==> Pending(db, id) && !CancelsOrder(db, c, id)
    ensures CancelsOrder(db, c, id) ==> Pending(db, id)
  {
  }

  /** Over any run, order `id` is cancelled at most once, and never unless it was
      `pending` when the run began. */
  lemma {:induction false} AtMostOneCancel(cfg: Config, db: Db, calls: seq<Call>, id: string)
    requires Admissible(cfg, db, calls)
    ensures CancelCount(cfg, db, calls, id) <= (if Pending(db, id) then 1 else 0)
    decreases |calls|
  {
    if calls != [] {
      AtMostOneCancel(cfg, Step(cfg, db, calls[0]), calls[1..], id);
      StepNeverMakesPending(cfg, db, calls[0], id);
    }
  }

  // ----- orders made by createOrder -----

  /** A document `createOrder` just wrote has neither `customerUid` nor `restaurantUid`,
      so the cancel handler refuses it with 403 whenever the request carries a `userId`. */
  lemma CreatedOrderCancelForbidden(db: Db, userId: string, req: CreateRequest, g: GatewayOrder, freshId: string,
                                    canceller: Option<string>, reason: Option<string>, refund: Option<RefundResponse>)
    requires freshId !in db
    requires canceller.Some?
    ensures var created := CreateOutcome(db, userId, req, Some(g), freshId).db;
      CancelOutcome(created, freshId, canceller, reason, refund) == CancelResult(CancelForbidden, created, None)
  {
  }

  /** Without a `userId` the ownership check is passed (`undefined !== undefined` is false
      for both fields), and the same document is refused with 400 for its status. */
  lemma CreatedOrderCancelWithoutUserId(db: Db, userId: string, req: CreateRequest, g: GatewayOrder, freshId: string,
                                        reason: Option<string>, refund: Option<RefundResponse>)
    requires freshId !in db
    ensures var created := CreateOutcome(db, userId, req, Some(g), freshId).db;
      CancelOutcome(created, freshId, None, reason, refund)
        == CancelResult(NotCancellable("Order cannot be cancelled in its current state (created)"), created, None)
  {
  }

  /** Whatever requests follow it, an order made by `createOrder` is never cancelled and
      never refunded: it starts `created`, not `pending`, and without a captured payment. */
  lemma {:induction false} CreatedOrderNeverCancelledOrRefunded(cfg: Config, db: Db, c: Call, calls: seq<Call>)
    requires c.CreateCall? && c.orderGateway.Some? && Allowed(db, c)
    requires Admissible(cfg, Step(cfg, db, c), calls)
    ensures CancelCount(cfg, Step(cfg, db, c), calls, c.freshId) == 0
    ensures RefundCount(cfg, Step(cfg, db, c), calls, c.freshId) == 0
  {
    var db1 := Step(cfg, db, c);
    AtMostOneCancel(cfg, db1, calls, c.freshId);
    AtMostOneRefund(cfg, db1, calls, c.freshId);
  }
}
