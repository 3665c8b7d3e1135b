/** The order document of the `orders` collection. The controller and the routes
    disagree about field names (`userId`/`amount`/`status` against
    `customerUid`/`restaurantUid`/`totalAmount`/`paymentStatus`); the record keeps both
    sets, as they are spelled in the source, and every field a document may lack is an
    `Option`. Timestamps (`createdAt`, `paidAt`, `failedAt`, `cancelledAt`, `updatedAt`)
    are left out. */
module Orders {
  import opened Values

  /** One entry of the `items` array the client sends; the backend stores it verbatim. */
  datatype LineItem = LineItem(name: string, unitPrice: int, quantity: int)

  /** One element of the `refunds` array, built from the gateway's refund response. */
  datatype RefundRecord = RefundRecord(
    refundId: string,
    refundAmount: int,
    refundStatus: string,
    refundCreatedAt: int,
    refundReason: string,
    refundSpeed: string)

  datatype Order = Order(
    // written by createOrder / verifyPayment
    razorpayOrderId: Option<string>,
    status: Option<string>,
    amount: Option<int>,
    currency: Option<string>,
    userId: Option<string>,
    items: Option<seq<LineItem>>,
    orderType: Option<string>,
    paymentId: Option<string>,
    paymentSignature: Option<string>,
    // read by the routes (written by code outside this backend)
    customerUid: Option<string>,
    restaurantUid: Option<string>,
    totalAmount: Option<int>,
    paymentStatus: Option<string>,
    // written by the routes
    failureReason: Option<string>,
    cancellationReason: Option<string>,
    cancelledBy: Option<string>,
    amountRefunded: Option<int>,
    refunds: seq<RefundRecord>)

  /** The `orders` collection: document id to document. */
  type Db = map<string, Order>

  const StatusCreated := "created"
  const StatusPaid := "paid"
  const StatusFailed := "failed"
  const StatusPending := "pending"
  const StatusCancelled := "cancelled"
  const PaymentCaptured := "captured"
  const PaymentRefunded := "refunded"
  const PaymentPartiallyRefunded := "partially_refunded"

  /** Firestore's `arrayUnion(x)`: `x` is appended unless an equal element is already there. */
  function ArrayUnion(s: seq<RefundRecord>, x: RefundRecord): seq<RefundRecord>
  {
    if x in s then s else s + [x]
  }

  /** Every document other than `id` is the same in `a` and `b`, and both hold the same ids. */
  ghost predicate OthersUnchanged(a: Db, b: Db, id: string)
  {
    a.Keys == b.Keys && forall k :: k in a && k != id ==> b[k] == a[k]
  }
}
