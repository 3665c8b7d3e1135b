# QuickdineBackend payments: a Dafny model of the order/payment handlers

This project models the decision logic of the QuickdineBackend payment API, an Express
service that sits in front of Razorpay (the payment gateway), Firestore (the `orders`
collection) and Firebase Auth. It covers:

- `createOrder` and `verifyPayment` (controllers/paymentController.js);
- the `/:orderId/fail` and `/:orderId/cancel` routes and `initiateRefund` (routes/paymentRoutes.js);
- the `authenticate` middleware (middlewares/auth.js).

Each handler is a pure function from the collection before the request to the reply and
the collection after it, in modules `PaymentController` and `PaymentRoutes`. The class
`Store.OrderStore` holds the collection as a map from document id to `Order` and has one
method per handler. Each method updates the map in place, and its postcondition ties the
result to that function. The cancel method calls the refund method, as the route calls
`initiateRefund`. Module `Lifecycle` runs arbitrary sequences of requests and proves what
no sequence can do. Module `Auth` models the bearer header of section 2.1 of RFC 6750,
matched case-sensitively, and the mapping of the verifier's errors to 401 replies.

External collaborators are parameters. The gateway's order and refund replies are inputs,
with `None` when the call throws. The requests sent to the gateway are outputs.
`generateSignature` is a function parameter `sign`. The ID-token verifier is a function
parameter returning a decoded token or an error code. A new document's id is an input
that the store guarantees to be fresh.

Document fields keep the source's names. They differ between the two files: the
controller writes `userId`, `amount` and `status`, while the routes read `customerUid`,
`restaurantUid`, `totalAmount` and `paymentStatus`. Fields that a document may lack are
optional, and JavaScript truthiness is spelled out: `reason || 'Payment failed'` also
replaces an empty string. This split has consequences that are proved here. An order made
by `createOrder` has no `customerUid` or `restaurantUid`, so every cancel request that
carries a `userId` is refused with 403. A request without a `userId` passes the ownership
check, because `undefined !== undefined` is false, and is then refused with 400 for the
status `created`. The order also starts `created`, never `pending`, and no handler writes
`pending`, so it can never be cancelled. Its payment is never `captured`, so it can never
be refunded.

The fail route runs behind `authenticate` but never compares the caller with the order,
so any signed-in user can fail any order. The cancel route is not behind `authenticate`
at all, and its ownership check trusts the `userId` in the request body, which may be
absent. The model takes both as written. When a request without a `userId` passes the
checks, the update carries `cancelledBy: undefined`. Firestore refuses that value, so the
handler answers 500 and nothing changes.

The code's behaviour that the model keeps:
- Cancelling requires `status` `pending`, not `created`.
- Refunds check `paymentStatus == 'captured'` and compare the refunded total with
  `totalAmount`. The requested amount is not checked against the order amount.
- Status updates are unconditional writes, not conditional updates keyed on the prior status.
- `verifyPayment` does not fetch the payment's capture status from the gateway.
- The signature is compared with plain inequality.

## Model

| member | source | states |
|---|---|---|
| `PaymentRoutes.FailOutcome` | routes/paymentRoutes.js:10-48 | 404 with no change exactly when the order is missing. Otherwise the order gets `status` `failed` and `failureReason` set to the reason, or `'Payment failed'` when the reason is absent or empty. No other field or order changes. |
| `PaymentRoutes.FailIgnoresPriorStatus` | routes/paymentRoutes.js:26-32 | The fail handler's outcome does not depend on the order's prior status. |
| `PaymentRoutes.RefundOutcome` | routes/paymentRoutes.js:125-200 | Checks run in source order: order missing, no truthy `paymentId`, `paymentStatus` not `captured`, then a non-zero `amountRefunded` at least `totalAmount`. Each failed check rejects without a gateway call or a store change. The gateway is called exactly when all checks pass, with the caller's amount. A gateway failure changes nothing. On success `amountRefunded` becomes the old value (or 0) plus the gateway's amount. `paymentStatus` is `refunded` exactly when that total reaches `totalAmount`, else `partially_refunded`. The refund record is appended to `refunds` once, unless an equal record is already there, as `arrayUnion` does. No other field or order changes. A gateway failure is reported as such. |
| `PaymentRoutes.RefundTotalsIgnoreRequestedAmount` | routes/paymentRoutes.js:151-184 | The requested amount reaches the gateway but never the stored totals. Two refunds that differ only in it give the same reply and store. |
| `PaymentRoutes.SecondRefundRejected` | routes/paymentRoutes.js:142-182 | After a successful refund, a second refund of the same order is rejected as not captured, without a gateway call or a change. |
| `PaymentRoutes.CancelOutcome` | routes/paymentRoutes.js:50-110 | Rejections come in order, each leaving the store alone and making no refund. 404 if the order is missing. 403 if the body's `userId`, possibly absent, equals neither `customerUid` nor `restaurantUid`, compared as `!==` does. 400 naming the current status if it is not `pending`. Past the checks without a `userId`, the reply is 500 with no change. With a `userId`, the order gets `status` `cancelled`, `cancelledBy` set to the caller and `cancellationReason` set to the reason or `'User requested cancellation'`. No other order changes. For an uncaptured payment that is the whole change and the reply is 200. For a captured payment, the refund of `totalAmount` with the default reason and speed runs on the cancelled order. The store and gateway call are the refund's. The reply is 200 exactly when the refund succeeds, else 500. |
| `PaymentRoutes.CancelRefundsCapturedOrder` | routes/paymentRoutes.js:93-96 | Cancelling a pending, refundable, captured order with a gateway reply yields 200. The payment leaves `captured` and the refunded total grows by the gateway's amount. |
| `PaymentController.CreateOutcome` | controllers/paymentController.js:5-41 | The gateway is asked for `100 * amount` in the requested currency or `INR`, with capture on. If the gateway fails, the reply is 500 and the store is unchanged. Otherwise exactly one document is added under the fresh id and the others are untouched. It has the gateway order id, `status` `created`, the caller's `amount` unchanged, the defaulted currency and `orderType` (`dine_in`), the caller's `userId` and the caller's `items`. No other field is set. The reply carries the gateway's id, amount and currency and the new document id. |
| `PaymentController.SignaturePayloadInjective` | controllers/paymentController.js:49-52 | The signed text `orderId + "\|" + paymentId` determines both ids when the order id holds no `\|`. |
| `PaymentController.SignaturePayloadAmbiguousWithBar` | controllers/paymentController.js:49-52 | Without that restriction, two different id pairs share a signed text. |
| `PaymentController.VerifyOutcome` | controllers/paymentController.js:43-84 | The reply is 400 exactly when `sign(orderId\|paymentId, secret)` differs from the signature. It is 404 exactly when the signature matches and no document has both that gateway order id and the caller's `userId`. Neither changes anything. On success exactly the returned document becomes `paid` with `paymentId` and `paymentSignature`, whatever its status was. Nothing else changes. |
| `PaymentController.VerifyTwice` | controllers/paymentController.js:60-76 | Verifying is idempotent. After a successful verification, the same request finds the same document again and succeeds again, with the store left as the first call left it. |
| `PaymentController.VerifyLeavesOtherUsersOrders` | controllers/paymentController.js:60-76 | Verifying never touches a document whose `userId` is not the caller's. |
| `Store.OrderStore.CreateOrder` | controllers/paymentController.js:5-41 | Returns the gateway request and reply, and leaves the collection that `CreateOutcome` gives for the old collection. |
| `Store.OrderStore.VerifyPayment` | controllers/paymentController.js:43-84 | The returned document is one the query matches. The reply and new collection are those of `VerifyOutcome` for that document. |
| `Store.OrderStore.FailOrder` | routes/paymentRoutes.js:10-48 | The reply and new collection are those of `FailOutcome`. |
| `Store.OrderStore.InitiateRefund` | routes/paymentRoutes.js:125-200 | The reply, the gateway call made or not made, and the new collection are those of `RefundOutcome`. |
| `Store.OrderStore.CancelOrder` | routes/paymentRoutes.js:50-110 | The reply, the refund call and the new collection are those of `CancelOutcome`. It writes the cancellation and then runs `InitiateRefund`. |
| `Lifecycle.StepNeverCaptures` | routes/paymentRoutes.js:142-184 | No handler sets `paymentStatus` to `captured`. A call that refunds an order needs a captured payment and leaves it not captured. |
| `Lifecycle.AtMostOneRefund` | routes/paymentRoutes.js:142-182 | Over any sequence of requests, an order is refunded at most once, directly or through cancel. It is never refunded unless its payment was captured when the sequence began. |
| `Lifecycle.StepNeverMakesPending` | routes/paymentRoutes.js:77-91 | No handler sets `status` to `pending`, and getting past the cancel checks requires `pending`. |
| `Lifecycle.AtMostOneCancel` | routes/paymentRoutes.js:76-91 | Over any sequence of requests, an order is cancelled at most once. It is never cancelled unless it was `pending` when the sequence began. |
| `Lifecycle.CreatedOrderCancelForbidden` | routes/paymentRoutes.js:68-74 | A cancel request that carries a `userId` is refused with 403 for a document `createOrder` just wrote, with no change. |
| `Lifecycle.CreatedOrderCancelWithoutUserId` | routes/paymentRoutes.js:68-82 | A cancel request without a `userId` passes the ownership check for such a document. It is refused with 400 `...current state (created)`, with no change. |
| `Lifecycle.CreatedOrderNeverCancelledOrRefunded` | controllers/paymentController.js:19-28 | Whatever requests follow, an order made by `createOrder` is never cancelled and never refunded. |
| `Auth.IndexOf` | middlewares/auth.js:10 | The first occurrence of a pattern, if any: an occurrence with none before it, or `None` when there is none. |
| `Auth.BearerToken` | middlewares/auth.js:10 | The token is what follows the leading `Bearer `, up to the next `Bearer ` or the end. No occurrence starts inside it. |
| `Auth.BearerTokenRoundTrip` | middlewares/auth.js:6-10 | `Bearer ` followed by a token free of `Bearer ` passes the prefix check and gives that token back. |
| `Auth.ErrorMessage` | middlewares/auth.js:24-29 | `auth/id-token-expired` gives `Token expired` and `auth/argument-error` gives `Invalid token format`, both in each direction. Anything else gives `Authentication failed`. |
| `Auth.ErrorCode` | middlewares/auth.js:31-34 | The reply's code is the verifier's code when it is non-empty, else `authentication_error`. It is never empty. |
| `Auth.Authenticate` | middlewares/auth.js:3-36 | A missing or non-`Bearer ` header gives 401 `Authorization header missing or invalid` without consulting the verifier. Otherwise the verifier sees exactly `BearerToken(header)`. `next` runs exactly when the token is accepted, with `req.user` built from the decoded uid, email (`null` when absent) and claims. A refused token gives the 401 reply carrying `ErrorMessage` and `ErrorCode` of the error. |

## Left out

- Firestore, Razorpay and Firebase Auth themselves are not modelled. Their answers are inputs.
- The HMAC-SHA256 inside `generateSignature` is not modelled. It is the uninterpreted parameter `sign`, and the behaviour when the webhook secret is unset depends on that library.
- Timestamps are not modelled: `createdAt`, `paidAt`, `failedAt`, `cancelledAt`, `updatedAt`, the `receipt_${Date.now()}` receipt and the `created_at * 1000` conversion. The refund record keeps the gateway's `created_at` as given.
- `sendRefundNotification` and its `amount / 100` rupee conversion are not modelled. The function is not defined anywhere, and the division is floating-point.
- The `catch` block of `initiateRefund` is not modelled. It refers to `orderRef`, which is scoped to the `try` block, so it cannot log the failed attempt. The model treats any refund failure as one that changes nothing.
- Defects that make a handler throw once it reaches them are not reproduced; the model gives the intended logic.
  - `firestore` is never declared in routes/paymentRoutes.js.
  - `db` is not exported by config/firebase.js. It is first touched only after `razorpay.orders.create` has succeeded, so as written every successful gateway call in `createOrder` leaves an orphaned gateway order with no document and a 500 reply. A `verifyPayment` with a wrong signature still answers 400 before reaching `db`.
  - `admin` is undeclared at controllers/paymentController.js:75.
  - `sendRefundNotification` is undefined.
- Storage failures are not modelled, except Firestore refusing the cancel update's `cancelledBy: undefined`. Only gateway and verifier failures are. Body fields without a `||` default (`amount`, `items`, `verifyPayment`'s `orderId`, `paymentId`, `signature`) are taken as present.
- JavaScript numbers are not modelled as doubles. Amounts are unbounded integers, and `amount * 100` is exact.
- Concurrency is not modelled. Each handler is one atomic step, so the races between its read and its update are not captured.
- Store.OrderStore.VerifyPayment: does not fix which of several matching documents `.limit(1)` returns (Firestore orders by document id). The model allows any match.
- Auth.Authenticate: the `...decodedToken` spread is modelled as copying uid, email and the remaining claims. Header values that are not strings are not modelled.
- config/firebase.js (initialisation, retries, the singleton) and server.js (Express wiring) are not part of this model. An uninitialised auth service shows up only as a verifier error without a code.
