# Food-ordering storefront: cart ledger, order lifecycle and client cart, in Dafny

This project models the inventory-aware cart-to-order pipeline of a
food-ordering web shop. It is a Dafny model with proofs and is never run.

- **Cart ledger** (`CartController.Ledger`, server). Each user has one
  entry per menu item, holding the quantity they want. Every add or update
  is checked against the item's live stock. Adding merges into an existing
  entry, and a merged total below 1 deletes the entry. Updating floors the
  stored quantity at 1. Entries can be removed one at a time or cleared
  per user.
- **Order lifecycle** (`OrderModel`, `OrderController.OrderBook`, server).
  - Checkout normalises the request lines into frozen order lines.
  - A cash order (any payment method other than `online`) decrements stock
    at once. Each decrement is clamped at 0.
  - An online order is stored `pending`, with the payment provider's session
    attached. Its stock is decremented only when the provider reports the
    session as paid.
  - The owner or an admin can cancel an order that is neither cancelled nor
    delivered. Cancelling adds every line's quantity back to stock and asks
    the provider for a refund when the order was paid online. A failed
    refund does not stop the cancellation.
  - Owners can read and update their own orders. An admin can update any
    order. Both have formatted order listings.
- **Client cart** (`CartContext`, browser). A reducer over the list of cart
  lines (hydrate, add, update, remove, clear, other), plus the
  `totalItems` and `totalAmount` folds.
- **Cart sync** (`CartSync`). Cross-checks between the ledger's add reply
  and how the reducer folds that reply into the client's cart.

Shared state is modelled as classes. `Inventory.ItemStore` holds the
item-id → stock table. `Ledger` and `OrderBook` each hold a reference to
the same store. Their methods change fields in place, under `modifies`
clauses.

Each stock loop in the source is a method with a `while` loop
(`TakeStock`, `RestoreStock`). The method is proved equal to a fold
function (`Take`, `Restore`), and the lemmas about stock are proved on that
fold.

The payment provider is modelled as inputs:
- the checkout session opened for an online order (its id, payment intent
  and URL);
- whether a session is paid;
- whether a refund fails. Nothing depends on this input.

What the two latent lifecycle bugs look like in this model:
- **Repeated confirmation.** Every `ConfirmPayment` that finds the paid
  session applies `Take` again. `RepeatedTakeCompounds` shows that two
  confirmations take the demand twice.
- **Cancelling an unpaid online order.** `CreateOrder` leaves stock
  untouched for online orders, but `CancelOrder` always applies `Restore`.
  `RestoreWithoutTakeInflates` shows that stock then rises above its level
  before the order.

Edge cases of the code that the model keeps as written:
- Add and update refuse an item whose stock is `<= 0`
  (cartController.js:31 and :92), not only one whose stock is exactly 0.
- Every payment method other than `online` takes the immediate-decrement
  path: the guard at orderController.js:39 is `paymentMethod !== 'online'`, not a test for `cash`.
- The restore at orderController.js:313 adds quantities back without
  clamping, unlike the decrement at :44, which clamps at 0.
- Payment confirmation without a session id answers 400 at
  orderController.js:113 before asking the provider.
- A new cart entry is stored with the requested quantity even when that
  quantity is 0 or negative: cartController.js:59-68 only checks the upper
  bound there. For this reason the ledger's invariant does not claim
  positive quantities.

## Model

| member | source | states |
|---|---|---|
| CartController.Ledger.GetCart | backend/controllers/cartController.js:6-15 | returns exactly the caller's entries, each with its stored item and quantity, and no other user's |
| CartController.Ledger.FindEntry | backend/controllers/cartController.js:36 | finds the caller's entry for the item when one exists, and reports none only when no entry of that user refers to that item |
| CartController.Ledger.AddToCart | backend/controllers/cartController.js:18-75 | a falsy itemId or a non-number quantity gives BadRequest; an unknown item gives NotFound; stock <= 0 gives OutOfStock; all three leave the ledger unchanged. For an existing entry: total = stored + requested; total > stock gives Insufficient(stock, total) with the entry unchanged; total < 1 deletes the entry and replies quantity 0; otherwise it stores total. For a new entry: requested > stock gives Insufficient(stock, requested); otherwise exactly one new entry with the requested quantity is created under a fresh id, and only then does the id counter advance. Keeps one entry per (user, item) |
| CartController.Ledger.UpdateCartItem | backend/controllers/cartController.js:78-109 | an entry that is missing or belongs to someone else gives NotFound; a missing item gives NotFound; stock <= 0 gives OutOfStock; quantity > stock gives Insufficient(stock, quantity); otherwise it stores max(1, quantity), which is never below 1. No other entry changes |
| CartController.Ledger.DeleteCartItem | backend/controllers/cartController.js:112-120 | removes exactly the caller's own entry with that id and nothing else; any other id gives NotFound and changes nothing |
| CartController.Ledger.ClearCart | backend/controllers/cartController.js:123-126 | deletes every entry of the caller and keeps every entry of other users unchanged |
| CartController.OtherUsers | backend/controllers/cartController.js:124 | an entry survives iff its owner is not the user, and it survives unchanged |
| CartController.ClearIsIdempotent | backend/controllers/cartController.js:123-125 | clearing twice gives the same ledger as clearing once |
| OrderModel.NormaliseLine | backend/controllers/orderController.js:24-35 | never fails and the name is never empty: item name, then top-level name, then 'Unknown'. A present item price wins over the top-level price even when it is not a number (then 0). The image is a truthy item image, else a truthy top-level image, else ''. The id is itemId, then item._id, then item.itemId, and is missing only when all three are. The quantity is the numeric quantity, else 0 |
| OrderModel.NormaliseLines | backend/controllers/orderController.js:24-35 | exactly one order line per request line, in order, each the normalisation of its request line |
| OrderModel.NormaliseLinesRoundTrip | backend/controllers/orderController.js:24-35 | writing order lines with non-empty names back in request shape and normalising gives the same lines: normalisation loses nothing of a well-formed line |
| OrderModel.Take | backend/controllers/orderController.js:39-49 | the decrement loop keeps the set of items and never makes a non-negative stock negative |
| OrderModel.Restore | backend/controllers/orderController.js:309-317 | the restore loop keeps the set of items |
| OrderModel.TakeIsClamped | backend/controllers/orderController.js:40-48 | with a non-negative stock and non-negative quantities, an item ends at exactly max(0, stock - demand): the per-line clamp amounts to one clamp of the total, and an over-demanded item ends at 0 |
| OrderModel.TakeSubtractsDemand | backend/controllers/orderController.js:39-49 | when the stock covers the lines' demand for an item, the decrement is exact: stock - demand |
| OrderModel.RestoreAddsDemand | backend/controllers/orderController.js:309-317 | cancellation adds exactly the lines' demand for every item: stock S and quantity Q give S + Q |
| OrderModel.UnreferencedItemUntouched | backend/controllers/orderController.js:41-43 | an item that no line refers to keeps its stock through both loops; lines without an id or with an unknown id change nothing |
| OrderModel.RestoreUndoesTake | backend/controllers/orderController.js:309-317 | restoring after an unclamped decrement gives back the original stock table |
| OrderModel.RepeatedTakeCompounds | backend/controllers/orderController.js:125-133 | running the confirmation decrement twice takes the demand twice, so confirmation is not idempotent |
| OrderModel.RestoreWithoutTakeInflates | backend/controllers/orderController.js:309-317 | restoring lines that were never decremented (a pending online order) leaves the item's stock above its earlier level |
| OrderModel.DecrementExample | backend/controllers/orderController.js:44 | 5 in stock and a line of 2 leave 3; a second confirmation leaves 1; a restore after the first brings back 5 |
| OrderModel.PlacedOrder | backend/controllers/orderController.js:73-98 | the stored order is the caller's, with the request's contact, method and amounts, the normalised lines, shipping 0 and no legacy address. Online: payment pending, the session's id and payment intent attached. Any other method: payment succeeded, no session, no payment intent. A fresh order is always cancellable and never owes a refund |
| OrderModel.RefundDue | backend/controllers/orderController.js:295 | the refund condition of cancellation: an online order whose payment succeeded and whose payment intent is truthy; what it implies is stated by PlacedOrder, RefundDueOnceConfirmed and OrderBook.Cancel |
| OrderModel.RefundDueOnceConfirmed | backend/controllers/orderController.js:73-85 | an online order placed with a payment intent owes no refund while pending, and owes one once its payment is marked succeeded |
| OrderModel.ApplyPatch | backend/controllers/orderController.js:266 | each of the seven contact fields, the two statuses, the payment intent, the session id, the shipping cost and the legacy address takes the body's value when present and keeps the stored one when absent; owner, lines, payment method and amounts are kept |
| OrderModel.UserView | backend/controllers/orderController.js:153-165 | the owner's listing keeps the order and every line's name, price and quantity; a non-empty image path becomes host + path and an empty one stays '' |
| OrderModel.AdminView | backend/controllers/orderController.js:181-204 | the admin listing keeps id, user, email, method and both statuses. Each address field is the order's own when present, else the legacy nested one, else ''. Lines are listed with their snapshot and quantity |
| OrderController.OrderBook.TakeStock | backend/controllers/orderController.js:39-49 | the in-place loop leaves exactly the stock the decrement fold gives |
| OrderController.OrderBook.RestoreStock | backend/controllers/orderController.js:309-317 | the in-place loop leaves exactly the stock the restore fold gives |
| OrderController.OrderBook.CreateOrder | backend/controllers/orderController.js:10-107 | a missing, non-array or empty items list gives BadRequest with no order and no stock change. Otherwise one new order under a fresh id, owned by the caller, holding the normalised lines. Online: payment pending, session attached, checkout URL returned, stock unchanged. Any other method: payment succeeded, no session, stock decremented by the lines |
| OrderController.OrderBook.ConfirmPayment | backend/controllers/orderController.js:110-142 | no session id gives BadRequest; an unpaid session gives PaymentIncomplete; no order with that session gives NotFound; none of these changes anything. Otherwise the order with that session gets payment succeeded and stock is decremented by its lines, on every call |
| OrderController.OrderBook.GetOrders | backend/controllers/orderController.js:145-172 | lists exactly the caller's orders, each in the owner's listing shape |
| OrderController.OrderBook.GetAllOrders | backend/controllers/orderController.js:174-211 | lists every order, each in the admin listing shape |
| OrderController.OrderBook.GetOrderById | backend/controllers/orderController.js:234-251 | returns the order iff it exists, belongs to the caller, and has the query's email when the query names one; otherwise NotFound or Forbidden |
| OrderController.OrderBook.UpdateOrder | backend/controllers/orderController.js:254-272 | applies the body iff the order exists, belongs to the caller, and has the body's email when the body names one; otherwise nothing changes |
| OrderController.OrderBook.UpdateAnyOrder | backend/controllers/orderController.js:215-230 | applies the body to any existing order; NotFound otherwise |
| OrderController.OrderBook.Cancel | backend/controllers/orderController.js:285-326 | a cancelled or delivered order gives InvalidState with no change. Otherwise the status becomes cancelled, stock is restored by the lines, and a refund is requested exactly for a succeeded online order with a payment intent. The refund's failure has no effect |
| OrderController.OrderBook.CancelOrder | backend/controllers/orderController.js:275-331 | an unknown order gives NotFound, another user's order gives Forbidden, and neither changes anything; otherwise it behaves as Cancel |
| OrderController.OrderBook.CancelOrderAdmin | backend/controllers/orderController.js:334-385 | as CancelOrder without the ownership check |
| CartContext.AddQuantity | frontend/src/CartContext/CartContext.jsx:16-18 | same length; every line with the id gets its quantity increased by the amount; all other lines are unchanged |
| CartContext.SetQuantity | frontend/src/CartContext/CartContext.jsx:25-27 | same length; every line with the id gets the new quantity; all other lines are unchanged |
| CartContext.Without | frontend/src/CartContext/CartContext.jsx:31 | drops exactly the lines with the id: a line survives iff it was there and has another id, and the length falls by the number of lines with the id |
| CartContext.Reduce | frontend/src/CartContext/CartContext.jsx:7-39 | HYDRATE gives the payload. ADD with a known id adds to the matching lines and keeps the length; with a new id it appends the line at the end. UPDATE sets the matching quantities and keeps the length. REMOVE is exactly the filter Without, so only the matching lines go and the others keep their order. CLEAR gives []. Any other action keeps the state |
| CartContext.TotalItems | frontend/src/CartContext/CartContext.jsx:98 | totalItems, the sum of the line quantities, is never negative when no quantity is |
| CartContext.TotalAmount | frontend/src/CartContext/CartContext.jsx:99-103 | totalAmount, the sum of price times quantity with a missing price counting as 0, is 0 when no line has a price, and never negative when no price or quantity is |
| CartContext.CountPositiveIffContains | frontend/src/CartContext/CartContext.jsx:14-15 | the find succeeds iff at least one line has the id |
| CartContext.TotalItemsAppend | frontend/src/CartContext/CartContext.jsx:98 | totalItems of two lists joined is the sum of their totals |
| CartContext.TotalAmountAppend | frontend/src/CartContext/CartContext.jsx:99-103 | totalAmount of two lists joined is the sum of their amounts |
| CartContext.AddQuantityTotal | frontend/src/CartContext/CartContext.jsx:16-18 | adding q to the lines with an id raises totalItems by q times the number of such lines |
| CartContext.SetQuantityTotal | frontend/src/CartContext/CartContext.jsx:25-27 | setting the quantity of the lines with an id replaces their summed quantity by q per line in totalItems |
| CartContext.WithoutTotal | frontend/src/CartContext/CartContext.jsx:31 | removing an id lowers totalItems by the summed quantity of its lines |
| CartContext.TotalItemsAfter | frontend/src/CartContext/CartContext.jsx:98 | how each reducer action changes totalItems: add, append, update, remove, clear |
| CartContext.AddNewLineAmount | frontend/src/CartContext/CartContext.jsx:99-103 | appending a new line raises totalAmount by its price times its quantity; a missing price counts as 0 |
| CartContext.WithoutDistributes | frontend/src/CartContext/CartContext.jsx:31 | removal distributes over concatenation, so the surviving lines keep their order |
| CartContext.WithoutIdempotent | frontend/src/CartContext/CartContext.jsx:31 | removing an id twice equals removing it once |
| CartSync.AddReplyCountsExistingTwice | frontend/src/CartContext/CartContext.jsx:12-21 | the ledger replies with the merged total (stored + requested) and the reducer adds that total to the line it holds. The client therefore shows 2·stored + requested, which agrees with the server only when the stored quantity was 0 |
| CartSync.RemovalReplyKeepsLine | backend/controllers/cartController.js:45-48 | when the ledger deleted the entry and replied with quantity 0, the reducer leaves the client cart exactly as it was, deleted line included |

## Left out

- Persistence (Mongoose queries, `populate`, `save`) is modelled as the class fields it reads and writes. Express request and response plumbing is modelled as typed outcomes; HTTP status codes and messages are not modelled.
- The payment provider (opening a checkout session, retrieving it, refunds) is modelled as parameters. The Stripe line items (`unit_amount = round(price * 100)`, currency, URLs, metadata) are not modelled.
- Numbers are integers. Float prices and quantities, `NaN` passing `typeof === 'number'` in the ledger, and Stripe's cent rounding are not modelled.
- Exceptions from the data layer or the provider, such as an invalid id cast or a session lookup failure, are not modelled. These produce a 500 reply, possibly after some stock writes. Such partial failures and their missing rollback are not modelled.
- Concurrency is not modelled. Requests run one at a time, so the lost-update race of the read-modify-write stock updates is not captured.
- CartController.Ledger.GetCart: returns the entries as a map keyed by entry id. The populated item document is not modelled.
- CartController.Ledger.UpdateCartItem: the quantity is an integer. A missing or non-numeric quantity in the body (`Math.max(1, undefined)`) is not modelled.
- OrderController.OrderBook.GetOrders: the newest-first order of the list (`sort({ createdAt: -1 })`) is not modelled. The result is a map keyed by order id.
- OrderController.OrderBook.GetAllOrders: the newest-first order of the list is not modelled.
- OrderModel.ApplyPatch: an update body can carry the seven contact fields, the two statuses, the payment intent, the session id, the shipping cost and the legacy address. Bodies that write any other field (lines, owner, subtotal, tax, total, payment method), bodies that set a field to `null` explicitly, and schema validation of the update are not modelled.
- The order and cart-item schemas are not part of this model. The default order status is taken to be `placed`; the model only relies on it being neither `cancelled` nor `delivered`.
- The route table does not register the two cancel handlers. They are modelled anyway, as self-contained operations.
- The item CRUD controller is left out. Its create, update and quick-update handlers (itemController.js:5-17, :59-83, :100-106) write an item's `quantity`, which is its stock, so admin edits are a second writer of the stock table. The model's stock changes only through the order lifecycle.
- The admin authentication middleware, the server setup, the route files and all React components are left out. The same goes for the auth context, the API client and the provider's local-storage and hydration effects. None of them holds cart, order or stock logic.
- CartContext.TotalAmount: a cart line's quantity is always present. The `ci?.quantity ?? 0` fallback of CartContext.jsx:101, and the `NaN` that `totalItems` at :98 would produce for a line without a quantity, are not modelled.
