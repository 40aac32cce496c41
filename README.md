# Storefront cart and order logic in Dafny

This project models the cart and order rules of a small online storefront
(an Express/Mongoose server, `Server.js`). Four pieces of state are modelled:

- the **catalog**: a map from product id to `{name, price, stock, image}`;
- each user's **cart**: a sequence of lines `{product, quantity, price, name, image}`;
- the **order ledger**: a map from order id to order;
- the **status vocabulary**: the five statuses an order may carry.

The cart operations follow the route handlers step by step:

- a merge and a quantity overwrite assign one line's `quantity` in place, and
  adding a new product appends a line;
- removal (by set-quantity or remove) replaces `lines` with the filtered
  sequence, and clear replaces it with the empty one;
- view folds the lines into `total` and `itemCount`;
- every mutating handler answers with that same view.

Order placement is a loop over the requested lines. For each line it looks
the product up, rejects a missing product or a stock lower than the
quantity, records the product's live price, adds price × quantity to the
total and subtracts the quantity from the stock in the same pass. Because
checking and subtracting share one loop, a rejection on line k keeps the
changes made for lines 0..k-1: placement is not a two-pass,
all-or-nothing checkout. The model reproduces this and proves it
(`FirstFailureStops`, `PartialCommitExample`).

The placement loop is specified by a pure function, `Orders.Walk`, and
`OrderLedger.Place` is proved to compute it. The properties of
placement are lemmas about `Walk`:

- every product keeps its name, price and image;
- a stock that placement touches is changed only after the check
  `stock >= quantity`, so it ends at 0 or above; a negative quantity
  raises it, and an untouched stock keeps its value, even a negative one;
- each order line records the catalog price;
- the order total is the sum of price × quantity;
- after a successful placement, each stock changes by minus the total quantity
  requested for that product.

Prices are integer cents. Quantities and stock are unbounded integers,
and their signs are not checked, because the source does not check them.
Adding a quantity of 0 or a negative quantity is accepted exactly as the
handler accepts it.

Further behaviour of the code that the model keeps:

- Placement reads its lines from the request body, not from the cart. The
  cart is cleared only after a successful placement.
- Set-quantity on a product with no line in the cart fails with
  "not in cart". With a positive quantity, it reads `product.stock` of a product that may have
  left the catalog: in the code that read throws, and the handler answers
  with a generic failure. The model's `Internal` error stands for that.
- The checks for a missing `user.cart` (`Server.js:667`, `723`, `774`)
  never fire. Mongoose gives every user an array, and an empty array is
  truthy, so an empty cart goes on to the "not in cart" check. The model
  has no such error.
- Any of the five statuses is accepted from any current status. There is
  no forward-only state machine.

## Model

| member | source | states |
|---|---|---|
| Records.StatusName | Server.js:123-127 | every status has a name from the schema's five-value enumeration |
| Records.ParseStatus | Server.js:905-908 | a requested status is accepted exactly when it is present and one of the five names; the accepted status carries that name |
| Records.StatusRoundTrip | Server.js:123-127 | every status is accepted under its own name |
| Records.Catalog.constructor | Server.js:98-104 | the catalog holds the given products |
| CartLedger.FindLine | Server.js:672 | the index found is that of the first line for the product; none is found only if no line is for it |
| CartLedger.Without | Server.js:778 | filtering keeps no line for the product, keeps every other line with its multiplicity, and leaves a cart without that product unchanged |
| CartLedger.WithoutConcat | Server.js:778 | filtering distributes over concatenation, so the kept lines stay in their original order |
| CartLedger.WithoutIdempotent | Server.js:778 | removing the same product twice is the same as removing it once |
| CartLedger.WithoutUnique | Server.js:735 | in a cart with one line per product, removing the product found at index i drops exactly line i |
| CartLedger.UniqueDropOne | Server.js:735 | dropping one line keeps at most one line per product |
| CartLedger.WithoutKeepsUnique | Server.js:778 | removing a product keeps at most one line per product |
| CartLedger.Total | Server.js:634-636 | the reference definition of the cart total: the sum of price × quantity over the lines, folded in order |
| CartLedger.ItemCount | Server.js:634-637 | the reference definition of the item count: the sum of the quantities over the lines, folded in order |
| CartLedger.TotalsConcat | Server.js:634-637 | the total and the item count of two carts joined are the sums of their totals and item counts |
| CartLedger.TotalsSplit | Server.js:634-637 | each line contributes price × quantity to the total and its quantity to the item count |
| CartLedger.TotalsUpdate | Server.js:740-753 | overwriting one line's quantity moves the total by that line's price × the change, and the item count by the change |
| CartLedger.TotalsWithout | Server.js:735-753 | removing a product's only line takes exactly that line's price × quantity out of the total and its quantity out of the item count |
| CartLedger.TotalsAppend | Server.js:681-700 | appending a line adds its price × quantity to the total and its quantity to the item count |
| CartLedger.Cart.constructor | Server.js:87-94 | a new cart is empty and has at most one line per product |
| CartLedger.Cart.View | Server.js:625-649 | the reply shows the lines, the total as the sum of price × quantity and the item count as the sum of quantities |
| CartLedger.Cart.Add | Server.js:651-713 | an unknown product fails with not-found; a quantity (default 1) above stock fails with insufficient stock; a line already present has the quantities summed, and the add fails if the sum exceeds stock; otherwise one line with the live price, name and image is appended; failures leave the cart unchanged; no existing line's product or price snapshot changes; at most one line per product is kept |
| CartLedger.Cart.SetQuantity | Server.js:715-766 | a product with no line fails with not-in-cart; a quantity of 0 or less removes exactly that line and lowers the item count by its quantity; a positive quantity fails if the product has left the catalog or the quantity exceeds stock, and otherwise becomes the line's quantity, with nothing else changed |
| CartLedger.Cart.Remove | Server.js:768-802 | every line for the product is dropped and the others keep their order; an absent product leaves the cart unchanged; the reply shows the new totals |
| CartLedger.Cart.Clear | Server.js:804-821 | the cart becomes empty and the reply shows no items, total 0 and item count 0 |
| Orders.Step | Server.js:837-856 | the reference definition of one pass of the placement loop: a missing product or a stock below the quantity stops with that line's error and the catalog as it stands; otherwise the line is recorded at the live price, price × quantity is added to the total and the quantity is subtracted from the stock |
| Orders.Walk | Server.js:836-857 | the reference definition of the placement loop: the passes of `Step` over the requested lines in order, from the catalog as placement found it |
| Orders.WalkFrame | Server.js:836-857 | the placement loop adds and removes no product and changes no name, price or image; every stock is either untouched or not negative |
| Orders.StockStaysNonNegative | Server.js:841-856 | a catalog without negative stock has none after placement, whether it succeeds or is rejected part way |
| Orders.StoppedStays | Server.js:836-843 | once a line is rejected, the later lines are not processed |
| Orders.FirstFailureStops | Server.js:836-856 | if lines 0..k-1 pass and line k fails, placement answers with line k's error and the catalog keeps exactly the decrements of lines 0..k-1 |
| Orders.StoppedOnSomeLine | Server.js:836-843 | a rejected placement was rejected on some line k, after lines 0..k-1 had passed |
| Orders.WalkSuccess | Server.js:836-857 | a placement that passes every line has one order line per request line recording the product's catalog price, a total equal to the sum of price × quantity over the order lines, and each product's stock lowered by the total quantity requested for it |
| Orders.PartialCommitExample | Server.js:836-857 | with stock 5 for A and 0 for B, a request for 2 of A and then 1 of B is rejected on B and leaves A's stock at 3 |
| Orders.LastUnitSoldOnce | Server.js:841-856 | of two placements in a row for the last unit of a product, the first succeeds and the second is rejected for insufficient stock |
| Orders.OrderLedger.constructor | Server.js:115-131 | the ledger starts without orders |
| Orders.OrderLedger.Place | Server.js:824-880 | a missing or empty product list fails and changes nothing; otherwise the catalog ends as the placement loop leaves it; on rejection the reply is that line's error and the orders and the cart are unchanged; on success one new pending order is stored for the cart's owner with the loop's lines and total and the defaulted address and payment method, and the cart is emptied; every stored order's total is the sum over its lines |
| Orders.OrderLedger.UpdateStatus | Server.js:901-924 | a status outside the five names fails before any lookup; an unknown order fails with not-found; otherwise the order's status becomes the requested one, whatever it was before, and nothing else changes |

## Left out

- HTTP routing, CORS, body parsing and status codes. Each error reply is an error value of a result type instead.
- Token authentication and the admin role gate (`Server.js:314-336`). The principal is the cart's owner, and the status update is taken as already authorised.
- Database access. `findById`, `save`, `populate` and `findByIdAndUpdate` are reads and writes of in-memory maps and sequences.
- Malformed-id cast errors. The database layer answers these with a generic failure. The model's ids are plain strings and numbers, so this case cannot arise.
- A missing user record. It would make the cart handlers, and the cart-clearing step of placement, throw. The model assumes the principal's record exists.
- Order id generation and timestamps (`addedAt`, `createdAt`). Ids come from a counter in the ledger, and clocks are not modelled.
- Rounding of the cart total with `toFixed(2)`/`parseFloat` (`Server.js:642`). This is floating point; prices are integer cents and the total is exact.
- Non-numeric quantities. A missing or string quantity in a request body follows JavaScript coercion rules, which are not modelled. Quantities are integers.
- Concurrent requests. Only sequential behaviour is modelled. The read-then-write stock update is exactly as racy in the source as it looks here.
- Order listing (`GET /api/orders`), the product catalog routes, search, pagination, categories, image uploads, demo seeding, and the profile, health and debug routes. They hold no cart or order rules.
- Two spellings of one product id. The catalog lookup casts the requested id to a database id, while the cart compares `item.product.toString() === productId` (`Server.js:672`, `727`, `778`), so a differently spelled id of a product already in the cart could find the product, miss its line and append a second line for it. The model takes every id in one canonical form, compares ids only as equal strings, and so keeps at most one line per product; it does not capture that duplicate-line behaviour.
