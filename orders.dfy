/**
 * Order placement and order status updates.
 *
 * Placement walks the requested lines in order; for each line it re-reads
 * the product, rejects a missing product or a stock below the requested
 * quantity, records the product's current price, and subtracts the quantity
 * from the stock in the same pass. A rejection on a later line therefore
 * leaves the changes made for the earlier lines in place: placement is not
 * all-or-nothing.
 */
module Orders {
  import opened Wrappers
  import opened Records
  import CartLedger

  type OrderId = nat

  /** One requested line of an order request. */
  datatype RequestLine = RequestLine(productId: ProductId, quantity: int)

  datatype OrderError =
    | ProductsRequired                       // the product list is missing, not a list, or empty
    | ProductNotFound(productId: ProductId)  // a requested product is not in the catalog
    | InsufficientStock(productName: string) // a requested product has less stock than the line asks for

  datatype StatusError = InvalidStatus | OrderNotFound

  /**
   * Where the walk over the requested lines stands: still running, with the
   * catalog as decremented so far, the order lines and the running total; or
   * stopped by an error, with the catalog as it was left.
   */
  datatype Progress =
    | Running(products: map<ProductId, Product>, lines: seq<OrderLine>, total: int)
    | Stopped(error: OrderError, products: map<ProductId, Product>)

  /** One pass of the placement loop over one requested line. */
  function Step(p: Progress, item: RequestLine): Progress {
    match p
    case Stopped(_, _) => p
    case Running(catalog, lines, total) =>
      if item.productId !in catalog then Stopped(ProductNotFound(item.productId), catalog)
      else
        var product := catalog[item.productId];
        if product.stock < item.quantity then Stopped(InsufficientStock(product.name), catalog)
        else Running(catalog[item.productId := product.(stock := product.stock - item.quantity)],
                     lines + [OrderLine(item.productId, item.quantity, product.price)],
                     total + product.price * item.quantity)
  }

  /** The placement loop run over `items` from `catalog`. */
  function Walk(catalog: map<ProductId, Product>, items: seq<RequestLine>): Progress {
    if items == [] then Running(catalog, [], 0)
    else Step(Walk(catalog, items[..|items| - 1]), items[|items| - 1])
  }

  /** The sum of price times quantity over order lines. */
  function LinesTotal(lines: seq<OrderLine>): int {
    if lines == [] then 0
    else LinesTotal(lines[..|lines| - 1]) + lines[|lines| - 1].price * lines[|lines| - 1].quantity
  }

  /** The total quantity requested for `pid` over all lines (a product may be requested on several lines). */
  function Requested(items: seq<RequestLine>, pid: ProductId): int {
    if items == [] then 0
    else Requested(items[..|items| - 1], pid)
         + (if items[|items| - 1].productId == pid then items[|items| - 1].quantity else 0)
  }

  ghost predicate NonNegativeStock(catalog: map<ProductId, Product>) {
    forall pid :: pid in catalog ==> catalog[pid].stock >= 0
  }

  /** `shippingAddress || "Default Address"` and `paymentMethod || "credit card"`: an absent or empty field takes the default. */
  function OrDefault(field: Option<string>, default: string): string {
    if field.Some? && field.value != "" then field.value else default
  }

  /**
   * The walk changes nothing but stock: every product stays in the catalog
   * with its name, price and image, and no product is added. A stock the walk
   * touched was changed only after the check `stock >= quantity`, so it ends
   * at 0 or above (a negative quantity raises it); an untouched one keeps its
   * value, negative or not.
   */
  lemma {:induction false} WalkFrame(catalog: map<ProductId, Product>, items: seq<RequestLine>)
    ensures Walk(catalog, items).products.Keys == catalog.Keys
    ensures forall pid :: pid in catalog ==>
              Walk(catalog, items).products[pid] == catalog[pid].(stock := Walk(catalog, items).products[pid].stock)
    ensures forall pid :: pid in catalog ==>
              Walk(catalog, items).products[pid].stock >= 0 || Walk(catalog, items).products[pid].stock == catalog[pid].stock
  {
    if items != [] {
      WalkFrame(catalog, items[..|items| - 1]);
    }
  }

  /** A catalog without negative stock never gets one from the walk, whether it succeeds or stops. */
  lemma StockStaysNonNegative(catalog: map<ProductId, Product>, items: seq<RequestLine>)
    requires NonNegativeStock(catalog)
    ensures NonNegativeStock(Walk(catalog, items).products)
  {
    WalkFrame(catalog, items);
  }

  /** Once the walk has stopped on a prefix, the later lines change nothing. */
  lemma {:induction false} StoppedStays(catalog: map<ProductId, Product>, items: seq<RequestLine>, n: nat)
    requires n <= |items|
    requires Walk(catalog, items[..n]).Stopped?
    ensures Walk(catalog, items) == Walk(catalog, items[..n])
    decreases |items| - n
  {
    if n < |items| {
      assert items[..n + 1][..n] == items[..n];
      StoppedStays(catalog, items, n + 1);
    } else {
      assert items[..n] == items;
    }
  }

  /**
   * If lines 0..k-1 pass and line k fails, placement answers with line k's
   * error and leaves the catalog exactly as the first k lines decremented it.
   */
  lemma FirstFailureStops(catalog: map<ProductId, Product>, items: seq<RequestLine>, k: nat)
    requires k < |items|
    requires Walk(catalog, items[..k]).Running?
    requires Step(Walk(catalog, items[..k]), items[k]).Stopped?
    ensures Walk(catalog, items) == Stopped(Step(Walk(catalog, items[..k]), items[k]).error, Walk(catalog, items[..k]).products)
  {
    assert items[..k + 1][..k] == items[..k];
    StoppedStays(catalog, items, k + 1);
  }

  /**
   * A walk that gets through every line records one order line per request
   * line with the product's catalog price, totals price times quantity over
   * them, and lowers each product's stock by the total quantity requested
   * for it.
   */
  lemma {:induction false} WalkSuccess(catalog: map<ProductId, Product>, items: seq<RequestLine>)
    requires Walk(catalog, items).Running?
    ensures var w := Walk(catalog, items);
            w.products.Keys == catalog.Keys &&
            |w.lines| == |items| &&
            (forall k :: 0 <= k < |items| ==>
               items[k].productId in catalog &&
               w.lines[k] == OrderLine(items[k].productId, items[k].quantity, catalog[items[k].productId].price)) &&
            w.total == LinesTotal(w.lines) &&
            (forall pid :: pid in catalog ==> w.products[pid].stock == catalog[pid].stock - Requested(items, pid))
  {
    if items != [] {
      var prefix := items[..|items| - 1];
      var item := items[|items| - 1];
      WalkSuccess(catalog, prefix);
      WalkFrame(catalog, prefix);
      var p := Walk(catalog, prefix);
      var w := Walk(catalog, items);
      assert w == Step(p, item);
      assert w.lines == p.lines + [OrderLine(item.productId, item.quantity, catalog[item.productId].price)];
      assert w.lines[..|w.lines| - 1] == p.lines;
      forall k | 0 <= k < |items|
        ensures items[k].productId in catalog
        ensures w.lines[k] == OrderLine(items[k].productId, items[k].quantity, catalog[items[k].productId].price)
      {
        if k < |prefix| {
          assert items[k] == prefix[k];
        }
      }
    }
  }

  /** A walk that stops does so on some line k: lines 0..k-1 all passed and line k is the one rejected. */
  lemma {:induction false} StoppedOnSomeLine(catalog: map<ProductId, Product>, items: seq<RequestLine>)
    requires Walk(catalog, items).Stopped?
    ensures exists k :: 0 <= k < |items| && Walk(catalog, items[..k]).Running? &&
                        Walk(catalog, items) == Step(Walk(catalog, items[..k]), items[k])
  {
    var n := |items| - 1;
    var prefix := items[..n];
    assert items[..n] == prefix;
    if Walk(catalog, prefix).Running? {
      assert Walk(catalog, items) == Step(Walk(catalog, items[..n]), items[n]);
    } else {
      StoppedOnSomeLine(catalog, prefix);
      var k :| 0 <= k < |prefix| && Walk(catalog, prefix[..k]).Running? &&
               Walk(catalog, prefix) == Step(Walk(catalog, prefix[..k]), prefix[k]);
      assert prefix[..k] == items[..k] && prefix[k] == items[k];
      StoppedStays(catalog, items, n);
    }
  }

  /**
   * Placement is not all-or-nothing: with a stock of 5 for A and 0 for B, a
   * request for 2 of A and then 1 of B is rejected on B, and A's stock stays
   * lowered to 3.
   */
  lemma PartialCommitExample()
    ensures var catalog := map["A" := Product("Lamp", 1000, 5, "lamp.png"), "B" := Product("Desk", 5000, 0, "desk.png")];
            Walk(catalog, [RequestLine("A", 2), RequestLine("B", 1)])
              == Stopped(InsufficientStock("Desk"), catalog["A" := Product("Lamp", 1000, 3, "lamp.png")])
  {
    var items := [RequestLine("A", 2), RequestLine("B", 1)];
    assert items[..1] == [RequestLine("A", 2)];
    assert items[..1][..0] == [];
  }

  /**
   * Two placements one after the other, each for the last unit of a product:
   * the first succeeds and leaves the stock at 0, the second is rejected.
   */
  lemma LastUnitSoldOnce()
    ensures var catalog := map["A" := Product("Lamp", 1000, 1, "lamp.png")];
            var first := Walk(catalog, [RequestLine("A", 1)]);
            first.Running? && first.products["A"].stock == 0 && first.total == 1000 &&
            Walk(first.products, [RequestLine("A", 1)]) == Stopped(InsufficientStock("Lamp"), first.products)
  {
    assert [RequestLine("A", 1)][..0] == [];
  }

  /** The placed orders. */
  class OrderLedger {
    var orders: map<OrderId, Order>
    var nextId: OrderId

    /** Every id was issued before, and every order's total is the sum over its lines. */
    ghost predicate Valid()
      reads this
    {
      (forall id :: id in orders ==> id < nextId) &&
      (forall id :: id in orders ==> orders[id].totalAmount == LinesTotal(orders[id].products))
    }

    constructor ()
      ensures Valid()
      ensures orders == map[] && nextId == 0
    {
      orders := map[];
      nextId := 0;
    }

    /**
     * Place an order for the cart's owner from the requested lines. On
     * success the order is stored as pending and the owner's cart is
     * emptied; on a stock or lookup failure the decrements made for earlier
     * lines remain and nothing else changes.
     */
    method Place(catalog: Catalog, cart: CartLedger.Cart, products: Option<seq<RequestLine>>,
                 shippingAddress: Option<string>, paymentMethod: Option<string>)
      returns (r: Result<OrderId, OrderError>)
      requires Valid()
      modifies this, catalog, cart
      ensures Valid()
      ensures r.Err? ==> orders == old(orders) && nextId == old(nextId) && cart.lines == old(cart.lines)
      ensures products.None? || products.value == [] ==>
                r == Err(ProductsRequired) && catalog.products == old(catalog.products)
      ensures products.Some? && products.value != [] ==>
                var w := Walk(old(catalog.products), products.value);
                catalog.products == w.products &&
                (w.Stopped? ==> r == Err(w.error)) &&
                (w.Running? ==>
                   r == Ok(old(nextId)) && nextId == old(nextId) + 1 && cart.lines == [] &&
                   orders == old(orders)[old(nextId) := Order(cart.owner, w.lines, w.total, Pending,
                                                              OrDefault(shippingAddress, "Default Address"),
                                                              OrDefault(paymentMethod, "credit card"))])
    {
      if products.None? || |products.value| == 0 {
        return Err(ProductsRequired);
      }
      var items := products.value;
      ghost var start := catalog.products;
      var totalAmount := 0;
      var orderProducts: seq<OrderLine> := [];
      for i := 0 to |items|
        modifies catalog
        invariant Walk(start, items[..i]) == Running(catalog.products, orderProducts, totalAmount)
      {
        var item := items[i];
        assert items[..i + 1][..i] == items[..i];
        if item.productId !in catalog.products {
          FirstFailureStops(start, items, i);
          return Err(ProductNotFound(item.productId));
        }
        var product := catalog.products[item.productId];
        if product.stock < item.quantity {
          FirstFailureStops(start, items, i);
          return Err(InsufficientStock(product.name));
        }
        totalAmount := totalAmount + product.price * item.quantity;
        orderProducts := orderProducts + [OrderLine(item.productId, item.quantity, product.price)];
        catalog.products := catalog.products[item.productId := product.(stock := product.stock - item.quantity)];
      }
      assert items[..|items|] == items;
      WalkSuccess(start, items);
      var order := Order(cart.owner, orderProducts, totalAmount, Pending,
                         OrDefault(shippingAddress, "Default Address"),
                         OrDefault(paymentMethod, "credit card"));
      r := Ok(nextId);
      orders := orders[nextId := order];
      nextId := nextId + 1;
      cart.lines := [];
    }

    /**
     * Set an order's status to any of the five known statuses, whatever its
     * current status is. The status is validated before the order is looked up.
     */
    method UpdateStatus(id: OrderId, status: Option<string>) returns (r: Result<Order, StatusError>)
      requires Valid()
      modifies this
      ensures Valid() && nextId == old(nextId)
      ensures r.Err? ==> orders == old(orders)
      ensures ParseStatus(status).None? ==> r == Err(InvalidStatus)
      ensures ParseStatus(status).Some? && id !in old(orders) ==> r == Err(OrderNotFound)
      ensures ParseStatus(status).Some? && id in old(orders) ==>
                r == Ok(old(orders)[id].(status := ParseStatus(status).value)) && orders == old(orders)[id := r.value]
    {
      var parsed := ParseStatus(status);
      if parsed.None? {
        return Err(InvalidStatus);
      }
      if id !in orders {
        return Err(OrderNotFound);
      }
      var updated := orders[id].(status := parsed.value);
      orders := orders[id := updated];
      r := Ok(updated);
    }
  }
}
