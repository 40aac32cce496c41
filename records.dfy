/**
 * Record shapes of the storefront as the cart and order logic sees them:
 * catalog products, cart lines, order lines and orders, plus the order
 * status vocabulary. Prices are integer cents.
 */
module Records {
  import opened Wrappers

  type ProductId = string
  type UserId = string

  /** A catalog product, reduced to the fields the cart and order logic read. */
  datatype Product = Product(name: string, price: int, stock: int, image: string)

  /** The product catalog. Cart operations read it; only order placement writes it. */
  class Catalog {
    var products: map<ProductId, Product>

    constructor (products: map<ProductId, Product>)
      ensures this.products == products
    {
      this.products := products;
    }
  }

  /** One cart line: a product reference plus the price, name and image captured when it was added. */
  datatype CartLine = CartLine(product: ProductId, quantity: int, price: int, name: string, image: string)

  /** One line of a placed order, with the price charged for it. */
  datatype OrderLine = OrderLine(product: ProductId, quantity: int, price: int)

  datatype Status = Pending | Confirmed | Shipped | Delivered | Cancelled

  datatype Order = Order(
    user: UserId,
    products: seq<OrderLine>,
    totalAmount: int,
    status: Status,
    shippingAddress: string,
    paymentMethod: string)

  /** The five status names an order may carry, in the order the schema lists them. */
  const StatusNames: seq<string> := ["pending", "confirmed", "shipped", "delivered", "cancelled"]

  function StatusName(s: Status): (name: string)
    ensures name in StatusNames
  {
    match s
    case Pending => "pending"
    case Confirmed => "confirmed"
    case Shipped => "shipped"
    case Delivered => "delivered"
    case Cancelled => "cancelled"
  }

  /**
   * The status a request names, if it is one of the five known names.
   * An absent or empty status is not one of them.
   */
  function ParseStatus(s: Option<string>): (r: Option<Status>)
    ensures r.Some? <==> s.Some? && s.value in StatusNames
    ensures r.Some? ==> StatusName(r.value) == s.value
  {
    if s.None? then None
    else if s.value == "pending" then Some(Pending)
    else if s.value == "confirmed" then Some(Confirmed)
    else if s.value == "shipped" then Some(Shipped)
    else if s.value == "delivered" then Some(Delivered)
    else if s.value == "cancelled" then Some(Cancelled)
    else None
  }

  /** Every status is recognised by its own name, so a status survives being written and read back. */
  lemma StatusRoundTrip(s: Status)
    ensures ParseStatus(Some(StatusName(s))) == Some(s)
  {
  }
}
