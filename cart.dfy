/**
 * The per-user cart ledger: a sequence of lines, at most one per product,
 * changed by add-or-merge, set-quantity, remove and clear, each checked
 * against the product's current stock in the catalog. Totals are derived
 * from the lines on every read and never stored.
 */
module CartLedger {
  import opened Wrappers
  import opened Records

  /** The errors a cart operation answers with. */
  datatype CartError =
    | ProductNotFound     // the product is not in the catalog
    | InsufficientStock   // the requested quantity alone exceeds the stock
    | ExceedsStock        // the line's resulting quantity would exceed the stock
    | NotInCart           // set-quantity on a product the cart has no line for
    | Internal            // a property read on a product that is no longer in the catalog

  /** The cart as a reply shows it: the lines and the two derived figures. */
  datatype CartView = CartView(items: seq<CartLine>, total: int, itemCount: int)

  /** At most one line per product. */
  ghost predicate UniqueProducts(lines: seq<CartLine>) {
    forall i, j :: 0 <= i < j < |lines| ==> lines[i].product != lines[j].product
  }

  /** The sum of price times quantity over the lines. */
  function Total(lines: seq<CartLine>): int {
    if lines == [] then 0
    else Total(lines[..|lines| - 1]) + lines[|lines| - 1].price * lines[|lines| - 1].quantity
  }

  /** The sum of the quantities over the lines. */
  function ItemCount(lines: seq<CartLine>): int {
    if lines == [] then 0
    else ItemCount(lines[..|lines| - 1]) + lines[|lines| - 1].quantity
  }

  /** The index of the first line for `pid`, as `Array.prototype.find` locates it. */
  function FindLine(lines: seq<CartLine>, pid: ProductId): (r: Option<nat>)
    ensures r.Some? ==> r.value < |lines| && lines[r.value].product == pid
    ensures r.Some? ==> forall k :: 0 <= k < r.value ==> lines[k].product != pid
    ensures r.None? ==> forall k :: 0 <= k < |lines| ==> lines[k].product != pid
  {
    if lines == [] then None
    else if lines[0].product == pid then Some(0)
    else match FindLine(lines[1..], pid)
      case None => None
      case Some(k) => Some(k + 1)
  }

  /** The lines that are not for `pid`, in their original order (the source's `filter`). */
  function Without(lines: seq<CartLine>, pid: ProductId): (r: seq<CartLine>)
    ensures |r| <= |lines|
    ensures forall k :: 0 <= k < |r| ==> r[k].product != pid
    ensures forall l: CartLine :: l.product != pid ==> multiset(r)[l] == multiset(lines)[l]
    ensures (forall k :: 0 <= k < |lines| ==> lines[k].product != pid) ==> r == lines
  {
    if lines == [] then []
    else
      assert lines == [lines[0]] + lines[1..];
      if lines[0].product == pid then Without(lines[1..], pid)
      else [lines[0]] + Without(lines[1..], pid)
  }

  /** Filtering distributes over concatenation, so filtering keeps the relative order of the kept lines. */
  lemma {:induction false} WithoutConcat(a: seq<CartLine>, b: seq<CartLine>, pid: ProductId)
    ensures Without(a + b, pid) == Without(a, pid) + Without(b, pid)
  {
    if a == [] {
      assert a + b == b;
    } else {
      assert (a + b)[0] == a[0];
      assert (a + b)[1..] == a[1..] + b;
      WithoutConcat(a[1..], b, pid);
    }
  }

  /** Removing a product a second time changes nothing: removal is idempotent. */
  lemma WithoutIdempotent(lines: seq<CartLine>, pid: ProductId)
    ensures Without(Without(lines, pid), pid) == Without(lines, pid)
  {
  }

  /** In a cart with one line per product, removing the product at index `i` drops exactly that line. */
  lemma WithoutUnique(lines: seq<CartLine>, pid: ProductId, i: nat)
    requires UniqueProducts(lines)
    requires i < |lines| && lines[i].product == pid
    ensures Without(lines, pid) == lines[..i] + lines[i + 1..]
  {
    var before, rest := lines[..i], lines[i + 1..];
    var tail := [lines[i]] + rest;
    assert lines == before + tail;
    WithoutConcat(before, tail, pid);
    assert forall k :: 0 <= k < |before| ==> before[k].product != pid by {
      forall k | 0 <= k < |before| ensures before[k].product != pid {
        assert before[k] == lines[k];
      }
    }
    assert Without(before, pid) == before;
    assert tail[0].product == pid && tail[1..] == rest;
    assert Without(tail, pid) == Without(rest, pid);
    assert forall k :: 0 <= k < |rest| ==> rest[k].product != pid by {
      forall k | 0 <= k < |rest| ensures rest[k].product != pid {
        assert rest[k] == lines[i + 1 + k];
      }
    }
    assert Without(rest, pid) == rest;
  }

  /** Dropping one line keeps at most one line per product. */
  lemma UniqueDropOne(lines: seq<CartLine>, i: nat)
    requires UniqueProducts(lines) && i < |lines|
    ensures UniqueProducts(lines[..i] + lines[i + 1..])
  {
    var r := lines[..i] + lines[i + 1..];
    assert forall k :: 0 <= k < |r| ==> r[k] == lines[if k < i then k else k + 1];
  }

  /** Removing a product keeps at most one line per product. */
  lemma WithoutKeepsUnique(lines: seq<CartLine>, pid: ProductId)
    requires UniqueProducts(lines)
    ensures UniqueProducts(Without(lines, pid))
  {
    var found := FindLine(lines, pid);
    if found.Some? {
      WithoutUnique(lines, pid, found.value);
      UniqueDropOne(lines, found.value);
    }
  }

  /** Both totals add up over a concatenation of carts. */
  lemma {:induction false} TotalsConcat(a: seq<CartLine>, b: seq<CartLine>)
    ensures Total(a + b) == Total(a) + Total(b)
    ensures ItemCount(a + b) == ItemCount(a) + ItemCount(b)
  {
    if b == [] {
      assert a + b == a;
    } else {
      var b' := b[..|b| - 1];
      assert (a + b)[..|a + b| - 1] == a + b';
      TotalsConcat(a, b');
    }
  }

  /** Each line contributes its price times its quantity to the total and its quantity to the item count. */
  lemma TotalsSplit(lines: seq<CartLine>, i: nat)
    requires i < |lines|
    ensures Total(lines) == Total(lines[..i]) + lines[i].price * lines[i].quantity + Total(lines[i + 1..])
    ensures ItemCount(lines) == ItemCount(lines[..i]) + lines[i].quantity + ItemCount(lines[i + 1..])
  {
    assert lines == lines[..i] + [lines[i]] + lines[i + 1..];
    TotalsConcat(lines[..i] + [lines[i]], lines[i + 1..]);
    TotalsConcat(lines[..i], [lines[i]]);
    assert [lines[i]][..0] == [];
  }

  /** Changing one line's quantity moves the totals by exactly that line's difference. */
  lemma TotalsUpdate(lines: seq<CartLine>, i: nat, q: int)
    requires i < |lines|
    ensures Total(lines[i := lines[i].(quantity := q)]) == Total(lines) + lines[i].price * (q - lines[i].quantity)
    ensures ItemCount(lines[i := lines[i].(quantity := q)]) == ItemCount(lines) + q - lines[i].quantity
  {
    var updated := lines[i := lines[i].(quantity := q)];
    TotalsSplit(lines, i);
    TotalsSplit(updated, i);
    assert updated[..i] == lines[..i];
    assert updated[i + 1..] == lines[i + 1..];
  }

  /** Removing a product's line from a cart with one line per product takes exactly that line out of the totals. */
  lemma TotalsWithout(lines: seq<CartLine>, pid: ProductId, i: nat)
    requires UniqueProducts(lines)
    requires i < |lines| && lines[i].product == pid
    ensures Total(Without(lines, pid)) == Total(lines) - lines[i].price * lines[i].quantity
    ensures ItemCount(Without(lines, pid)) == ItemCount(lines) - lines[i].quantity
  {
    WithoutUnique(lines, pid, i);
    TotalsConcat(lines[..i], lines[i + 1..]);
    TotalsSplit(lines, i);
  }

  /** Appending a line adds its price times quantity to the total and its quantity to the item count. */
  lemma TotalsAppend(lines: seq<CartLine>, l: CartLine)
    ensures Total(lines + [l]) == Total(lines) + l.price * l.quantity
    ensures ItemCount(lines + [l]) == ItemCount(lines) + l.quantity
  {
    assert (lines + [l])[..|lines|] == lines;
  }

  /** One user's cart. */
  class Cart {
    const owner: UserId
    var lines: seq<CartLine>

    ghost predicate Valid()
      reads this
    {
      UniqueProducts(lines)
    }

    /** A new user starts with an empty cart. */
    constructor (owner: UserId)
      ensures Valid()
      ensures this.owner == owner && lines == []
    {
      this.owner := owner;
      lines := [];
    }

    /** The cart with its total and item count, folded over the lines in order. */
    method View() returns (v: CartView)
      ensures v.items == lines
      ensures v.total == Total(lines) && v.itemCount == ItemCount(lines)
    {
      var total, itemCount := 0, 0;
      for i := 0 to |lines|
        invariant total == Total(lines[..i])
        invariant itemCount == ItemCount(lines[..i])
      {
        assert lines[..i + 1][..i] == lines[..i];
        total := total + lines[i].price * lines[i].quantity;
        itemCount := itemCount + lines[i].quantity;
      }
      assert lines[..|lines|] == lines;
      v := CartView(lines, total, itemCount);
    }

    /**
     * Add `quantity` (1 when the request names none) of a product: merge into
     * the product's line, or append a new line carrying the product's current
     * price, name and image.
     */
    method Add(catalog: Catalog, productId: ProductId, quantity: Option<int>) returns (r: Result<CartView, CartError>)
      requires Valid()
      modifies this
      ensures Valid()
      ensures r.Err? ==> lines == old(lines)
      ensures r == Err(ProductNotFound) <==> productId !in catalog.products
      ensures productId in catalog.products && catalog.products[productId].stock < quantity.GetOr(1) ==>
                r == Err(InsufficientStock)
      ensures productId in catalog.products && catalog.products[productId].stock >= quantity.GetOr(1) ==>
                var product := catalog.products[productId];
                match FindLine(old(lines), productId)
                case Some(i) =>
                  var merged := old(lines)[i].quantity + quantity.GetOr(1);
                  if merged > product.stock then r == Err(ExceedsStock)
                  else r.Ok? && lines == old(lines)[i := old(lines)[i].(quantity := merged)]
                case None =>
                  r.Ok? && lines == old(lines) + [CartLine(productId, quantity.GetOr(1), product.price, product.name, product.image)]
      ensures forall k :: 0 <= k < |old(lines)| ==>
                lines[k].product == old(lines)[k].product && lines[k].price == old(lines)[k].price
      ensures r.Ok? ==> r.value == CartView(lines, Total(lines), ItemCount(lines))
    {
      var q := quantity.GetOr(1);
      if productId !in catalog.products {
        return Err(ProductNotFound);
      }
      var product := catalog.products[productId];
      if product.stock < q {
        return Err(InsufficientStock);
      }
      var existing := FindLine(lines, productId);
      match existing {
        case Some(i) =>
          var newQuantity := lines[i].quantity + q;
          if newQuantity > product.stock {
            return Err(ExceedsStock);
          }
          lines := lines[i := lines[i].(quantity := newQuantity)];
        case None =>
          lines := lines + [CartLine(productId, q, product.price, product.name, product.image)];
      }
      var view := View();
      r := Ok(view);
    }

    /**
     * Set the quantity of the product's line: a quantity of zero or less
     * removes the line, a larger one overwrites the line's quantity.
     */
    method SetQuantity(catalog: Catalog, productId: ProductId, quantity: int) returns (r: Result<CartView, CartError>)
      requires Valid()
      modifies this
      ensures Valid()
      ensures r.Err? ==> lines == old(lines)
      ensures r == Err(NotInCart) <==> FindLine(old(lines), productId).None?
      ensures FindLine(old(lines), productId).Some? ==>
                var i := FindLine(old(lines), productId).value;
                if quantity <= 0 then
                  r.Ok? && lines == Without(old(lines), productId) && lines == old(lines)[..i] + old(lines)[i + 1..]
                  && ItemCount(lines) == ItemCount(old(lines)) - old(lines)[i].quantity
                else if productId !in catalog.products then r == Err(Internal)
                else if quantity > catalog.products[productId].stock then r == Err(ExceedsStock)
                else r.Ok? && lines == old(lines)[i := old(lines)[i].(quantity := quantity)]
      ensures r.Ok? ==> r.value == CartView(lines, Total(lines), ItemCount(lines))
    {
      var found := FindLine(lines, productId);
      if found.None? {
        return Err(NotInCart);
      }
      var i := found.value;
      if quantity <= 0 {
        WithoutUnique(lines, productId, i);
        WithoutKeepsUnique(lines, productId);
        TotalsWithout(lines, productId, i);
        lines := Without(lines, productId);
      } else {
        if productId !in catalog.products {
          return Err(Internal);
        }
        if quantity > catalog.products[productId].stock {
          return Err(ExceedsStock);
        }
        lines := lines[i := lines[i].(quantity := quantity)];
      }
      var view := View();
      r := Ok(view);
    }

    /** Drop every line for the product; the other lines stay, in order. */
    method Remove(productId: ProductId) returns (v: CartView)
      requires Valid()
      modifies this
      ensures Valid()
      ensures lines == Without(old(lines), productId)
      ensures FindLine(old(lines), productId).None? ==> lines == old(lines)
      ensures FindLine(old(lines), productId).Some? ==>
                var i := FindLine(old(lines), productId).value;
                lines == old(lines)[..i] + old(lines)[i + 1..]
      ensures v == CartView(lines, Total(lines), ItemCount(lines))
    {
      var found := FindLine(lines, productId);
      if found.Some? {
        WithoutUnique(lines, productId, found.value);
      }
      WithoutKeepsUnique(lines, productId);
      lines := Without(lines, productId);
      v := View();
    }

    /** Empty the cart; the reply shows no items, a total of 0 and an item count of 0. */
    method Clear() returns (v: CartView)
      requires Valid()
      modifies this
      ensures Valid()
      ensures lines == []
      ensures v == CartView([], 0, 0) && v.total == Total(lines) && v.itemCount == ItemCount(lines)
    {
      lines := [];
      v := CartView([], 0, 0);
    }
  }
}
