/**
 * The cart reducers of App.tsx: the updates passed to `setCartItems`, each
 * mapping the previous list of lines to the next one, and the badge count.
 * A cart line is identified by its product id.
 */
module Cart {
  import opened Types
  import opened Sequences
  import CartDrawer

  /** No two lines share a product id. */
  predicate DistinctIds(items: seq<CartItem>)
  {
    forall i, j :: 0 <= i < j < |items| ==> items[i].product.id != items[j].product.id
  }

  predicate PositiveQuantities(items: seq<CartItem>)
  {
    forall i :: 0 <= i < |items| ==> items[i].quantity >= 1
  }

  /** What every cart the storefront can reach satisfies. */
  predicate ValidCart(items: seq<CartItem>)
  {
    DistinctIds(items) && PositiveQuantities(items)
  }

  /** `Math.max`: the larger of the two. */
  function Max(a: int, b: int): (r: int)
    ensures r >= a && r >= b
    ensures r == a || r == b
  {
    if a >= b then a else b
  }

  /** `prev.find(i => i.id === id)`: a line with that id, when there is one. */
  function Find(items: seq<CartItem>, id: string): (r: Option<CartItem>)
    ensures r.Some? <==> HasLine(items, id)
    ensures r.Some? ==> r.value in items && r.value.product.id == id
    decreases |items|
  {
    if items == [] then None
    else
      HasLineTail(items, id);
      if items[0].product.id == id then Some(items[0]) else Find(items[1..], id)
  }

  /** `prev.map(i => i.id === id ? { ...i, quantity: i.quantity + 1 } : i)`. */
  function IncrementLines(items: seq<CartItem>, id: string): seq<CartItem>
  {
    seq(|items|, k requires 0 <= k < |items| =>
      if items[k].product.id == id then items[k].(quantity := items[k].quantity + 1) else items[k])
  }

  /**
   * `addToCart`'s update: a product already in the cart gets one more unit
   * on its line; otherwise a line with quantity 1 is appended. Either way
   * the cart then has a line for the product.
   */
  function AddToCart(items: seq<CartItem>, product: Product): (r: seq<CartItem>)
    ensures HasLine(r, product.id)
  {
    if Find(items, product.id).Some? then
      var k :| 0 <= k < |items| && items[k].product.id == product.id;
      assert IncrementLines(items, product.id)[k].product.id == product.id;
      IncrementLines(items, product.id)
    else
      assert (items + [CartItem(product, 1)])[|items|].product.id == product.id;
      items + [CartItem(product, 1)]
  }

  /** `removeFromCart`'s update, `prev.filter(i => i.id !== id)`. */
  function RemoveFromCart(items: seq<CartItem>, id: string): (r: seq<CartItem>)
    ensures forall x :: x in r <==> x in items && x.product.id != id
    ensures IsSubsequence(r, items)
    ensures !HasLine(r, id)
  {
    var keep := (i: CartItem) => i.product.id != id;
    FilterMembers(keep, items);
    FilterIsSubsequence(keep, items);
    Filter(keep, items)
  }

  /**
   * `updateQuantity`'s update: every line with the id gets quantity
   * `Math.max(1, quantity + delta)`; nothing else changes.
   */
  function UpdateQuantity(items: seq<CartItem>, id: string, delta: int): (r: seq<CartItem>)
    ensures |r| == |items|
    ensures forall k :: 0 <= k < |items| ==> r[k].product == items[k].product
    ensures forall k :: 0 <= k < |items| && items[k].product.id == id ==> r[k].quantity >= 1
    ensures forall k :: 0 <= k < |items| && items[k].product.id != id ==> r[k] == items[k]
  {
    seq(|items|, k requires 0 <= k < |items| =>
      if items[k].product.id == id then items[k].(quantity := Max(1, items[k].quantity + delta)) else items[k])
  }

  /** The badge count, `cartItems.reduce((s, i) => s + i.quantity, 0)`: a fold from the left. */
  function CartCount(items: seq<CartItem>): int
  {
    if items == [] then 0 else CartCount(items[..|items| - 1]) + items[|items| - 1].quantity
  }

  lemma {:induction false} CartCountConcat(a: seq<CartItem>, b: seq<CartItem>)
    ensures CartCount(a + b) == CartCount(a) + CartCount(b)
    decreases |b|
  {
    if b != [] {
      assert (a + b)[..|a + b| - 1] == a + b[..|b| - 1];
      assert (a + b)[|a + b| - 1] == b[|b| - 1];
      CartCountConcat(a, b[..|b| - 1]);
    } else {
      assert a + b == a;
    }
  }

  /** Replacing one line changes the count by the difference of the two quantities. */
  lemma CartCountReplace(items: seq<CartItem>, k: int, line: CartItem)
    requires 0 <= k < |items|
    ensures CartCount(items[k := line]) == CartCount(items) - items[k].quantity + line.quantity
  {
    assert items == items[..k] + [items[k]] + items[k + 1..];
    assert items[k := line] == items[..k] + [line] + items[k + 1..];
    CartCountConcat(items[..k] + [items[k]], items[k + 1..]);
    CartCountConcat(items[..k], [items[k]]);
    CartCountConcat(items[..k] + [line], items[k + 1..]);
    CartCountConcat(items[..k], [line]);
    assert [items[k]][..0] == [] && [line][..0] == [];
  }

  /** In a valid cart the badge shows at least one unit per line. */
  lemma {:induction false} CartCountAtLeastLines(items: seq<CartItem>)
    requires PositiveQuantities(items)
    ensures CartCount(items) >= |items|
    decreases |items|
  {
    if items != [] {
      CartCountAtLeastLines(items[..|items| - 1]);
    }
  }

  /** The lines with a given id: at most one in a cart with distinct ids. */
  lemma DistinctLine(items: seq<CartItem>, k: int, j: int)
    requires DistinctIds(items)
    requires 0 <= k < |items| && 0 <= j < |items|
    requires items[k].product.id == items[j].product.id
    ensures k == j
  {
  }

  // ---------------------------------------------------------------------
  // addToCart

  /** Adding a product whose line is at index k gives that line one more unit and changes nothing else. */
  lemma AddToCartExisting(items: seq<CartItem>, product: Product, k: int)
    requires DistinctIds(items)
    requires 0 <= k < |items| && items[k].product.id == product.id
    ensures AddToCart(items, product) == items[k := items[k].(quantity := items[k].quantity + 1)]
  {
    assert HasLine(items, product.id);
    var r := AddToCart(items, product);
    var expected := items[k := items[k].(quantity := items[k].quantity + 1)];
    forall j | 0 <= j < |items| ensures r[j] == expected[j] {
      if j != k {
        assert items[j].product.id != product.id;
      }
    }
  }

  /** Adding a product that has no line appends a line for it with quantity 1. */
  lemma AddToCartNew(items: seq<CartItem>, product: Product)
    requires !HasLine(items, product.id)
    ensures AddToCart(items, product) == items + [CartItem(product, 1)]
  {
  }

  lemma AddToCartValid(items: seq<CartItem>, product: Product)
    requires ValidCart(items)
    ensures ValidCart(AddToCart(items, product))
  {
    if HasLine(items, product.id) {
      var k :| 0 <= k < |items| && items[k].product.id == product.id;
      AddToCartExisting(items, product, k);
    } else {
      AddToCartNew(items, product);
      var r := items + [CartItem(product, 1)];
      forall i, j | 0 <= i < j < |r| ensures r[i].product.id != r[j].product.id {
        if j == |items| {
          assert r[i] == items[i];
        }
      }
    }
  }

  /** Each add raises the badge count by exactly one. */
  lemma AddToCartCount(items: seq<CartItem>, product: Product)
    requires DistinctIds(items)
    ensures CartCount(AddToCart(items, product)) == CartCount(items) + 1
  {
    if HasLine(items, product.id) {
      var k :| 0 <= k < |items| && items[k].product.id == product.id;
      AddToCartExisting(items, product, k);
      CartCountReplace(items, k, items[k].(quantity := items[k].quantity + 1));
    } else {
      AddToCartNew(items, product);
      CartCountConcat(items, [CartItem(product, 1)]);
      assert [CartItem(product, 1)][..0] == [];
    }
  }

  /**
   * Each add raises the subtotal by one unit price: that of the line
   * already in the cart, or of the product when it gets a new line.
   */
  lemma AddToCartSubtotal(items: seq<CartItem>, product: Product)
    requires DistinctIds(items)
    ensures var unitPrice := if Find(items, product.id).Some? then Find(items, product.id).value.product.price else product.price;
      CartDrawer.Subtotal(AddToCart(items, product)) == CartDrawer.Subtotal(items) + unitPrice
  {
    if HasLine(items, product.id) {
      var k :| 0 <= k < |items| && items[k].product.id == product.id;
      var line := Find(items, product.id).value;
      var j :| 0 <= j < |items| && items[j] == line;
      DistinctLine(items, k, j);
      AddToCartExisting(items, product, k);
      CartDrawer.SubtotalUnitChange(items, k);
    } else {
      AddToCartNew(items, product);
      CartDrawer.SubtotalConcat(items, [CartItem(product, 1)]);
      assert [CartItem(product, 1)][..0] == [];
    }
  }

  // ---------------------------------------------------------------------
  // removeFromCart

  /** Removing the id of the line at index k takes out exactly that line, keeping the order of the rest. */
  lemma RemoveExisting(items: seq<CartItem>, id: string, k: int)
    requires DistinctIds(items)
    requires 0 <= k < |items| && items[k].product.id == id
    ensures RemoveFromCart(items, id) == items[..k] + items[k + 1..]
  {
    var keep := (i: CartItem) => i.product.id != id;
    forall j | 0 <= j < |items| && j != k ensures keep(items[j]) {
      assert items[j].product.id != id;
    }
    FilterDropsOne(keep, items, k);
  }

  /** Removing an id that has no line leaves the cart unchanged. */
  lemma RemoveAbsent(items: seq<CartItem>, id: string)
    requires !HasLine(items, id)
    ensures RemoveFromCart(items, id) == items
  {
    FilterKeepsAll((i: CartItem) => i.product.id != id, items);
  }

  /** Deleting one line keeps a cart valid. */
  lemma DeleteLineValid(items: seq<CartItem>, k: int)
    requires ValidCart(items) && 0 <= k < |items|
    ensures ValidCart(items[..k] + items[k + 1..])
  {
    var r := items[..k] + items[k + 1..];
    forall j | 0 <= j < |r| ensures r[j] == items[if j < k then j else j + 1] {
      if j < k {
        assert r[j] == items[..k][j];
      } else {
        assert r[j] == items[k + 1..][j - k];
      }
    }
    forall i, j | 0 <= i < j < |r| ensures r[i].product.id != r[j].product.id {
      assert r[i] == items[if i < k then i else i + 1];
      assert r[j] == items[if j < k then j else j + 1];
    }
  }

  lemma RemoveValid(items: seq<CartItem>, id: string)
    requires ValidCart(items)
    ensures ValidCart(RemoveFromCart(items, id))
  {
    if HasLine(items, id) {
      var k :| 0 <= k < |items| && items[k].product.id == id;
      RemoveExisting(items, id, k);
      DeleteLineValid(items, k);
    } else {
      RemoveAbsent(items, id);
    }
  }

  /** Removing a line lowers the subtotal by that line's total. */
  lemma RemoveSubtotal(items: seq<CartItem>, id: string, k: int)
    requires DistinctIds(items)
    requires 0 <= k < |items| && items[k].product.id == id
    ensures CartDrawer.Subtotal(RemoveFromCart(items, id)) == CartDrawer.Subtotal(items) - CartDrawer.LineTotal(items[k])
  {
    RemoveExisting(items, id, k);
    CartDrawer.SubtotalDelete(items, k);
  }

  // ---------------------------------------------------------------------
  // updateQuantity

  /** Changing the quantity of the line at index k sets it to max(1, quantity + delta) and changes nothing else. */
  lemma UpdateAt(items: seq<CartItem>, id: string, delta: int, k: int)
    requires DistinctIds(items)
    requires 0 <= k < |items| && items[k].product.id == id
    ensures UpdateQuantity(items, id, delta) == items[k := items[k].(quantity := Max(1, items[k].quantity + delta))]
  {
    var r := UpdateQuantity(items, id, delta);
    var expected := items[k := items[k].(quantity := Max(1, items[k].quantity + delta))];
    forall j | 0 <= j < |items| ensures r[j] == expected[j] {
      if j != k {
        assert items[j].product.id != id;
      }
    }
  }

  /** Changing the quantity for an id that has no line leaves the cart unchanged. */
  lemma UpdateAbsent(items: seq<CartItem>, id: string, delta: int)
    requires !HasLine(items, id)
    ensures UpdateQuantity(items, id, delta) == items
  {
    var r := UpdateQuantity(items, id, delta);
    forall j | 0 <= j < |items| ensures r[j] == items[j] {
      assert items[j].product.id != id;
    }
  }

  lemma UpdateValid(items: seq<CartItem>, id: string, delta: int)
    requires ValidCart(items)
    ensures ValidCart(UpdateQuantity(items, id, delta))
  {
  }

  /** The drawer's "+" on a line of a valid cart adds one unit to that line. */
  lemma IncrementAt(items: seq<CartItem>, id: string, k: int)
    requires ValidCart(items)
    requires 0 <= k < |items| && items[k].product.id == id
    ensures UpdateQuantity(items, id, 1) == items[k := items[k].(quantity := items[k].quantity + 1)]
  {
    assert items[k].quantity >= 1;
    UpdateAt(items, id, 1, k);
  }

  /** The drawer's "+" on a line of a valid cart raises the subtotal by that line's unit price. */
  lemma IncrementSubtotal(items: seq<CartItem>, id: string, k: int)
    requires ValidCart(items)
    requires 0 <= k < |items| && items[k].product.id == id
    ensures CartDrawer.Subtotal(UpdateQuantity(items, id, 1)) == CartDrawer.Subtotal(items) + items[k].product.price
  {
    IncrementAt(items, id, k);
    CartDrawer.SubtotalUnitChange(items, k);
  }

  /**
   * The drawer's "-" on a line of a valid cart lowers the subtotal by that
   * line's unit price, except on a line with quantity 1, which stays as it is.
   */
  lemma DecrementSubtotal(items: seq<CartItem>, id: string, k: int)
    requires ValidCart(items)
    requires 0 <= k < |items| && items[k].product.id == id
    ensures items[k].quantity > 1 ==>
      CartDrawer.Subtotal(UpdateQuantity(items, id, -1)) == CartDrawer.Subtotal(items) - items[k].product.price
    ensures items[k].quantity == 1 ==> UpdateQuantity(items, id, -1) == items
  {
    UpdateAt(items, id, -1, k);
    if items[k].quantity > 1 {
      CartDrawer.SubtotalUnitChange(items, k);
    } else {
      assert items[k := items[k].(quantity := 1)] == items;
    }
  }

  // ---------------------------------------------------------------------
  // the drawer's events

  /** The cart a drawer event leads to; checkout empties it only later, when its timer fires. */
  function CartAfter(items: seq<CartItem>, e: CartDrawer.DrawerEvent): seq<CartItem>
  {
    match e
    case Close => items
    case ChangeQuantity(id, delta) => UpdateQuantity(items, id, delta)
    case Remove(id) => RemoveFromCart(items, id)
    case Checkout => items
  }

  /** Every drawer event keeps a valid cart valid. */
  lemma CartAfterValid(items: seq<CartItem>, e: CartDrawer.DrawerEvent)
    requires ValidCart(items)
    ensures ValidCart(CartAfter(items, e))
  {
    match e
    case ChangeQuantity(id, delta) => UpdateValid(items, id, delta);
    case Remove(id) => RemoveValid(items, id);
    case _ =>
  }

  /**
   * A rendered -/+ control moves one line's quantity by exactly one (never
   * below 1) and changes nothing else.
   */
  lemma QuantityControlEffect(items: seq<CartItem>, id: string, delta: int)
    requires ValidCart(items)
    requires CartDrawer.ChangeQuantity(id, delta) in CartDrawer.Controls(items)
    ensures delta == -1 || delta == 1
    ensures exists k | 0 <= k < |items| && items[k].product.id == id ::
      UpdateQuantity(items, id, delta) == items[k := items[k].(quantity := Max(1, items[k].quantity + delta))]
  {
    CartDrawer.ControlsOffered(items, CartDrawer.ChangeQuantity(id, delta));
    assert (delta == -1 || delta == 1) && HasLine(items, id);
    var k :| 0 <= k < |items| && items[k].product.id == id;
    UpdateAt(items, id, delta, k);
  }

  /** A rendered remove control takes out exactly its line and keeps the order of the rest. */
  lemma RemoveControlEffect(items: seq<CartItem>, id: string)
    requires ValidCart(items)
    requires CartDrawer.Remove(id) in CartDrawer.Controls(items)
    ensures exists k | 0 <= k < |items| && items[k].product.id == id ::
      RemoveFromCart(items, id) == items[..k] + items[k + 1..]
  {
    CartDrawer.ControlsOffered(items, CartDrawer.Remove(id));
    var k :| 0 <= k < |items| && items[k].product.id == id;
    RemoveExisting(items, id, k);
  }
}
