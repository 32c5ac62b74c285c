/**
 * The cart drawer (components/CartDrawer.tsx): a pure view of the cart
 * lines that derives the subtotal and offers a fixed set of controls, each
 * of which raises one event back to the storefront.
 */
module CartDrawer {
  import opened Types
  import Text
  import Sequences

  /** `item.price * item.quantity`, in cents. */
  function LineTotal(item: CartItem): int
  {
    item.product.price * item.quantity
  }

  /**
   * `items.reduce((sum, item) => sum + item.price * item.quantity, 0)`: a
   * fold from the left, starting at 0.
   */
  function Subtotal(items: seq<CartItem>): int
  {
    if items == [] then 0 else Subtotal(items[..|items| - 1]) + LineTotal(items[|items| - 1])
  }

  /** The same sum taken from the right, as a reference for the fold. */
  function SumOfLineTotals(items: seq<CartItem>): int
  {
    if items == [] then 0 else LineTotal(items[0]) + SumOfLineTotals(items[1..])
  }

  /** The subtotal of a concatenation is the sum of the subtotals. */
  lemma {:induction false} SubtotalConcat(a: seq<CartItem>, b: seq<CartItem>)
    ensures Subtotal(a + b) == Subtotal(a) + Subtotal(b)
    decreases |b|
  {
    if b != [] {
      assert (a + b)[..|a + b| - 1] == a + b[..|b| - 1];
      assert (a + b)[|a + b| - 1] == b[|b| - 1];
      SubtotalConcat(a, b[..|b| - 1]);
    } else {
      assert a + b == a;
    }
  }

  /** Appending a line adds exactly that line's total. */
  lemma SubtotalAppend(items: seq<CartItem>, line: CartItem)
    ensures Subtotal(items + [line]) == Subtotal(items) + LineTotal(line)
  {
    assert (items + [line])[..|items|] == items;
  }

  /** The fold computes the plain sum of line totals; in particular the empty cart's subtotal is 0. */
  lemma {:induction false} SubtotalIsSum(items: seq<CartItem>)
    ensures Subtotal(items) == SumOfLineTotals(items)
    ensures items == [] ==> Subtotal(items) == 0
    decreases |items|
  {
    if items != [] {
      assert items == [items[0]] + items[1..];
      SubtotalConcat([items[0]], items[1..]);
      assert [items[0]][..0] == [];
      SubtotalIsSum(items[1..]);
    }
  }

  /** With no negative quantity the subtotal is never negative. */
  lemma {:induction false} SubtotalNonNegative(items: seq<CartItem>)
    requires forall k :: 0 <= k < |items| ==> items[k].quantity >= 0
    ensures Subtotal(items) >= 0
    decreases |items|
  {
    if items != [] {
      SubtotalNonNegative(items[..|items| - 1]);
    }
  }

  /** The subtotal of a cart around one line. */
  lemma SubtotalAround(front: seq<CartItem>, line: CartItem, back: seq<CartItem>)
    ensures Subtotal(front + ([line] + back)) == Subtotal(front) + LineTotal(line) + Subtotal(back)
  {
    assert front + ([line] + back) == (front + [line]) + back;
    SubtotalConcat(front + [line], back);
    SubtotalConcat(front, [line]);
    assert [line][..0] == [];
  }

  /** Deleting the line at index k takes its total off the subtotal. */
  lemma SubtotalDelete(items: seq<CartItem>, k: int)
    requires 0 <= k < |items|
    ensures Subtotal(items[..k] + items[k + 1..]) == Subtotal(items) - LineTotal(items[k])
  {
    Sequences.SplitAround(items, k);
    SubtotalAround(items[..k], items[k], items[k + 1..]);
    SubtotalConcat(items[..k], items[k + 1..]);
  }

  /** Replacing one line changes the subtotal by the difference of the two line totals. */
  lemma SubtotalReplace(items: seq<CartItem>, k: int, line: CartItem)
    requires 0 <= k < |items|
    ensures Subtotal(items[k := line]) == Subtotal(items) - LineTotal(items[k]) + LineTotal(line)
  {
    var after := items[k := line];
    assert items == items[..k] + [items[k]] + items[k + 1..];
    assert after == items[..k] + [line] + items[k + 1..];
    SubtotalConcat(items[..k] + [items[k]], items[k + 1..]);
    SubtotalConcat(items[..k], [items[k]]);
    SubtotalConcat(items[..k] + [line], items[k + 1..]);
    SubtotalConcat(items[..k], [line]);
    assert [items[k]][..0] == [] && [line][..0] == [];
  }

  /** Setting a line's quantity to q changes its total by the unit price times the change. */
  lemma LineTotalChange(line: CartItem, q: int)
    ensures LineTotal(line.(quantity := q)) - LineTotal(line) == line.product.price * (q - line.quantity)
  {
    assert line.product.price * q - line.product.price * line.quantity == line.product.price * (q - line.quantity);
  }

  /** Setting the quantity of the line at index k to q changes the subtotal by the unit price times the change. */
  lemma SubtotalAfterQuantityChange(items: seq<CartItem>, k: int, q: int)
    requires 0 <= k < |items|
    ensures Subtotal(items[k := items[k].(quantity := q)]) == Subtotal(items) + items[k].product.price * (q - items[k].quantity)
  {
    SubtotalReplace(items, k, items[k].(quantity := q));
    LineTotalChange(items[k], q);
  }

  /** One more unit on a line adds its unit price; one fewer subtracts it. */
  lemma SubtotalUnitChange(items: seq<CartItem>, k: int)
    requires 0 <= k < |items|
    ensures Subtotal(items[k := items[k].(quantity := items[k].quantity + 1)]) == Subtotal(items) + items[k].product.price
    ensures Subtotal(items[k := items[k].(quantity := items[k].quantity - 1)]) == Subtotal(items) - items[k].product.price
  {
    SubtotalAfterQuantityChange(items, k, items[k].quantity + 1);
    SubtotalAfterQuantityChange(items, k, items[k].quantity - 1);
  }

  /** `${item.price.toFixed(2)}` shown on each line. */
  function PriceLabel(item: CartItem): string
  {
    "$" + Text.ToFixed2(item.product.price)
  }

  /** `${subtotal.toFixed(2)}` shown above the checkout button. */
  function SubtotalLabel(items: seq<CartItem>): string
  {
    "$" + Text.ToFixed2(Subtotal(items))
  }

  /** The price label is a dollar sign and a numeral with two fraction digits that reads back as the unit price. */
  lemma PriceLabelValue(item: CartItem)
    ensures PriceLabel(item)[0] == '$'
    ensures Text.ParseCents(PriceLabel(item)[1..]) == item.product.price
    ensures PriceLabel(item)[|PriceLabel(item)| - 3] == '.'
  {
    Text.ToFixed2Value(item.product.price);
    assert PriceLabel(item)[1..] == Text.ToFixed2(item.product.price);
  }

  /** With no negative quantity, the subtotal label reads back as the subtotal. */
  lemma SubtotalLabelValue(items: seq<CartItem>)
    requires forall k :: 0 <= k < |items| ==> items[k].quantity >= 0
    ensures SubtotalLabel(items)[0] == '$'
    ensures Text.ParseCents(SubtotalLabel(items)[1..]) == Subtotal(items)
    ensures SubtotalLabel(items)[|SubtotalLabel(items)| - 3] == '.'
  {
    SubtotalNonNegative(items);
    Text.ToFixed2Value(Subtotal(items));
    assert SubtotalLabel(items)[1..] == Text.ToFixed2(Subtotal(items));
  }

  /** What a control of the drawer asks the storefront to do. */
  datatype DrawerEvent =
    | Close                                   // onClose
    | ChangeQuantity(id: string, delta: int)  // onUpdateQuantity(id, delta)
    | Remove(id: string)                      // onRemove(id)
    | Checkout                                // onCheckout

  /** The decrement, increment and remove controls of one line. */
  function LineControls(item: CartItem): seq<DrawerEvent>
  {
    [ChangeQuantity(item.product.id, -1), ChangeQuantity(item.product.id, 1), Remove(item.product.id)]
  }

  function AllLineControls(items: seq<CartItem>): seq<DrawerEvent>
  {
    if items == [] then [] else LineControls(items[0]) + AllLineControls(items[1..])
  }

  /**
   * The controls the drawer renders, in document order: the backdrop and
   * the header close button; then either the "Start browsing collections"
   * button of the empty cart, or the controls of every line followed by the
   * checkout button.
   */
  function Controls(items: seq<CartItem>): seq<DrawerEvent>
  {
    [Close, Close] + (if items == [] then [Close] else AllLineControls(items) + [Checkout])
  }

  /**
   * The events the drawer can raise, stated independently of the layout:
   * closing always; a change of exactly -1 or +1 and a removal for a line
   * that is shown; checkout exactly when the cart is not empty.
   */
  predicate Offered(items: seq<CartItem>, e: DrawerEvent)
  {
    match e
    case Close => true
    case ChangeQuantity(id, delta) => (delta == -1 || delta == 1) && HasLine(items, id)
    case Remove(id) => HasLine(items, id)
    case Checkout => items != []
  }

  lemma {:induction false} AllLineControlsOffered(items: seq<CartItem>, e: DrawerEvent)
    ensures e in AllLineControls(items) <==> (e.ChangeQuantity? || e.Remove?) && Offered(items, e)
    decreases |items|
  {
    if items != [] {
      AllLineControlsOffered(items[1..], e);
      if e.ChangeQuantity? || e.Remove? {
        HasLineTail(items, e.id);
      }
    }
  }

  /** A control for an event is rendered exactly when the event is offered. */
  lemma ControlsOffered(items: seq<CartItem>, e: DrawerEvent)
    ensures e in Controls(items) <==> Offered(items, e)
  {
    AllLineControlsOffered(items, e);
  }

  /** The checkout button is shown exactly when the cart has a line (`items.length > 0`). */
  lemma CheckoutShownIffNonEmpty(items: seq<CartItem>)
    ensures Checkout in Controls(items) <==> |items| > 0
  {
    ControlsOffered(items, Checkout);
  }
}
