/** The records the storefront passes around (types.ts). */
module Types {

  /** The usual optional value; `None` stands for JavaScript's `undefined`. */
  datatype Option<+T> = None | Some(value: T)

  /**
   * A catalog entry. The price is held in integer cents (349.99 is 34999).
   * The informational rating, review count and stock count are not modelled.
   */
  datatype Product = Product(
    id: string,
    name: string,
    price: nat,
    category: string,
    image: string,
    description: string)

  /**
   * A cart line: `{ ...product, quantity }`, i.e. a copy of the product's
   * fields together with a quantity.
   */
  datatype CartItem = CartItem(product: Product, quantity: int)

  /** The cart has a line for the product with this id. */
  predicate HasLine(items: seq<CartItem>, id: string)
  {
    exists k | 0 <= k < |items| :: items[k].product.id == id
  }

  /** Whether a cart has a line, decided at its first line. */
  lemma HasLineTail(items: seq<CartItem>, id: string)
    requires items != []
    ensures HasLine(items, id) <==> items[0].product.id == id || HasLine(items[1..], id)
  {
    if HasLine(items, id) && items[0].product.id != id {
      var k :| 0 <= k < |items| && items[k].product.id == id;
      assert items[1..][k - 1].product.id == id;
    }
    if HasLine(items[1..], id) {
      var k :| 0 <= k < |items[1..]| && items[1..][k].product.id == id;
      assert items[k + 1].product.id == id;
    }
  }
}
