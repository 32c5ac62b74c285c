/**
 * The storefront component (App.tsx) as an object: its React state
 * variables become fields, and each handler becomes a method that applies
 * the corresponding update from `Cart` or sets a flag. The checkout timer is
 * modelled by a count of scheduled callbacks and a separate method for the
 * moment one of them fires.
 */
module App {
  import opened Types
  import Cart
  import Catalog
  import CartDrawer

  /** `checkoutStep`: 'browsing' | 'processing' | 'success'. */
  datatype CheckoutStep = Browsing | Processing | Success

  class Storefront {
    var activeCategory: string
    var searchQuery: string
    var cartItems: seq<CartItem>
    var isCartOpen: bool
    var checkoutStep: CheckoutStep
    /** Checkout callbacks scheduled with `setTimeout` that have not run yet. */
    var pendingCheckoutTimers: nat

    /** The cart is always valid, and the processing overlay is always waiting on a timer. */
    ghost predicate Valid()
      reads this
    {
      && Cart.ValidCart(cartItems)
      && (checkoutStep == Processing ==> pendingCheckoutTimers > 0)
    }

    /** The initial state of every `useState`. */
    constructor()
      ensures Valid()
      ensures activeCategory == "All" && searchQuery == ""
      ensures cartItems == [] && !isCartOpen && checkoutStep == Browsing
      ensures pendingCheckoutTimers == 0
    {
      activeCategory := "All";
      searchQuery := "";
      cartItems := [];
      isCartOpen := false;
      checkoutStep := Browsing;
      pendingCheckoutTimers := 0;
    }

    /** `filteredProducts`, recomputed from the current filter state. */
    function FilteredProducts(): seq<Product>
      reads this
    {
      Catalog.FilteredProducts(activeCategory, searchQuery)
    }

    /** The `cartCount` passed to the navigation bar. */
    function CartCount(): int
      reads this
    {
      Cart.CartCount(cartItems)
    }

    /** A category button, `setActiveCategory(cat)`. */
    method SetActiveCategory(category: string)
      modifies this
      ensures activeCategory == category
      ensures unchanged(this`searchQuery, this`cartItems, this`isCartOpen, this`checkoutStep, this`pendingCheckoutTimers)
    {
      activeCategory := category;
    }

    /** The search box, `onSearchChange={setSearchQuery}`. */
    method SetSearchQuery(query: string)
      modifies this
      ensures searchQuery == query
      ensures unchanged(this`activeCategory, this`cartItems, this`isCartOpen, this`checkoutStep, this`pendingCheckoutTimers)
    {
      searchQuery := query;
    }

    /** `addToCart(product)`: the cart update, then the drawer opens. */
    method AddToCart(product: Product)
      requires Valid()
      modifies this
      ensures Valid()
      ensures cartItems == Cart.AddToCart(old(cartItems), product)
      ensures isCartOpen
      ensures CartCount() == old(CartCount()) + 1
      ensures unchanged(this`activeCategory, this`searchQuery, this`checkoutStep, this`pendingCheckoutTimers)
    {
      Cart.AddToCartValid(cartItems, product);
      Cart.AddToCartCount(cartItems, product);
      cartItems := Cart.AddToCart(cartItems, product);
      isCartOpen := true;
    }

    /** `removeFromCart(id)`. */
    method RemoveFromCart(id: string)
      requires Valid()
      modifies this
      ensures Valid()
      ensures cartItems == Cart.RemoveFromCart(old(cartItems), id)
      ensures unchanged(this`activeCategory, this`searchQuery, this`isCartOpen, this`checkoutStep, this`pendingCheckoutTimers)
    {
      Cart.RemoveValid(cartItems, id);
      cartItems := Cart.RemoveFromCart(cartItems, id);
    }

    /** `updateQuantity(id, delta)`. */
    method UpdateQuantity(id: string, delta: int)
      requires Valid()
      modifies this
      ensures Valid()
      ensures cartItems == Cart.UpdateQuantity(old(cartItems), id, delta)
      ensures unchanged(this`activeCategory, this`searchQuery, this`isCartOpen, this`checkoutStep, this`pendingCheckoutTimers)
    {
      Cart.UpdateValid(cartItems, id, delta);
      cartItems := Cart.UpdateQuantity(cartItems, id, delta);
    }

    /**
     * `handleCheckout()`: the processing overlay appears, the drawer closes
     * and a timer is scheduled; the cart itself is not touched yet.
     */
    method HandleCheckout()
      requires Valid()
      modifies this
      ensures Valid()
      ensures checkoutStep == Processing && !isCartOpen
      ensures pendingCheckoutTimers == old(pendingCheckoutTimers) + 1
      ensures unchanged(this`activeCategory, this`searchQuery, this`cartItems)
    {
      checkoutStep := Processing;
      isCartOpen := false;
      pendingCheckoutTimers := pendingCheckoutTimers + 1;
    }

    /** The `setTimeout` callback of a checkout, 2500 ms later: success, and the cart is emptied. */
    method CheckoutTimerFires()
      requires Valid()
      requires pendingCheckoutTimers > 0
      modifies this
      ensures Valid()
      ensures checkoutStep == Success && cartItems == []
      ensures pendingCheckoutTimers == old(pendingCheckoutTimers) - 1
      ensures unchanged(this`activeCategory, this`searchQuery, this`isCartOpen)
    {
      checkoutStep := Success;
      cartItems := [];
      pendingCheckoutTimers := pendingCheckoutTimers - 1;
    }

    /** The "Continue Exploring" button of the success overlay. */
    method ContinueExploring()
      requires Valid()
      modifies this
      ensures Valid()
      ensures checkoutStep == Browsing
      ensures unchanged(this`activeCategory, this`searchQuery, this`cartItems, this`isCartOpen, this`pendingCheckoutTimers)
    {
      checkoutStep := Browsing;
    }

    /** The navigation bar's cart button, `setIsCartOpen(true)`. */
    method OpenCart()
      modifies this
      ensures isCartOpen
      ensures unchanged(this`activeCategory, this`searchQuery, this`cartItems, this`checkoutStep, this`pendingCheckoutTimers)
    {
      isCartOpen := true;
    }

    /** The drawer's `onClose`, `setIsCartOpen(false)`. */
    method CloseCart()
      modifies this
      ensures !isCartOpen
      ensures unchanged(this`activeCategory, this`searchQuery, this`cartItems, this`checkoutStep, this`pendingCheckoutTimers)
    {
      isCartOpen := false;
    }

    /** The handlers wired into the drawer: each event goes to the matching handler above. */
    method OnDrawerEvent(e: CartDrawer.DrawerEvent)
      requires Valid()
      modifies this
      ensures Valid()
      ensures cartItems == Cart.CartAfter(old(cartItems), e)
      ensures e.Close? ==> !isCartOpen && checkoutStep == old(checkoutStep)
      ensures e.Checkout? ==> !isCartOpen && checkoutStep == Processing
      ensures (e.ChangeQuantity? || e.Remove?) ==> isCartOpen == old(isCartOpen) && checkoutStep == old(checkoutStep)
      ensures e.Checkout? ==> pendingCheckoutTimers == old(pendingCheckoutTimers) + 1
      ensures !e.Checkout? ==> pendingCheckoutTimers == old(pendingCheckoutTimers)
      ensures unchanged(this`activeCategory, this`searchQuery)
    {
      match e
      case Close => CloseCart();
      case ChangeQuantity(id, delta) => UpdateQuantity(id, delta);
      case Remove(id) => RemoveFromCart(id);
      case Checkout => HandleCheckout();
    }
  }
}
