// The top-level component's state: catalog, cart, signed-in user, orders,
// the cart panel flag and the catalog filter inputs, with the handlers that
// change them.

module App {
  import opened Types
  import opened Text
  import Lists
  import Cart
  import Catalog
  import Session
  import Checkout

  /** What the checkout page hands to its callback: the fields an order gets from the page. */
  datatype OrderDraft = OrderDraft(status: OrderStatus, shippingAddress: string)

  class Store {
    var products: seq<Product>
    var cart: seq<CartItem>
    var user: Option<User>
    var orders: seq<Order>
    var isCartOpen: bool
    var searchQuery: string
    var selectedCategory: Catalog.CategoryFilter

    /**
     * Initial state. `savedCart` is the cart saved in local storage, `None`
     * when nothing (or the empty string) is saved.
     */
    constructor (initialProducts: seq<Product>, savedCart: Option<seq<CartItem>>)
      ensures products == initialProducts
      ensures cart == (if savedCart.Some? then savedCart.value else [])
      ensures user.None? && orders == [] && !isCartOpen
      ensures searchQuery == "" && selectedCategory == Catalog.All
    {
      products := initialProducts;
      cart := if savedCart.Some? then savedCart.value else [];
      user := None;
      orders := [];
      isCartOpen := false;
      searchQuery := "";
      selectedCategory := Catalog.All;
    }

    /** The header badge. */
    function CartCount(): int
      reads this
    {
      Cart.Count(cart)
    }

    /** The product grid. */
    function FilteredProducts(): seq<Product>
      reads this
    {
      Catalog.Visible(products, searchQuery, selectedCategory)
    }

    /** Add to cart (from the grid or the product page), then open the cart panel. */
    method AddToCart(p: Product)
      modifies this`cart, this`isCartOpen
      ensures cart == Cart.Add(old(cart), p) && isCartOpen
      ensures Cart.WellFormed(old(cart)) ==> Cart.WellFormed(cart)
      ensures Cart.UniqueIds(old(cart)) ==> CartCount() == old(CartCount()) + 1
    {
      ghost var before := cart;
      cart := Cart.Add(cart, p);
      isCartOpen := true;
      if Cart.WellFormed(before) {
        Cart.AddPreservesWellFormed(before, p);
      }
      if Cart.UniqueIds(before) {
        Cart.AddCount(before, p);
      }
    }

    /** The cart panel's quantity callback. */
    method UpdateQuantity(id: string, q: int)
      modifies this`cart
      ensures cart == Cart.UpdateQuantity(old(cart), id, q)
      ensures Cart.WellFormed(old(cart)) ==> Cart.WellFormed(cart)
    {
      ghost var before := cart;
      cart := Cart.UpdateQuantity(cart, id, q);
      if Cart.WellFormed(before) {
        Cart.UpdateQuantityPreservesWellFormed(before, id, q);
      }
    }

    /** The cart panel's remove callback. */
    method RemoveFromCart(id: string)
      modifies this`cart
      ensures cart == Cart.Remove(old(cart), id)
      ensures Cart.WellFormed(old(cart)) ==> Cart.WellFormed(cart)
      ensures !Cart.HasId(cart, id)
    {
      ghost var before := cart;
      cart := Cart.Remove(cart, id);
      Cart.RemoveSpec(before, id);
      if Cart.WellFormed(before) {
        Cart.RemovePreservesWellFormed(before, id);
      }
    }

    method Search(query: string)
      modifies this`searchQuery
      ensures searchQuery == query
      ensures FilteredProducts() == Catalog.Visible(products, query, selectedCategory)
    {
      searchQuery := query;
    }

    method SelectCategory(selected: Catalog.CategoryFilter)
      modifies this`selectedCategory
      ensures selectedCategory == selected
      ensures FilteredProducts() == Catalog.Visible(products, searchQuery, selected)
    {
      selectedCategory := selected;
    }

    /**
     * A session change: `authUser` is the session's identity (if any) and
     * `fetch` what the profile query produced.
     */
    method HandleUserSession(authUser: Option<Session.AuthUser>, fetch: Session.ProfileFetch)
      modifies this`user
      ensures user == Session.ResolveUser(authUser, fetch)
      ensures user.Some? ==> user.value.id == authUser.value.id && user.value.name != ""
    {
      user := Session.ResolveUser(authUser, fetch);
    }

    /** Sign-out: the user is cleared. */
    method Logout()
      modifies this`user
      ensures user.None?
    {
      user := None;
    }

    /**
     * The checkout callback: builds the order from the cart as it is now,
     * prepends it to the orders, empties the cart, and returns the record
     * sent to the remote insert. `now` is the clock reading that names the
     * order. The cart is emptied whatever the insert does.
     */
    method PlaceOrder(draft: OrderDraft, now: nat, createdAt: string) returns (placed: Order)
      requires user.Some?
      modifies this`orders, this`cart
      ensures placed.id == "ORD-" + NatToString(now)
      ensures placed.userId == user.value.id
      ensures placed.items == old(cart)
      ensures placed.total == Lists.Sum(placed.items, Cart.LineTotal)
      ensures placed.status == draft.status && placed.shippingAddress == draft.shippingAddress
      ensures placed.createdAt == createdAt
      ensures orders == [placed] + old(orders)
      ensures cart == []
    {
      var total := Cart.Total(cart);
      placed := Order("ORD-" + NatToString(now), user.value.id, cart, total,
                      draft.status, createdAt, draft.shippingAddress);
      orders := [placed] + orders;
      cart := [];
    }

    /**
     * A submit on the checkout page this store renders with its cart. The page's handler
     * never calls back into the store, so no order is created and the cart
     * is not cleared.
     */
    method SubmitCheckout(page: Checkout.Wizard) returns (outcome: Checkout.SubmitOutcome)
      requires page.Valid() && page.cart == cart
      modifies page
      ensures page.Valid()
      ensures page.checkoutCalls == old(page.checkoutCalls)
      ensures cart == old(cart) && orders == old(orders) && user == old(user)
    {
      outcome := page.HandleSubmit();
    }
  }
}
