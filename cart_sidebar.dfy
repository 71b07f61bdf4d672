// The cart side panel: it keeps no state of its own, shows the lines and
// their subtotal, and turns the minus, plus and trash buttons into requests
// that the top-level component applies to the cart.

module CartSidebar {
  import opened Types
  import Cart
  import Lists

  /** A callback invocation: set an entry's quantity, or remove an entry. */
  datatype Request = SetQuantity(id: string, quantity: int) | RemoveItem(id: string)

  /** The minus button asks for one less. */
  function MinusClicked(item: CartItem): Request
  {
    SetQuantity(item.product.id, item.quantity - 1)
  }

  /** The plus button asks for one more. */
  function PlusClicked(item: CartItem): Request
  {
    SetQuantity(item.product.id, item.quantity + 1)
  }

  /** The trash button passes the line's own id. */
  function TrashClicked(item: CartItem): Request
  {
    RemoveItem(item.product.id)
  }

  /** How the top-level component answers the two callbacks. */
  function Apply(cart: seq<CartItem>, req: Request): seq<CartItem>
  {
    match req
    case SetQuantity(id, q) => Cart.UpdateQuantity(cart, id, q)
    case RemoveItem(id) => Cart.Remove(cart, id)
  }

  /** The panel's body: the empty-bag message, or the lines with the footer showing the subtotal. */
  datatype Panel = EmptyBag | Lines(items: seq<CartItem>, subtotal: int)

  function Render(cart: seq<CartItem>): (v: Panel)
    ensures v.EmptyBag? <==> |cart| == 0
    ensures v.Lines? ==> v.items == cart && v.subtotal == Lists.Sum(cart, Cart.LineTotal)
  {
    var total := Cart.Total(cart);
    if |cart| == 0 then EmptyBag else Lines(cart, total)
  }

  /** Minus lowers that line's quantity by one but never below 1; the other lines stay. */
  lemma MinusClickedEffect(cart: seq<CartItem>, k: nat)
    requires Cart.UniqueIds(cart)
    requires k < |cart|
    ensures |Apply(cart, MinusClicked(cart[k]))| == |cart|
    ensures Apply(cart, MinusClicked(cart[k]))[k] == cart[k].(quantity := Cart.Max(1, cart[k].quantity - 1))
    ensures forall i | 0 <= i < |cart| && i != k :: Apply(cart, MinusClicked(cart[k]))[i] == cart[i]
  {
  }

  /** Minus at quantity 1 leaves the cart as it was. */
  lemma MinusAtOneKeepsOne(cart: seq<CartItem>, k: nat)
    requires Cart.UniqueIds(cart)
    requires k < |cart| && cart[k].quantity == 1
    ensures Apply(cart, MinusClicked(cart[k])) == cart
  {
    MinusClickedEffect(cart, k);
  }

  /** Plus raises that line's quantity by exactly one, and the header count with it. */
  lemma PlusClickedEffect(cart: seq<CartItem>, k: nat)
    requires Cart.WellFormed(cart)
    requires k < |cart|
    ensures Apply(cart, PlusClicked(cart[k]))[k] == cart[k].(quantity := cart[k].quantity + 1)
    ensures forall i | 0 <= i < |cart| && i != k :: Apply(cart, PlusClicked(cart[k]))[i] == cart[i]
    ensures Cart.Count(Apply(cart, PlusClicked(cart[k]))) == Cart.Count(cart) + 1
  {
    Cart.UpdateQuantityCount(cart, cart[k].product.id, cart[k].quantity + 1, k);
  }

  /** The trash button removes exactly its own line. */
  lemma TrashClickedEffect(cart: seq<CartItem>, k: nat)
    requires Cart.UniqueIds(cart)
    requires k < |cart|
    ensures Apply(cart, TrashClicked(cart[k])) == cart[..k] + cart[k + 1..]
  {
    Cart.RemoveAt(cart, cart[k].product.id, k);
  }
}
