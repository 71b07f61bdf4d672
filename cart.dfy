// The cart held by the top-level component: the three updaters that are the
// only way the cart changes (add, set quantity, remove) and the two sums
// derived from it (the header badge count and the price total).

module Cart {
  import opened Types
  import opened Lists

  function Quantity(item: CartItem): int
  {
    item.quantity
  }

  /** Price times quantity of one cart line. */
  function LineTotal(item: CartItem): int
  {
    item.product.price * item.quantity
  }

  /** `cart.find(i => i.id === id)` succeeds. */
  predicate HasId(cart: seq<CartItem>, id: string)
  {
    exists i | 0 <= i < |cart| :: cart[i].product.id == id
  }

  /** At most one entry per product id. */
  predicate UniqueIds(cart: seq<CartItem>)
  {
    forall i, j | 0 <= i < j < |cart| :: cart[i].product.id != cart[j].product.id
  }

  predicate PositiveQuantities(cart: seq<CartItem>)
  {
    forall i | 0 <= i < |cart| :: cart[i].quantity >= 1
  }

  /** The cart invariant that the updaters maintain. */
  predicate WellFormed(cart: seq<CartItem>)
  {
    UniqueIds(cart) && PositiveQuantities(cart)
  }

  /** The header badge: the fold of the quantities, equal to their sum. */
  function Count(cart: seq<CartItem>): (n: int)
    ensures n == Sum(cart, Quantity)
  {
    Reduce(cart, Quantity, 0)
  }

  /** The fold of price times quantity, equal to the sum over the lines. */
  function Total(cart: seq<CartItem>): (t: int)
    ensures t == Sum(cart, LineTotal)
  {
    Reduce(cart, LineTotal, 0)
  }

  function Max(a: int, b: int): int
  {
    if a >= b then a else b
  }

  function IncrementWhere(cart: seq<CartItem>, id: string): seq<CartItem>
  {
    seq(|cart|, i requires 0 <= i < |cart| =>
      if cart[i].product.id == id then cart[i].(quantity := cart[i].quantity + 1) else cart[i])
  }

  /**
   * Add to cart: an entry with the product's id gets one more unit, otherwise
   * the product is appended with quantity 1.
   */
  function Add(cart: seq<CartItem>, p: Product): (r: seq<CartItem>)
    ensures HasId(r, p.id)
    ensures |r| == if HasId(cart, p.id) then |cart| else |cart| + 1
    ensures forall i | 0 <= i < |cart| :: r[i].product == cart[i].product
    ensures !HasId(cart, p.id) ==> r[..|cart|] == cart && r[|cart|] == CartItem(p, 1)
  {
    if HasId(cart, p.id) then
      var r := IncrementWhere(cart, p.id);
      assert HasId(r, p.id) by {
        var k :| 0 <= k < |cart| && cart[k].product.id == p.id;
        assert r[k].product.id == p.id;
      }
      r
    else
      var r := cart + [CartItem(p, 1)];
      assert r[|cart|].product.id == p.id;
      r
  }

  /** Set quantity: every entry with the id gets `max(1, q)`; the rest stay. */
  function UpdateQuantity(cart: seq<CartItem>, id: string, q: int): (r: seq<CartItem>)
    ensures |r| == |cart|
    ensures forall i | 0 <= i < |cart| :: r[i].product == cart[i].product
    ensures forall i | 0 <= i < |cart| && cart[i].product.id != id :: r[i] == cart[i]
    ensures forall i | 0 <= i < |cart| && cart[i].product.id == id ::
      r[i].quantity >= 1 && (q >= 1 ==> r[i].quantity == q) && (q < 1 ==> r[i].quantity == 1)
    ensures !HasId(cart, id) ==> r == cart
  {
    seq(|cart|, i requires 0 <= i < |cart| =>
      if cart[i].product.id == id then cart[i].(quantity := Max(1, q)) else cart[i])
  }

  function Keeps(id: string): CartItem -> bool
  {
    (item: CartItem) => item.product.id != id
  }

  /** Remove: keep only the entries whose id differs. */
  function Remove(cart: seq<CartItem>, id: string): seq<CartItem>
  {
    Filter(cart, Keeps(id))
  }

  /** Adding an id already present bumps exactly that entry by one; nothing else changes. */
  lemma AddExisting(cart: seq<CartItem>, p: Product, k: nat)
    requires UniqueIds(cart)
    requires k < |cart| && cart[k].product.id == p.id
    ensures |Add(cart, p)| == |cart|
    ensures Add(cart, p)[k] == cart[k].(quantity := cart[k].quantity + 1)
    ensures forall i | 0 <= i < |cart| && i != k :: Add(cart, p)[i] == cart[i]
  {
  }

  /** Either way, the header count rises by exactly one. */
  lemma AddCount(cart: seq<CartItem>, p: Product)
    requires UniqueIds(cart)
    ensures Count(Add(cart, p)) == Count(cart) + 1
  {
    var r := Add(cart, p);
    if HasId(cart, p.id) {
      var k :| 0 <= k < |cart| && cart[k].product.id == p.id;
      AddExisting(cart, p, k);
      SumChangedAt(cart, r, Quantity, k);
    } else {
      SumAppend(cart, [CartItem(p, 1)], Quantity);
    }
  }

  lemma AddPreservesWellFormed(cart: seq<CartItem>, p: Product)
    requires WellFormed(cart)
    ensures WellFormed(Add(cart, p))
  {
  }

  /** Clicking "add" on the same product `n` times. */
  function AddTimes(cart: seq<CartItem>, p: Product, n: nat): seq<CartItem>
  {
    if n == 0 then cart else Add(AddTimes(cart, p, n - 1), p)
  }

  /** Repeated adds of a product not yet in the cart leave one entry whose quantity is the number of adds. */
  lemma {:induction false} AddTimesFresh(cart: seq<CartItem>, p: Product, n: nat)
    requires !HasId(cart, p.id)
    requires n >= 1
    ensures AddTimes(cart, p, n) == cart + [CartItem(p, n)]
  {
    if n > 1 {
      AddTimesFresh(cart, p, n - 1);
      var prev := cart + [CartItem(p, n - 1)];
      assert prev[|cart|].product.id == p.id;
      forall i | 0 <= i < |prev| && i != |cart| ensures prev[i].product.id != p.id {
        assert prev[i] == cart[i];
      }
      assert Add(prev, p) == cart + [CartItem(p, n)];
    }
  }

  lemma UpdateQuantityPreservesWellFormed(cart: seq<CartItem>, id: string, q: int)
    requires WellFormed(cart)
    ensures WellFormed(UpdateQuantity(cart, id, q))
  {
  }

  /** With unique ids, the count changes by the clamped new quantity minus the old one. */
  lemma UpdateQuantityCount(cart: seq<CartItem>, id: string, q: int, k: nat)
    requires UniqueIds(cart)
    requires k < |cart| && cart[k].product.id == id
    ensures Count(UpdateQuantity(cart, id, q)) == Count(cart) - cart[k].quantity + Max(1, q)
  {
    SumChangedAt(cart, UpdateQuantity(cart, id, q), Quantity, k);
  }

  /** Remove keeps exactly the entries with other ids, in their original order. */
  lemma RemoveSpec(cart: seq<CartItem>, id: string)
    ensures forall x :: x in Remove(cart, id) <==> x in cart && x.product.id != id
    ensures !HasId(Remove(cart, id), id)
    ensures IsSubsequence(Remove(cart, id), cart)
    ensures !HasId(cart, id) ==> Remove(cart, id) == cart
  {
    forall x ensures x in Remove(cart, id) <==> x in cart && x.product.id != id {
      FilterMembership(cart, Keeps(id), x);
    }
    var r := Remove(cart, id);
    forall i | 0 <= i < |r| ensures r[i].product.id != id {
      assert r[i] in r;
    }
    FilterIsSubsequence(cart, Keeps(id));
    FilterAllKept(cart, Keeps(id));
  }

  /** Filtering a cart with unique ids leaves the ids unique. */
  lemma {:induction false} FilterKeepsUniqueIds(cart: seq<CartItem>, keep: CartItem -> bool)
    requires UniqueIds(cart)
    ensures UniqueIds(Filter(cart, keep))
  {
    if cart != [] {
      var rest := cart[1..];
      FilterKeepsUniqueIds(rest, keep);
      if keep(cart[0]) {
        var fr := Filter(rest, keep);
        var r := Filter(cart, keep);
        assert r == [cart[0]] + fr;
        forall j | 0 <= j < |fr| ensures fr[j].product.id != cart[0].product.id {
          FilterMembership(rest, keep, fr[j]);
          var m :| 0 <= m < |rest| && rest[m] == fr[j];
          assert rest[m] == cart[m + 1];
        }
        forall i, j | 0 <= i < j < |r| ensures r[i].product.id != r[j].product.id {
          if i > 0 {
            assert r[i] == fr[i - 1] && r[j] == fr[j - 1];
          } else {
            assert r[j] == fr[j - 1];
          }
        }
      }
    }
  }

  lemma RemovePreservesWellFormed(cart: seq<CartItem>, id: string)
    requires WellFormed(cart)
    ensures WellFormed(Remove(cart, id))
  {
    FilterKeepsUniqueIds(cart, Keeps(id));
    var r := Remove(cart, id);
    forall i | 0 <= i < |r| ensures r[i].quantity >= 1 {
      FilterMembership(cart, Keeps(id), r[i]);
    }
  }

  /** With unique ids, removing the id of the entry at `k` drops exactly that entry. */
  lemma {:induction false} RemoveAt(cart: seq<CartItem>, id: string, k: nat)
    requires UniqueIds(cart)
    requires k < |cart| && cart[k].product.id == id
    ensures Remove(cart, id) == cart[..k] + cart[k + 1..]
  {
    var rest := cart[1..];
    if k == 0 {
      forall m | 0 <= m < |rest| ensures Keeps(id)(rest[m]) {
        assert rest[m] == cart[m + 1];
      }
      FilterAllKept(rest, Keeps(id));
      assert cart[..0] + cart[1..] == rest;
    } else {
      RemoveAt(rest, id, k - 1);
      assert Remove(cart, id) == [cart[0]] + Remove(rest, id);
      assert [cart[0]] + (rest[..k - 1] + rest[k..]) == cart[..k] + cart[k + 1..];
    }
  }

  /** With unique ids, removing an id present at `k` lowers the count by that entry's quantity. */
  lemma {:induction false} RemoveCount(cart: seq<CartItem>, id: string, k: nat)
    requires UniqueIds(cart)
    requires k < |cart| && cart[k].product.id == id
    ensures Count(Remove(cart, id)) == Count(cart) - cart[k].quantity
  {
    var rest := cart[1..];
    if k == 0 {
      forall m | 0 <= m < |rest| ensures Keeps(id)(rest[m]) {
        assert rest[m] == cart[m + 1];
      }
      FilterAllKept(rest, Keeps(id));
    } else {
      RemoveCount(rest, id, k - 1);
      var fr := Remove(rest, id);
      assert Remove(cart, id) == [cart[0]] + fr;
      assert ([cart[0]] + fr)[1..] == fr;
    }
  }

  /** A well-formed cart of non-negatively priced products has a non-negative total and a count at least its length. */
  lemma TotalAndCountBounds(cart: seq<CartItem>)
    requires WellFormed(cart)
    requires forall i | 0 <= i < |cart| :: cart[i].product.price >= 0
    ensures Total(cart) >= 0
    ensures Count(cart) >= |cart|
  {
    forall i | 0 <= i < |cart| ensures LineTotal(cart[i]) >= 0 {
      assert cart[i].product.price >= 0 && cart[i].quantity >= 1;
    }
    SumLowerBound(cart, LineTotal, 0);
    SumLowerBound(cart, Quantity, 1);
  }
}
