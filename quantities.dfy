/**
 * A JavaScript object `{[productId: string]: number}` used as a cart, as its own
 * properties in enumeration order. No product id of this system is an
 * array-index-like string, so `Object.entries` lists the keys in insertion
 * order, and `{...prev, [id]: q}` keeps an existing key where it is and appends
 * a new one at the end. Both carts of the site (the inventory request form and
 * the partner portal) are objects of this kind.
 */
module Quantities {
  import opened Wrappers

  datatype Entry = Entry(id: string, qty: int)

  type Cart = seq<Entry>

  /** `Object.keys(c)`. */
  function Ids(c: Cart): seq<string>
  {
    if c == [] then [] else [c[0].id] + Ids(c[1..])
  }

  /** The keys of an object are pairwise distinct. */
  predicate DistinctIds(c: Cart)
  {
    c == [] || (c[0].id !in Ids(c[1..]) && DistinctIds(c[1..]))
  }

  /** Every stored quantity is at least 0. */
  predicate NonNegative(c: Cart)
  {
    forall e | e in c :: e.qty >= 0
  }

  /** `c[id]`: the quantity stored under `id`, or `undefined`. */
  function Get(c: Cart, id: string): (r: Option<int>)
    ensures r.Some? <==> id in Ids(c)
    ensures r.Some? ==> Entry(id, r.value) in c
  {
    if c == [] then None
    else if c[0].id == id then Some(c[0].qty)
    else Get(c[1..], id)
  }

  /** `{...c, [id]: q}`. */
  function Put(c: Cart, id: string, q: int): (r: Cart)
    ensures Get(r, id) == Some(q)
    ensures forall k | k != id :: Get(r, k) == Get(c, k)
    ensures Ids(r) == if id in Ids(c) then Ids(c) else Ids(c) + [id]
    ensures forall e | e in r :: e in c || e == Entry(id, q)
    ensures DistinctIds(c) ==> DistinctIds(r)
  {
    if c == [] then [Entry(id, q)]
    else if c[0].id == id then [Entry(id, q)] + c[1..]
    else [c[0]] + Put(c[1..], id, q)
  }

  /** `Object.entries(c).filter(([_, q]) => q > 0)`. */
  function Positive(c: Cart): (r: Cart)
    ensures forall e :: e in r <==> e in c && e.qty > 0
    ensures |r| <= |c|
  {
    if c == [] then []
    else (if c[0].qty > 0 then [c[0]] else []) + Positive(c[1..])
  }

  /** Filtering keeps cart order: it distributes over concatenation. */
  lemma {:induction false} PositiveKeepsOrder(a: Cart, b: Cart)
    ensures Positive(a + b) == Positive(a) + Positive(b)
  {
    if a != [] {
      assert (a + b)[1..] == a[1..] + b;
      PositiveKeepsOrder(a[1..], b);
    } else {
      assert a + b == b;
    }
  }

  /**
   * `handleQuantityChange(id, q)` of either cart: a negative quantity is ignored,
   * any other is stored under `id`.
   */
  function QuantityChanged(cart: Cart, id: string, q: int): (r: Cart)
    ensures q < 0 ==> r == cart
    ensures q >= 0 ==> Get(r, id) == Some(q) && forall k | k != id :: Get(r, k) == Get(cart, k)
    ensures NonNegative(cart) ==> NonNegative(r)
    ensures DistinctIds(cart) ==> DistinctIds(r)
  {
    if q >= 0 then Put(cart, id, q) else cart
  }
}
