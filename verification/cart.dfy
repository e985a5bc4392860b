/**
 * The shopping-cart state of the GoMarketplace app (src/hooks/cart.tsx):
 * a list of product lines, three operations that rewrite it, and the one
 * storage slot each operation overwrites.
 *
 * The list rewrites are pure functions over seq<Product>; the provider that
 * holds the current list and the storage slot is the class CartProvider.
 */
module Cart {

  datatype Option<T> = None | Some(value: T)

  /** One cart line. `price` is carried through unchanged and never inspected. */
  datatype Product = Product(id: string, title: string, imageUrl: string, price: int, quantity: int)

  /** What addToCart receives: a product without a quantity. */
  datatype Item = Item(id: string, title: string, imageUrl: string, price: int)

  /** Some line of the cart has identifier `id`. */
  predicate Has(ps: seq<Product>, id: string)
  {
    exists i :: 0 <= i < |ps| && ps[i].id == id
  }

  /** No two lines share an identifier. */
  predicate UniqueIds(ps: seq<Product>)
  {
    forall i, j :: 0 <= i < j < |ps| ==> ps[i].id != ps[j].id
  }

  /** Every line holds at least one unit. */
  predicate PositiveQuantities(ps: seq<Product>)
  {
    forall i :: 0 <= i < |ps| ==> ps[i].quantity >= 1
  }

  /**
   * `after` is `before` with the quantity of every line whose identifier is
   * `id` raised by one, and nothing else changed.
   */
  predicate BumpedWhere(before: seq<Product>, after: seq<Product>, id: string)
  {
    && |after| == |before|
    && (forall i :: 0 <= i < |before| ==> after[i].(quantity := before[i].quantity) == before[i])
    && (forall i :: 0 <= i < |before| ==>
          after[i].quantity == before[i].quantity + (if before[i].id == id then 1 else 0))
  }

  /**
   * The position of the first line with identifier `id`: the index that
   * JavaScript's `find(p => p.id === id)` stops at.
   */
  function FindIndex(ps: seq<Product>, id: string): (r: Option<nat>)
    ensures r.None? <==> !Has(ps, id)
    ensures r.Some? ==> r.value < |ps| && ps[r.value].id == id
    ensures r.Some? ==> forall j :: 0 <= j < r.value ==> ps[j].id != id
  {
    if ps == [] then None
    else if ps[0].id == id then Some(0)
    else match FindIndex(ps[1..], id)
      case None => None
      case Some(j) => Some(j + 1)
  }

  /**
   * The list with every line whose identifier is `id` replaced by `f` of it,
   * every other line kept in place.
   */
  function MapMatching(ps: seq<Product>, id: string, f: Product -> Product): (r: seq<Product>)
    ensures |r| == |ps|
    ensures forall i :: 0 <= i < |ps| ==> r[i] == if ps[i].id == id then f(ps[i]) else ps[i]
  {
    if ps == [] then []
    else [if ps[0].id == id then f(ps[0]) else ps[0]] + MapMatching(ps[1..], id, f)
  }

  /** The lines whose identifier is not `id`, in their original order. */
  function RemoveMatching(ps: seq<Product>, id: string): (r: seq<Product>)
    ensures |r| <= |ps|
    ensures !Has(r, id)
    ensures forall p :: p in r <==> p in ps && p.id != id
    ensures !Has(ps, id) ==> r == ps
  {
    if ps == [] then []
    else if ps[0].id == id then RemoveMatching(ps[1..], id)
    else [ps[0]] + RemoveMatching(ps[1..], id)
  }

  function Bump(p: Product): Product
  {
    p.(quantity := p.quantity + 1)
  }

  /** The line addToCart appends for an item not yet in the cart. */
  function NewLine(item: Item): Product
  {
    Product(item.id, item.title, item.imageUrl, item.price, 1)
  }

  /**
   * The list addToCart computes (lines 45-55): an item already present has
   * its quantity raised by one; a new item is appended with quantity 1.
   */
  function Added(ps: seq<Product>, item: Item): (r: seq<Product>)
    ensures Has(ps, item.id) ==> BumpedWhere(ps, r, item.id)
    ensures !Has(ps, item.id) ==>
      && |r| == |ps| + 1
      && r[..|ps|] == ps
      && r[|ps|].id == item.id && r[|ps|].title == item.title
      && r[|ps|].imageUrl == item.imageUrl && r[|ps|].price == item.price
      && r[|ps|].quantity == 1
  {
    if FindIndex(ps, item.id).Some? then MapMatching(ps, item.id, Bump)
    else ps + [NewLine(item)]
  }

  /** The list increment computes (lines 69-71). */
  function Incremented(ps: seq<Product>, id: string): (r: seq<Product>)
    ensures BumpedWhere(ps, r, id)
    ensures !Has(ps, id) ==> r == ps
  {
    MapMatching(ps, id, Bump)
  }

  /**
   * The list decrement computes (lines 85-95). The first line with the
   * identifier decides: at quantity 1 every line with that identifier is
   * filtered out; otherwise every line with that identifier becomes a copy of
   * the first one with its quantity lowered by one. An absent identifier finds
   * the empty fallback record, whose quantity is not 1, and the map then
   * matches no line.
   */
  function Decremented(ps: seq<Product>, id: string): (r: seq<Product>)
    ensures !Has(ps, id) ==> r == ps
    ensures Has(ps, id) && ps[FindIndex(ps, id).value].quantity == 1 ==>
      && r == RemoveMatching(ps, id)
      && !Has(r, id)
      && (forall p :: p in r <==> p in ps && p.id != id)
    ensures Has(ps, id) && ps[FindIndex(ps, id).value].quantity != 1 ==>
      var first := ps[FindIndex(ps, id).value];
      && |r| == |ps|
      && (forall i :: 0 <= i < |ps| && ps[i].id != id ==> r[i] == ps[i])
      && (forall i :: 0 <= i < |ps| && ps[i].id == id ==> r[i] == first.(quantity := first.quantity - 1))
  {
    match FindIndex(ps, id)
    case None => ps
    case Some(k) =>
      var first := ps[k];
      if first.quantity == 1 then RemoveMatching(ps, id)
      else MapMatching(ps, id, _ => first.(quantity := first.quantity - 1))
  }

  // ---------------------------------------------------------------------
  // Filtering keeps order

  lemma {:induction false} RemoveMatchingConcat(a: seq<Product>, b: seq<Product>, id: string)
    ensures RemoveMatching(a + b, id) == RemoveMatching(a, id) + RemoveMatching(b, id)
  {
    if a == [] {
      assert a + b == b;
    } else {
      assert (a + b)[1..] == a[1..] + b;
      RemoveMatchingConcat(a[1..], b, id);
    }
  }

  /** With unique identifiers, the first line with a line's identifier is that line. */
  lemma FindIndexUnique(ps: seq<Product>, k: nat)
    requires UniqueIds(ps)
    requires k < |ps|
    ensures FindIndex(ps, ps[k].id) == Some(k)
  {
  }

  /** Filtering keeps every other line exactly as many times as it occurs. */
  lemma {:induction false} RemoveMatchingCounts(ps: seq<Product>, id: string, p: Product)
    ensures multiset(RemoveMatching(ps, id))[p] == if p.id == id then 0 else multiset(ps)[p]
  {
    if ps != [] {
      var x, rest := ps[0], ps[1..];
      var tail := RemoveMatching(rest, id);
      RemoveMatchingCounts(rest, id, p);
      assert ps == [x] + rest;
      assert multiset(ps)[p] == multiset(rest)[p] + (if p == x then 1 else 0);
      if x.id == id {
        assert RemoveMatching(ps, id) == tail;
      } else {
        assert RemoveMatching(ps, id) == [x] + tail;
        assert multiset([x] + tail)[p] == multiset(tail)[p] + (if p == x then 1 else 0);
      }
    }
  }

  /** Dropping the first line keeps identifiers unique, and the first identifier does not recur. */
  lemma UniqueIdsTail(ps: seq<Product>)
    requires UniqueIds(ps) && ps != []
    ensures UniqueIds(ps[1..])
    ensures !Has(ps[1..], ps[0].id)
  {
  }

  /** With unique identifiers, filtering out a present identifier deletes exactly its line. */
  lemma {:induction false} RemoveMatchingAt(ps: seq<Product>, k: nat)
    requires UniqueIds(ps)
    requires k < |ps|
    ensures RemoveMatching(ps, ps[k].id) == ps[..k] + ps[k + 1..]
  {
    var id, tail := ps[k].id, ps[1..];
    UniqueIdsTail(ps);
    if k == 0 {
      calc {
        RemoveMatching(ps, id);
        RemoveMatching(tail, id);
        { assert !Has(tail, id); }
        tail;
      }
    } else {
      assert ps[0].id != id;
      assert tail[k - 1] == ps[k];
      calc {
        RemoveMatching(ps, id);
        [ps[0]] + RemoveMatching(tail, id);
        { RemoveMatchingAt(tail, k - 1); }
        [ps[0]] + (tail[..k - 1] + tail[k..]);
        { assert ps[..k] == [ps[0]] + tail[..k - 1]; assert ps[k + 1..] == tail[k..]; }
        ps[..k] + ps[k + 1..];
      }
    }
  }

  /** Putting a line with a new identifier in front keeps identifiers unique. */
  lemma UniqueIdsCons(p: Product, ps: seq<Product>)
    requires UniqueIds(ps) && !Has(ps, p.id)
    ensures UniqueIds([p] + ps)
  {
  }

  /** An identifier found among lines that all occur in `t` is found in `t`. */
  lemma HasIncluded(s: seq<Product>, t: seq<Product>, id: string)
    requires forall p :: p in s ==> p in t
    requires Has(s, id)
    ensures Has(t, id)
  {
    var i :| 0 <= i < |s| && s[i].id == id;
    assert s[i] in t;
  }

  /** Filtering keeps identifiers unique. */
  lemma {:induction false} RemoveMatchingKeepsIdsUnique(ps: seq<Product>, id: string)
    requires UniqueIds(ps)
    ensures UniqueIds(RemoveMatching(ps, id))
  {
    if ps != [] {
      var tail := RemoveMatching(ps[1..], id);
      UniqueIdsTail(ps);
      RemoveMatchingKeepsIdsUnique(ps[1..], id);
      if ps[0].id != id {
        if Has(tail, ps[0].id) {
          HasIncluded(tail, ps[1..], ps[0].id);
        }
        UniqueIdsCons(ps[0], tail);
      }
    }
  }

  // ---------------------------------------------------------------------
  // Each rewrite, stated exactly for a cart with unique identifiers

  /** addToCart of a present item raises exactly that line's quantity. */
  lemma AddedExisting(ps: seq<Product>, item: Item, k: nat)
    requires UniqueIds(ps)
    requires k < |ps| && ps[k].id == item.id
    ensures Added(ps, item) == ps[k := ps[k].(quantity := ps[k].quantity + 1)]
  {
  }

  /** increment of a present identifier raises exactly that line's quantity. */
  lemma IncrementedAt(ps: seq<Product>, k: nat)
    requires UniqueIds(ps)
    requires k < |ps|
    ensures Incremented(ps, ps[k].id) == ps[k := ps[k].(quantity := ps[k].quantity + 1)]
  {
  }

  /** decrement of a line at quantity 1 deletes that line and keeps the others in order. */
  lemma DecrementedRemoves(ps: seq<Product>, k: nat)
    requires UniqueIds(ps)
    requires k < |ps| && ps[k].quantity == 1
    ensures Decremented(ps, ps[k].id) == ps[..k] + ps[k + 1..]
  {
    FindIndexUnique(ps, k);
    RemoveMatchingAt(ps, k);
  }

  /** decrement of a line above quantity 1 lowers exactly that line's quantity. */
  lemma DecrementedLowers(ps: seq<Product>, k: nat)
    requires UniqueIds(ps)
    requires k < |ps| && ps[k].quantity != 1
    ensures Decremented(ps, ps[k].id) == ps[k := ps[k].(quantity := ps[k].quantity - 1)]
  {
  }

  // ---------------------------------------------------------------------
  // The cart invariants: unique identifiers, quantities of at least one

  lemma AddedKeepsIdsUnique(ps: seq<Product>, item: Item)
    requires UniqueIds(ps)
    ensures UniqueIds(Added(ps, item))
  {
  }

  lemma IncrementedKeepsIdsUnique(ps: seq<Product>, id: string)
    requires UniqueIds(ps)
    ensures UniqueIds(Incremented(ps, id))
  {
  }

  lemma DecrementedKeepsIdsUnique(ps: seq<Product>, id: string)
    requires UniqueIds(ps)
    ensures UniqueIds(Decremented(ps, id))
  {
    if Has(ps, id) && ps[FindIndex(ps, id).value].quantity == 1 {
      RemoveMatchingKeepsIdsUnique(ps, id);
    }
  }

  lemma AddedKeepsQuantitiesPositive(ps: seq<Product>, item: Item)
    requires PositiveQuantities(ps)
    ensures PositiveQuantities(Added(ps, item))
  {
  }

  lemma IncrementedKeepsQuantitiesPositive(ps: seq<Product>, id: string)
    requires PositiveQuantities(ps)
    ensures PositiveQuantities(Incremented(ps, id))
  {
  }

  lemma DecrementedKeepsQuantitiesPositive(ps: seq<Product>, id: string)
    requires PositiveQuantities(ps)
    ensures PositiveQuantities(Decremented(ps, id))
  {
  }

  // ---------------------------------------------------------------------
  // The provider: the current list and the storage slot

  /**
   * The state CartProvider keeps: `products`, replaced by setProducts, and
   * `stored`, the content of the slot '@GoMarketplace:products' (None while
   * nothing has been written there). Each operation writes the list as it was
   * BEFORE the operation to the slot, so the slot lags one operation behind.
   */
  class CartProvider {
    var products: seq<Product>
    var stored: Option<seq<Product>>

    /** The invariants the cart keeps once it starts out with them. */
    ghost predicate Valid()
      reads this
    {
      UniqueIds(products) && PositiveQuantities(products)
    }

    /** A fresh provider starts with an empty list; `slot` is what the device already holds. */
    constructor (slot: Option<seq<Product>>)
      ensures products == [] && stored == slot
      ensures Valid()
    {
      products := [];
      stored := slot;
    }

    method AddToCart(item: Item)
      modifies this
      ensures products == Added(old(products), item)
      ensures stored == Some(old(products))
      ensures old(Valid()) ==> Valid()
    {
      if old(Valid()) {
        AddedKeepsIdsUnique(products, item);
        AddedKeepsQuantitiesPositive(products, item);
      }
      var newProducts := Added(products, item);
      stored := Some(products);
      products := newProducts;
    }

    method Increment(id: string)
      modifies this
      ensures products == Incremented(old(products), id)
      ensures stored == Some(old(products))
      ensures old(Valid()) ==> Valid()
    {
      if old(Valid()) {
        IncrementedKeepsIdsUnique(products, id);
        IncrementedKeepsQuantitiesPositive(products, id);
      }
      var newProducts := Incremented(products, id);
      stored := Some(products);
      products := newProducts;
    }

    method Decrement(id: string)
      modifies this
      ensures products == Decremented(old(products), id)
      ensures stored == Some(old(products))
      ensures old(Valid()) ==> Valid()
    {
      if old(Valid()) {
        DecrementedKeepsIdsUnique(products, id);
        DecrementedKeepsQuantitiesPositive(products, id);
      }
      var newProducts := Decremented(products, id);
      stored := Some(products);
      products := newProducts;
    }
  }
}
