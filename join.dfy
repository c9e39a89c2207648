/**
 * The join the cart view (src/components/Cart.jsx) and the order view
 * (src/components/Orders.jsx) both perform: each server entry is paired with the
 * first transformed product carrying its product id, and entries whose product is
 * unknown are dropped.
 */
module ProductJoin {
  import opened Wrappers
  import opened Api

  // ---------------------------------------------------------------- lookup by id

  /** `products.findIndex(p => p.id === id)`, as an option. */
  function FindIndex(products: seq<Product>, id: int): (r: Option<nat>)
    ensures r.Some? ==> r.value < |products| && products[r.value].id == id
    ensures r.Some? ==> forall j :: 0 <= j < r.value ==> products[j].id != id
    ensures r.None? ==> forall j :: 0 <= j < |products| ==> products[j].id != id
  {
    if products == [] then None
    else if products[0].id == id then Some(0)
    else match FindIndex(products[1..], id)
      case None => None
      case Some(k) => Some(k + 1)
  }

  /** `products.find(p => p.id === id)`: the first product with that id. */
  function FindProduct(products: seq<Product>, id: int): (r: Option<Product>)
    ensures r.None? <==> forall j :: 0 <= j < |products| ==> products[j].id != id
    ensures r.Some? ==> r.value.id == id && r.value in products
    ensures r.Some? ==> FindIndex(products, id).Some? && r.value == products[FindIndex(products, id).value]
  {
    match FindIndex(products, id)
    case None => None
    case Some(k) => Some(products[k])
  }

  // ---------------------------------------------------------------- joining entries to products

  /*
   * The cart view and the order view both pair each server entry with
   * `products.find(p => p.id === entry.productId)`, build a line from the pair,
   * and drop the entries that find nothing (`.map(...).filter(item => item !== null)`).
   * `productIdOf` reads an entry's product id and `build` makes the line.
   */

  /** The line one entry contributes: none when its product is unknown. */
  function JoinOne<E, L>(products: seq<Product>, e: E, productIdOf: E -> int, build: (Product, E) -> L): seq<L> {
    match FindProduct(products, productIdOf(e))
    case None => []
    case Some(p) => [build(p, e)]
  }

  function JoinByProduct<E, L>(products: seq<Product>, entries: seq<E>, productIdOf: E -> int, build: (Product, E) -> L): (r: seq<L>)
    ensures |r| <= |entries|
  {
    if entries == [] then []
    else JoinOne(products, entries[0], productIdOf, build) + JoinByProduct(products, entries[1..], productIdOf, build)
  }

  /** Nothing is dropped exactly when every entry finds its product. */
  lemma {:induction false} JoinLength<E, L>(products: seq<Product>, entries: seq<E>, productIdOf: E -> int, build: (Product, E) -> L)
    ensures |JoinByProduct(products, entries, productIdOf, build)| == |entries| <==>
            forall i :: 0 <= i < |entries| ==> FindProduct(products, productIdOf(entries[i])).Some?
  {
    if entries != [] {
      JoinLength(products, entries[1..], productIdOf, build);
      assert forall i :: 1 <= i < |entries| ==> entries[i] == entries[1..][i - 1];
    }
  }

  /** The join keeps the entries' order: joining a concatenation joins each part. */
  lemma {:induction false} JoinAppend<E, L>(products: seq<Product>, a: seq<E>, b: seq<E>, productIdOf: E -> int, build: (Product, E) -> L)
    ensures JoinByProduct(products, a + b, productIdOf, build)
         == JoinByProduct(products, a, productIdOf, build) + JoinByProduct(products, b, productIdOf, build)
  {
    if a == [] {
      assert a + b == b;
    } else {
      var ab := a + b;
      assert ab[0] == a[0] && ab[1..] == a[1..] + b;
      JoinAppend(products, a[1..], b, productIdOf, build);
      var head := JoinOne(products, a[0], productIdOf, build);
      assert JoinByProduct(products, ab, productIdOf, build)
          == head + JoinByProduct(products, a[1..] + b, productIdOf, build);
      assert JoinByProduct(products, a, productIdOf, build) == head + JoinByProduct(products, a[1..], productIdOf, build);
    }
  }

  /** A line is in the join exactly when some entry resolves to a product and builds it. */
  lemma {:induction false} JoinMembership<E, L>(products: seq<Product>, entries: seq<E>, productIdOf: E -> int, build: (Product, E) -> L, l: L)
    ensures l in JoinByProduct(products, entries, productIdOf, build) <==>
            exists i :: 0 <= i < |entries| && FindProduct(products, productIdOf(entries[i])).Some?
                        && l == build(FindProduct(products, productIdOf(entries[i])).value, entries[i])
  {
    if entries != [] {
      JoinMembership(products, entries[1..], productIdOf, build, l);
      var e := entries[0];
      if l in JoinByProduct(products, entries[1..], productIdOf, build) {
        var i :| 0 <= i < |entries[1..]| && FindProduct(products, productIdOf(entries[1..][i])).Some?
                 && l == build(FindProduct(products, productIdOf(entries[1..][i])).value, entries[1..][i]);
        assert entries[i + 1] == entries[1..][i];
      }
      if exists i :: 0 <= i < |entries| && FindProduct(products, productIdOf(entries[i])).Some?
                     && l == build(FindProduct(products, productIdOf(entries[i])).value, entries[i]) {
        var i :| 0 <= i < |entries| && FindProduct(products, productIdOf(entries[i])).Some?
                 && l == build(FindProduct(products, productIdOf(entries[i])).value, entries[i]);
        if i > 0 {
          assert entries[1..][i - 1] == entries[i];
        }
      }
    }
  }

  /** When every entry resolves, line `i` is built from entry `i` and its first matching product. */
  lemma {:induction false} JoinAllResolved<E, L>(products: seq<Product>, entries: seq<E>, productIdOf: E -> int, build: (Product, E) -> L)
    requires forall i :: 0 <= i < |entries| ==> FindProduct(products, productIdOf(entries[i])).Some?
    ensures var r := JoinByProduct(products, entries, productIdOf, build);
            |r| == |entries| &&
            forall i :: 0 <= i < |entries| ==> r[i] == build(FindProduct(products, productIdOf(entries[i])).value, entries[i])
  {
    if entries != [] {
      JoinAllResolved(products, entries[1..], productIdOf, build);
      var r := JoinByProduct(products, entries, productIdOf, build);
      var rest := JoinByProduct(products, entries[1..], productIdOf, build);
      var first := build(FindProduct(products, productIdOf(entries[0])).value, entries[0]);
      assert JoinOne(products, entries[0], productIdOf, build) == [first];
      assert r == [first] + rest;
      forall i | 1 <= i < |entries|
        ensures r[i] == build(FindProduct(products, productIdOf(entries[i])).value, entries[i])
      {
        assert r[i] == rest[i - 1] && entries[i] == entries[1..][i - 1];
      }
    }
  }
}
