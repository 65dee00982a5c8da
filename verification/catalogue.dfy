/** Products as the storefront sees them. Prices are whole rupees, ratings are
    tenths of a star (4.8 stars is 48), and ids are opaque strings compared
    with `===`. */
module Catalogue {
  import opened Common

  type ProductId = string

  /** A catalogue entry. `originalPrice` is 0 when the product has none
      (the source tests it for truthiness). */
  datatype Product = Product(
    id: ProductId,
    name: string,
    price: int,
    unit: string,
    category: string,
    farmer: string,
    rating: nat,
    inStock: bool,
    originalPrice: int)

  function ProductKey(p: Product): ProductId
  {
    p.id
  }

  /** `products.find(p => p.id === id)`. */
  function FindProduct(ps: seq<Product>, id: ProductId): (r: Option<Product>)
    ensures r.None? <==> forall i :: 0 <= i < |ps| ==> ps[i].id != id
    ensures r.Some? ==> r.value in ps && r.value.id == id
    ensures r.Some? ==> r.value == ps[FindIndex(ps, ProductKey, id)]
  {
    var i := FindIndex(ps, ProductKey, id);
    if i == -1 then None else Some(ps[i])
  }

  /** One star of a rendered rating. */
  datatype Star = Full | Half | Empty

  /** Number of stars of a given kind in a rendering. */
  function CountStars(s: seq<Star>, kind: Star): nat
  {
    if |s| == 0 then 0
    else (if s[0] == kind then 1 else 0) + CountStars(s[1..], kind)
  }

  lemma {:induction false} CountStarsAppend(a: seq<Star>, b: seq<Star>, kind: Star)
    ensures CountStars(a + b, kind) == CountStars(a, kind) + CountStars(b, kind)
    decreases |a|
  {
    if |a| == 0 {
      assert a + b == b;
    } else {
      assert (a + b)[1..] == a[1..] + b;
      CountStarsAppend(a[1..], b, kind);
    }
  }

  /** `n` copies of one kind of star (a `for (i = 0; i < n; i++)` loop; a negative
      bound runs no iteration). */
  function Repeat(kind: Star, n: int): (r: seq<Star>)
    ensures |r| == if n < 0 then 0 else n
    ensures forall i :: 0 <= i < |r| ==> r[i] == kind
    ensures CountStars(r, kind) == |r|
    decreases n
  {
    if n <= 0 then []
    else
      var rest := Repeat(kind, n - 1);
      var r := [kind] + rest;
      assert r[1..] == rest;
      r
  }

  lemma {:induction false} RepeatOthers(kind: Star, n: int, other: Star)
    requires other != kind
    ensures CountStars(Repeat(kind, n), other) == 0
    decreases n
  {
    if n > 0 {
      var rest := Repeat(kind, n - 1);
      assert Repeat(kind, n)[1..] == rest;
      RepeatOthers(kind, n - 1, other);
    }
  }
}
