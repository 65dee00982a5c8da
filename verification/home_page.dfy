/** The static home page: the featured grid, the discount badge, the half-star
    rating display, adding a featured product to the cart and the wishlist
    heart. The featured list is a parameter; card markup is left out. */
module HomePage {
  import opened Common
  import opened Catalogue
  import opened StaticCart
  import opened StaticStore

  /** `featuredProducts.slice(0, 8)`. */
  function Featured(products: seq<Product>): (r: seq<Product>)
    ensures |r| == if |products| < 8 then |products| else 8
    ensures forall i :: 0 <= i < |r| ==> r[i] == products[i]
  {
    if |products| < 8 then products else products[..8]
  }

  /** `Math.floor(n / d)` for a non-zero divisor of either sign. */
  function FloorDiv(n: int, d: int): (r: int)
    requires d != 0
    ensures d > 0 ==> r * d <= n < (r + 1) * d
    ensures d < 0 ==> (r + 1) * d < n <= r * d
  {
    if d > 0 then n / d else (-n) / (-d)
  }

  /** The discount badge's percentage: `Math.round((original - price) / original * 100)`
      when there is an original price, else 0. Computed exactly over the rationals. */
  function Discount(p: Product): (r: int)
    ensures p.originalPrice == 0 ==> r == 0
    ensures p.originalPrice > 0 ==>
      (2 * r - 1) * p.originalPrice <= 200 * (p.originalPrice - p.price) < (2 * r + 1) * p.originalPrice
  {
    if p.originalPrice == 0 then 0
    else FloorDiv(200 * (p.originalPrice - p.price) + p.originalPrice, 2 * p.originalPrice)
  }

  /** A product sold at its original price shows no badge, one sold below it a
      discount from 0 to 100, and one at least half a percent below it a
      positive discount. */
  lemma DiscountBounds(p: Product)
    requires p.originalPrice > 0
    ensures p.price == p.originalPrice ==> Discount(p) == 0
    ensures 0 <= p.price < p.originalPrice ==> 0 <= Discount(p) <= 100
    ensures 0 <= p.price && 200 * (p.originalPrice - p.price) >= p.originalPrice ==> Discount(p) > 0
  {
    RoundBounds(Discount(p), p.originalPrice, 200 * (p.originalPrice - p.price));
  }

  /** The integer facts behind `DiscountBounds`: `r` is `n / (2 * o)` rounded
      half up. */
  lemma RoundBounds(r: int, o: int, n: int)
    requires o > 0
    requires (2 * r - 1) * o <= n < (2 * r + 1) * o
    ensures n == 0 ==> r == 0
    ensures 0 < n <= 200 * o ==> 0 <= r <= 100
    ensures n >= o ==> r > 0
  {
    if r >= 1 {
      MulLe(1, 2 * r - 1, o);
    }
    if r <= -1 {
      MulLe(2 * r + 1, -1, o);
    }
    if r >= 101 {
      MulLe(201, 2 * r - 1, o);
    }
    if r <= 0 {
      MulLe(2 * r + 1, 1, o);
    }
  }

  lemma MulLe(a: int, b: int, c: int)
    requires a <= b && c >= 0
    ensures a * c <= b * c
  {
    assert b * c - a * c == (b - a) * c;
  }

  /** `createStarRating`: whole stars, one half star when the tenths digit is 5
      or more, then empty stars up to five (none when the rating exceeds five). */
  function CreateStarRating(rating: nat): (r: seq<Star>)
    ensures CountStars(r, Full) == rating / 10
    ensures CountStars(r, Half) == (if rating % 10 >= 5 then 1 else 0)
    ensures rating <= 50 ==> |r| == 5
    ensures rating < 50 ==> CountStars(r, Empty) == 5 - rating / 10 - (if rating % 10 >= 5 then 1 else 0)
  {
    var full := rating / 10;
    var half := if rating % 10 >= 5 then [Half] else [];
    var empty := 5 - full - |half|;
    var r := Repeat(Full, full) + half + Repeat(Empty, empty);
    CountStarsAppend(Repeat(Full, full) + half, Repeat(Empty, empty), Full);
    CountStarsAppend(Repeat(Full, full), half, Full);
    CountStarsAppend(Repeat(Full, full) + half, Repeat(Empty, empty), Half);
    CountStarsAppend(Repeat(Full, full), half, Half);
    CountStarsAppend(Repeat(Full, full) + half, Repeat(Empty, empty), Empty);
    CountStarsAppend(Repeat(Full, full), half, Empty);
    RepeatOthers(Empty, empty, Full);
    RepeatOthers(Empty, empty, Half);
    RepeatOthers(Full, full, Half);
    RepeatOthers(Full, full, Empty);
    assert half == [] || half[1..] == [];
    r
  }

  /** The catalogue page's plain stars are exactly the home page's full stars. */
  lemma StarDisplaysAgree(rating: nat)
    ensures CountStars(CreateStarRating(rating), Full) == |Repeat(Full, rating / 10)|
  {
  }

  /** `addProductToCart` (and the quick-add button that calls it): one unit of a
      featured product. */
  function AddFeaturedToCart(featured: seq<Product>, cart: seq<StoredLine>, id: ProductId): (r: seq<StoredLine>)
    ensures FindProduct(featured, id).None? ==> r == cart
    ensures FindProduct(featured, id).Some? ==> CartCount(r) == CartCount(cart) + 1
    ensures FindProduct(featured, id).Some? && (forall i :: 0 <= i < |cart| ==> cart[i].id != id) ==>
      var p := FindProduct(featured, id).value;
      r == cart + [StoredLine(p.id, p.name, p.price, p.farmer, 1)]
    ensures FindProduct(featured, id).Some? && (exists i :: 0 <= i < |cart| && cart[i].id == id) ==>
      var k := FindIndex(cart, StoredId, id);
      && |r| == |cart|
      && r[k] == cart[k].(quantity := cart[k].quantity + 1)
      && forall j :: 0 <= j < |cart| && j != k ==> r[j] == cart[j]
  {
    AddKnownProduct(featured, cart, id)
  }

  /** `toggleWishlist`: removes a listed product, adds any other. */
  function ToggleWishlist(st: Store, id: ProductId): (r: Store)
    ensures st.session.None? ==> r == st
    ensures st.session.Some? ==> IsInWishlist(r, id) == !IsInWishlist(st, id)
    ensures forall x :: x != id ==> (IsInWishlist(r, x) <==> IsInWishlist(st, x))
    ensures st.session.Some? ==> r.wishlists == st.wishlists[st.session.value.id := Wishlist(r)]
    ensures r.users == st.users && r.session == st.session && r.orders == st.orders && r.cart == st.cart
  {
    if IsInWishlist(st, id) then RemoveFromWishlist(st, id).1 else AddToWishlist(st, id).1
  }

  /** Toggling an unlisted product twice gives back the same wishlist. */
  lemma {:induction false} ToggleTwiceRestores(st: Store, id: ProductId)
    requires st.session.Some? && !IsInWishlist(st, id)
    ensures Wishlist(ToggleWishlist(ToggleWishlist(st, id), id)) == Wishlist(st)
  {
    var once := ToggleWishlist(st, id);
    assert Wishlist(once) == Wishlist(st) + [id];
    var list := Wishlist(st);
    FilterKeyAppend(list, [id], Ident, id, false);
    assert FilterKey([id], Ident, id, false) == [] by {
      assert [id][1..] == [];
    }
    assert forall i :: 0 <= i < |list| ==> Ident(list[i]) != id;
  }
}
