/** The static catalogue page: its filter panel, its sort menu, its star
    display and its reset button. The product list is a parameter (the page
    reads it from storage, or falls back to built-in data); the DOM is left out
    and the panel's state arrives as values. */
module ProductsPage {
  import opened Common
  import opened Catalogue

  /** The rating radio group: "all", or a minimum rating in tenths. */
  datatype RatingChoice = AnyRating | AtLeast(tenths: nat)

  /** The three tests `applyFilters` combines for one product. */
  predicate PassesPanel(p: Product, categories: seq<string>, maxPrice: int, rating: RatingChoice)
  {
    && ("all" in categories || p.category in categories)
    && p.price <= maxPrice
    && (rating.AtLeast? ==> p.rating >= rating.tenths)
  }

  /** `applyFilters`: the products passing every test, in catalogue order. */
  function ApplyFilters(all: seq<Product>, categories: seq<string>, maxPrice: int, rating: RatingChoice): (r: seq<Product>)
    ensures forall i :: 0 <= i < |r| ==> r[i] in all && PassesPanel(r[i], categories, maxPrice, rating)
    ensures forall i :: 0 <= i < |all| && PassesPanel(all[i], categories, maxPrice, rating) ==> all[i] in r
    ensures Subseq(r, all)
    ensures |r| == CountIf(all, p => PassesPanel(p, categories, maxPrice, rating))
  {
    KeepMembers(all, p => PassesPanel(p, categories, maxPrice, rating));
    Keep(all, p => PassesPanel(p, categories, maxPrice, rating))
  }

  /** `resetFilters` shows the whole list again; that is what the panel state it
      sets ("all" ticked, price slider at 1000, any rating) selects whenever no
      product costs more than 1000. */
  lemma ResetMatchesPanel(all: seq<Product>)
    requires forall i :: 0 <= i < |all| ==> all[i].price <= 1000
    ensures ApplyFilters(all, ["all"], 1000, AnyRating) == all
  {
  }

  predicate SortedBy(s: seq<Product>, key: Product -> int)
  {
    forall i, j :: 0 <= i < j < |s| ==> key(s[i]) <= key(s[j])
  }

  /** Places `x` before the first element whose key is not smaller. */
  function Insert(x: Product, s: seq<Product>, key: Product -> int): (r: seq<Product>)
    requires SortedBy(s, key)
    ensures SortedBy(r, key)
    ensures multiset(r) == multiset(s) + multiset{x}
    ensures |r| == |s| + 1
  {
    if |s| == 0 then [x]
    else if key(x) <= key(s[0]) then [x] + s
    else
      var rest := Insert(x, s[1..], key);
      assert s == [s[0]] + s[1..];
      assert forall j :: 0 <= j < |s[1..]| ==> key(s[0]) <= key(s[1..][j]) by {
        forall j | 0 <= j < |s[1..]| ensures key(s[0]) <= key(s[1..][j]) {
          assert s[1..][j] == s[j + 1];
        }
      }
      LowerBound(rest, s[1..], x, key, key(s[0]));
      SortedCons(s[0], rest, key);
      assert multiset([s[0]] + rest) == multiset{s[0]} + multiset(rest);
      [s[0]] + rest
  }

  /** An element no larger than any of a sorted sequence can go in front. */
  lemma SortedCons(h: Product, t: seq<Product>, key: Product -> int)
    requires SortedBy(t, key)
    requires forall j :: 0 <= j < |t| ==> key(h) <= key(t[j])
    ensures SortedBy([h] + t, key)
  {
    var r := [h] + t;
    forall i, j | 0 <= i < j < |r| ensures key(r[i]) <= key(r[j]) {
      assert r[j] == t[j - 1];
      if i > 0 {
        assert r[i] == t[i - 1];
      }
    }
  }

  /** A lower bound on the keys of `u` and of `x` bounds every element of a
      sequence holding exactly those. */
  lemma LowerBound(t: seq<Product>, u: seq<Product>, x: Product, key: Product -> int, b: int)
    requires multiset(t) == multiset(u) + multiset{x}
    requires b <= key(x)
    requires forall j :: 0 <= j < |u| ==> b <= key(u[j])
    ensures forall i :: 0 <= i < |t| ==> b <= key(t[i])
  {
    forall i | 0 <= i < |t| ensures b <= key(t[i]) {
      assert t[i] in multiset(t);
      if t[i] != x {
        assert t[i] in multiset(u);
        var j :| 0 <= j < |u| && u[j] == t[i];
      }
    }
  }

  /** Sorts by ascending key. */
  function SortByKey(s: seq<Product>, key: Product -> int): (r: seq<Product>)
    ensures SortedBy(r, key)
    ensures multiset(r) == multiset(s)
    ensures |r| == |s|
  {
    if |s| == 0 then []
    else
      assert s == [s[0]] + s[1..];
      Insert(s[0], SortByKey(s[1..], key), key)
  }

  function PriceKey(p: Product): int
  {
    p.price
  }

  function NegPriceKey(p: Product): int
  {
    -p.price
  }

  function NegRatingKey(p: Product): int
  {
    -(p.rating as int)
  }

  /** `sortProducts`: cheapest first, dearest first or best rated first; any
      other choice goes back to the whole list and so drops the filters. */
  function SortProducts(filtered: seq<Product>, all: seq<Product>, sortBy: string): (r: seq<Product>)
    ensures sortBy == "price-low" ==> forall i, j :: 0 <= i < j < |r| ==> r[i].price <= r[j].price
    ensures sortBy == "price-high" ==> forall i, j :: 0 <= i < j < |r| ==> r[i].price >= r[j].price
    ensures sortBy == "rating" ==> forall i, j :: 0 <= i < j < |r| ==> r[i].rating >= r[j].rating
    ensures sortBy in ["price-low", "price-high", "rating"] ==> multiset(r) == multiset(filtered)
    ensures sortBy !in ["price-low", "price-high", "rating"] ==> r == all
  {
    if sortBy == "price-low" then
      var r := SortByKey(filtered, PriceKey);
      assert forall i, j :: 0 <= i < j < |r| ==> PriceKey(r[i]) <= PriceKey(r[j]);
      r
    else if sortBy == "price-high" then
      var r := SortByKey(filtered, NegPriceKey);
      assert forall i, j :: 0 <= i < j < |r| ==> NegPriceKey(r[i]) <= NegPriceKey(r[j]);
      r
    else if sortBy == "rating" then
      var r := SortByKey(filtered, NegRatingKey);
      assert forall i, j :: 0 <= i < j < |r| ==> NegRatingKey(r[i]) <= NegRatingKey(r[j]);
      r
    else all
  }

  /** Sorting a filtered list shows the same products, so every one still
      passes the panel. */
  lemma SortKeepsFilter(all: seq<Product>, categories: seq<string>, maxPrice: int, rating: RatingChoice, sortBy: string)
    requires sortBy in ["price-low", "price-high", "rating"]
    ensures var r := SortProducts(ApplyFilters(all, categories, maxPrice, rating), all, sortBy);
      forall i :: 0 <= i < |r| ==> PassesPanel(r[i], categories, maxPrice, rating)
  {
    var f := ApplyFilters(all, categories, maxPrice, rating);
    var r := SortProducts(f, all, sortBy);
    forall i | 0 <= i < |r| ensures PassesPanel(r[i], categories, maxPrice, rating) {
      assert r[i] in multiset(r);
      assert r[i] in multiset(f);
    }
  }

  /** `createStars`: one full star per whole star of the rating. */
  function CreateStars(rating: nat): (r: seq<Star>)
    ensures |r| == rating / 10
    ensures CountStars(r, Full) == |r|
    ensures |r| * 10 <= rating < (|r| + 1) * 10
  {
    Repeat(Full, rating / 10)
  }
}
