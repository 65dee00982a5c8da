/** The product service: the query string `getProducts` builds from a filter
    object, and the development stand-in `mockGetProducts` that filters a fixed
    catalogue (passed here as a parameter) and reports paging figures. The HTTP
    call and the simulated delay are left out. */
module ProductService {
  import opened Common
  import opened Text
  import opened Catalogue

  /** A filter value as JavaScript holds it. */
  datatype FilterValue = Undefined | Null | Text(s: string) | Num(n: int) | Bool(b: bool) | List(items: seq<string>)

  /** `value !== undefined && value !== ''`. */
  predicate Sent(v: FilterValue)
  {
    v != Undefined && v != Text("")
  }

  /** How `URLSearchParams.append` renders a value (arrays joined with commas). */
  function Render(v: FilterValue): string
  {
    match v
    case Undefined => "undefined"
    case Null => "null"
    case Text(s) => s
    case Num(n) => IntToString(n)
    case Bool(b) => if b then "true" else "false"
    case List(items) => JoinComma(items)
  }

  /** A filter entry that `getProducts` sends. */
  predicate SentEntry(e: (string, FilterValue))
  {
    Sent(e.1)
  }

  /** `getProducts`' query parameters: one per sent entry, in the filter
      object's key order, each the key with its rendered value; the
      percent-encoding of `toString()` is left out. */
  function QueryParams(filters: seq<(string, FilterValue)>): (r: seq<(string, string)>)
    ensures var sent := Keep(filters, SentEntry);
      && |r| == |sent|
      && forall j :: 0 <= j < |r| ==> r[j] == (sent[j].0, Render(sent[j].1))
    ensures (forall i :: 0 <= i < |filters| ==> !Sent(filters[i].1)) ==> r == []
  {
    if |filters| == 0 then []
    else
      var rest := QueryParams(filters[1..]);
      var tailSent := Keep(filters[1..], SentEntry);
      KeepCons(filters, SentEntry);
      if Sent(filters[0].1) then
        var r := [(filters[0].0, Render(filters[0].1))] + rest;
        var sent := [filters[0]] + tailSent;
        assert forall j :: 1 <= j < |r| ==> r[j] == rest[j - 1] && sent[j] == tailSent[j - 1];
        r
      else rest
  }

  /** Every sent entry appears among the parameters, and every parameter comes
      from a sent entry. */
  lemma QueryParamsMembers(filters: seq<(string, FilterValue)>)
    ensures forall i :: 0 <= i < |filters| && Sent(filters[i].1) ==>
      (filters[i].0, Render(filters[i].1)) in QueryParams(filters)
    ensures forall j :: 0 <= j < |QueryParams(filters)| ==>
      exists i :: 0 <= i < |filters| && Sent(filters[i].1) && QueryParams(filters)[j] == (filters[i].0, Render(filters[i].1))
  {
    var r := QueryParams(filters);
    var sent := Keep(filters, SentEntry);
    KeepMembers(filters, SentEntry);
    forall i | 0 <= i < |filters| && Sent(filters[i].1) ensures (filters[i].0, Render(filters[i].1)) in r {
      assert SentEntry(filters[i]);
      var j :| 0 <= j < |sent| && sent[j] == filters[i];
      assert r[j] == (filters[i].0, Render(filters[i].1));
    }
    forall j | 0 <= j < |r|
      ensures exists i :: 0 <= i < |filters| && Sent(filters[i].1) && r[j] == (filters[i].0, Render(filters[i].1))
    {
      assert sent[j] in filters && SentEntry(sent[j]);
      var i :| 0 <= i < |filters| && filters[i] == sent[j];
    }
  }

  /** An array of comma-free strings can be read back from its parameter. */
  lemma ListParamRoundTrip(items: seq<string>)
    requires |items| >= 1
    requires forall i :: 0 <= i < |items| ==> ',' !in items[i]
    ensures SplitComma(Render(List(items))) == items
  {
    SplitJoinRoundTrip(items);
  }

  /** The filters the stand-in reads; None is a missing key. JavaScript
      truthiness decides which apply. */
  datatype MockQuery = MockQuery(category: Option<string>, inStock: Option<bool>, priceRange: Option<(int, int)>, limit: Option<int>)

  predicate CategoryOk(q: MockQuery, p: Product)
  {
    q.category.Some? && q.category.value != "" ==> Lower(p.category) == Lower(q.category.value)
  }

  predicate StockOk(q: MockQuery, p: Product)
  {
    q.inStock == Some(true) ==> p.inStock
  }

  predicate PriceOk(q: MockQuery, p: Product)
  {
    q.priceRange.Some? ==> q.priceRange.value.0 <= p.price <= q.priceRange.value.1
  }

  /** Whether a product passes every filter that applies. */
  predicate Matches(q: MockQuery, p: Product)
  {
    CategoryOk(q, p) && StockOk(q, p) && PriceOk(q, p)
  }

  /** One filter stage: keeps exactly the products passing `ok`; a stage that
      does not apply passes everything through. */
  function Stage(ps: seq<Product>, applies: bool, ok: Product -> bool): (r: seq<Product>)
    requires !applies ==> forall i :: 0 <= i < |ps| ==> ok(ps[i])
    ensures r == Keep(ps, ok)
  {
    if applies then Keep(ps, ok) else ps
  }

  /** `filters.limit || 12`. */
  function PageSize(limit: Option<int>): (r: int)
    ensures r != 0
    ensures limit.Some? && limit.value != 0 ==> r == limit.value
    ensures limit.None? || limit.value == 0 ==> r == 12
  {
    if limit.Some? && limit.value != 0 then limit.value else 12
  }

  /** `Math.ceil(n / d)` for a non-zero integer divisor of either sign. */
  function CeilDiv(n: nat, d: int): (r: int)
    requires d != 0
    ensures d > 0 ==> (r - 1) * d < n <= r * d
    ensures d < 0 ==> r * d <= n < (r - 1) * d
  {
    if d > 0 then (n + d - 1) / d else -(n / -d)
  }

  datatype ProductPage = ProductPage(products: seq<Product>, totalProducts: int, totalPages: int)

  /** `mockGetProducts`: category (case-insensitively), stock and price range
      filters applied in turn, then the count and the page count. The staged
      result is the catalogue filtered once by `Matches`. */
  function MockGetProducts(catalogue: seq<Product>, q: MockQuery): (r: ProductPage)
    ensures r.products == Keep(catalogue, p => Matches(q, p))
    ensures forall i :: 0 <= i < |r.products| ==> Matches(q, r.products[i]) && r.products[i] in catalogue
    ensures forall i :: 0 <= i < |catalogue| && Matches(q, catalogue[i]) ==> catalogue[i] in r.products
    ensures Subseq(r.products, catalogue)
    ensures r.totalProducts == |r.products| == CountIf(catalogue, p => Matches(q, p))
    ensures r.totalPages == CeilDiv(|r.products|, PageSize(q.limit))
  {
    var byCategory := Stage(catalogue, q.category.Some? && q.category.value != "", p => CategoryOk(q, p));
    var byStock := Stage(byCategory, q.inStock == Some(true), p => StockOk(q, p));
    var byPrice := Stage(byStock, q.priceRange.Some?, p => PriceOk(q, p));
    KeepKeep(catalogue, p => CategoryOk(q, p), p => StockOk(q, p), p => CategoryOk(q, p) && StockOk(q, p));
    KeepKeep(catalogue, p => CategoryOk(q, p) && StockOk(q, p), p => PriceOk(q, p), p => Matches(q, p));
    KeepMembers(catalogue, p => Matches(q, p));
    ProductPage(byPrice, |byPrice|, CeilDiv(|byPrice|, PageSize(q.limit)))
  }

  /** For a positive page size the page count is never negative, and it is
      zero exactly when there is nothing to show. */
  lemma CeilDivPositive(n: nat, d: int)
    requires d > 0
    ensures CeilDiv(n, d) >= 0
    ensures CeilDiv(n, d) == 0 <==> n == 0
  {
    if n == 0 {
      assert (n + d - 1) / d == 0;
    } else {
      assert n + d - 1 >= d;
    }
  }

  /** The stand-in's page figures for a positive page size. */
  lemma PagesOfPositiveSize(catalogue: seq<Product>, q: MockQuery)
    requires PageSize(q.limit) > 0
    ensures var r := MockGetProducts(catalogue, q);
      r.totalPages >= 0 && (r.totalPages == 0 <==> r.totalProducts == 0)
  {
    var r := MockGetProducts(catalogue, q);
    CeilDivPositive(|r.products|, PageSize(q.limit));
  }
}
