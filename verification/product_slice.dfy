/** The application's product slice: the filter set with its patch-merge
    reducer, the pagination figures, and the request-lifecycle cases of its
    thunks. The thunks' network calls are left out; their results arrive as
    action payloads. */
module ProductSlice {
  import opened Common
  import opened Catalogue
  import opened ProductService

  /** The filter set; `search` is absent until a search is submitted. */
  datatype Filters = Filters(
    category: string,
    priceRange: (int, int),
    location: string,
    inStock: bool,
    sortBy: string,
    search: Option<string>)

  const DefaultFilters: Filters := Filters("", (0, 1000), "", true, "newest", None)

  /** An `updateFilters` payload: None marks a key the payload does not carry. */
  datatype FiltersPatch = FiltersPatch(
    category: Option<string>,
    priceRange: Option<(int, int)>,
    location: Option<string>,
    inStock: Option<bool>,
    sortBy: Option<string>,
    search: Option<string>)

  const EmptyPatch: FiltersPatch := FiltersPatch(None, None, None, None, None, None)

  function Pick<T>(patched: Option<T>, current: T): T
  {
    if patched.Some? then patched.value else current
  }

  /** `{ ...filters, ...patch }`. */
  function UpdateFilters(f: Filters, p: FiltersPatch): (r: Filters)
    ensures p.category.Some? ==> r.category == p.category.value
    ensures p.category.None? ==> r.category == f.category
    ensures p.priceRange.Some? ==> r.priceRange == p.priceRange.value
    ensures p.priceRange.None? ==> r.priceRange == f.priceRange
    ensures p.location.Some? ==> r.location == p.location.value
    ensures p.location.None? ==> r.location == f.location
    ensures p.inStock.Some? ==> r.inStock == p.inStock.value
    ensures p.inStock.None? ==> r.inStock == f.inStock
    ensures p.sortBy.Some? ==> r.sortBy == p.sortBy.value
    ensures p.sortBy.None? ==> r.sortBy == f.sortBy
    ensures p.search.Some? ==> r.search == p.search
    ensures p.search.None? ==> r.search == f.search
  {
    Filters(
      Pick(p.category, f.category),
      Pick(p.priceRange, f.priceRange),
      Pick(p.location, f.location),
      Pick(p.inStock, f.inStock),
      Pick(p.sortBy, f.sortBy),
      if p.search.Some? then p.search else f.search)
  }

  /** The patch equivalent to applying `p` and then `q`: `q` wins where it speaks. */
  function Then(p: FiltersPatch, q: FiltersPatch): FiltersPatch
  {
    FiltersPatch(
      if q.category.Some? then q.category else p.category,
      if q.priceRange.Some? then q.priceRange else p.priceRange,
      if q.location.Some? then q.location else p.location,
      if q.inStock.Some? then q.inStock else p.inStock,
      if q.sortBy.Some? then q.sortBy else p.sortBy,
      if q.search.Some? then q.search else p.search)
  }

  /** Patching is idempotent, two patches compose into one, and the empty
      patch changes nothing. */
  lemma UpdateFiltersAlgebra(f: Filters, p: FiltersPatch, q: FiltersPatch)
    ensures UpdateFilters(UpdateFilters(f, p), p) == UpdateFilters(f, p)
    ensures UpdateFilters(UpdateFilters(f, p), q) == UpdateFilters(f, Then(p, q))
    ensures UpdateFilters(f, EmptyPatch) == f
  {
  }

  datatype Pagination = Pagination(currentPage: int, totalPages: int, totalProducts: int, limit: int)

  datatype ProductState = ProductState(
    products: seq<Product>,
    currentProduct: Option<Product>,
    categories: seq<string>,
    seasonalProducts: seq<Product>,
    searchResults: seq<Product>,
    filters: Filters,
    pagination: Pagination,
    isLoading: bool,
    error: Option<string>,
    searchLoading: bool)

  function InitialState(): (r: ProductState)
    ensures r.products == [] && r.currentProduct.None? && r.searchResults == []
    ensures r.categories == [] && r.seasonalProducts == []
    ensures r.filters == DefaultFilters
    ensures r.pagination == Pagination(1, 1, 0, 12)
    ensures !r.isLoading && !r.searchLoading && r.error.None?
  {
    ProductState([], None, [], [], [], DefaultFilters, Pagination(1, 1, 0, 12), false, None, false)
  }

  datatype Action =
    | ClearError
    | UpdateFiltersAction(patch: FiltersPatch)
    | ClearFilters
    | SetCurrentPage(page: int)
    | ClearSearchResults
    | ClearCurrentProduct
    | FetchPending | FetchFulfilled(payload: ProductPage) | FetchRejected(err: Option<string>)
    | FetchByIdPending | FetchByIdFulfilled(product: Product) | FetchByIdRejected(err: Option<string>)
    | SearchPending | SearchFulfilled(results: seq<Product>) | SearchRejected(err: Option<string>)
    | CategoriesFetched(categories: seq<string>)
    | SeasonalFetched(products: seq<Product>)

  /** `fetchProducts.fulfilled`: the page's products and counts replace the old
      ones; the current page and the page size are kept. */
  function FetchFulfilledState(s: ProductState, page: ProductPage): (r: ProductState)
    ensures r.products == page.products && !r.isLoading
    ensures r.pagination.totalPages == page.totalPages && r.pagination.totalProducts == page.totalProducts
    ensures r.pagination.currentPage == s.pagination.currentPage && r.pagination.limit == s.pagination.limit
    ensures r.error == s.error && r.filters == s.filters && r.searchLoading == s.searchLoading
    ensures r.currentProduct == s.currentProduct && r.categories == s.categories
    ensures r.seasonalProducts == s.seasonalProducts && r.searchResults == s.searchResults
  {
    s.(isLoading := false, products := page.products,
       pagination := s.pagination.(totalPages := page.totalPages, totalProducts := page.totalProducts))
  }

  /** The slice reducer. The synchronous cases touch only their own field, and
      the product list changes only when a fetch delivers a page. */
  function Reduce(s: ProductState, a: Action): (r: ProductState)
    ensures a.ClearError? ==> r.error.None? && r.(error := s.error) == s
    ensures a.UpdateFiltersAction? ==> r.filters == UpdateFilters(s.filters, a.patch) && r.(filters := s.filters) == s
    ensures a.ClearFilters? ==> r.filters == DefaultFilters && r.(filters := s.filters) == s
    ensures a.SetCurrentPage? ==>
      && r.pagination.currentPage == a.page
      && r.pagination.(currentPage := s.pagination.currentPage) == s.pagination
      && r.(pagination := s.pagination) == s
    ensures a.ClearSearchResults? ==> r.searchResults == [] && r.(searchResults := s.searchResults) == s
    ensures a.ClearCurrentProduct? ==> r.currentProduct.None? && r.(currentProduct := s.currentProduct) == s
    ensures r.products != s.products ==> a.FetchFulfilled?
    ensures r.filters != s.filters ==> a.UpdateFiltersAction? || a.ClearFilters?
  {
    match a
    case ClearError => s.(error := None)
    case UpdateFiltersAction(p) => s.(filters := UpdateFilters(s.filters, p))
    case ClearFilters => s.(filters := DefaultFilters)
    case SetCurrentPage(n) => s.(pagination := s.pagination.(currentPage := n))
    case ClearSearchResults => s.(searchResults := [])
    case ClearCurrentProduct => s.(currentProduct := None)
    case FetchPending => s.(isLoading := true, error := None)
    case FetchFulfilled(page) => FetchFulfilledState(s, page)
    case FetchRejected(e) => s.(isLoading := false, error := e)
    case FetchByIdPending => s.(isLoading := true, error := None)
    case FetchByIdFulfilled(p) => s.(isLoading := false, currentProduct := Some(p))
    case FetchByIdRejected(e) => s.(isLoading := false, error := e)
    case SearchPending => s.(searchLoading := true)
    case SearchFulfilled(rs) => s.(searchLoading := false, searchResults := rs)
    case SearchRejected(e) => s.(searchLoading := false, error := e)
    case CategoriesFetched(cs) => s.(categories := cs)
    case SeasonalFetched(ps) => s.(seasonalProducts := ps)
  }

  /** Search requests only move the search flag, other requests only the main
      one; and unlike the other pending cases, a search does not clear an error. */
  lemma LoadingFlagsSeparate(s: ProductState, a: Action)
    ensures a.SearchPending? || a.SearchFulfilled? || a.SearchRejected? ==> Reduce(s, a).isLoading == s.isLoading
    ensures !(a.SearchPending? || a.SearchFulfilled? || a.SearchRejected?) ==> Reduce(s, a).searchLoading == s.searchLoading
    ensures Reduce(s, SearchPending).error == s.error
  {
  }

  /** The page size the stand-in service is asked for never reaches the slice's
      state: a fetch keeps the slice's own `limit`, and the product count it
      shows is the length of the list it shows. */
  lemma FetchFromMockConsistent(s: ProductState, catalogue: seq<Product>, q: MockQuery)
    ensures var r := Reduce(s, FetchFulfilled(MockGetProducts(catalogue, q)));
      && r.pagination.totalProducts == |r.products|
      && r.pagination.limit == s.pagination.limit
      && forall i :: 0 <= i < |r.products| ==> Matches(q, r.products[i])
  {
  }

  /** The slice's own filters as the stand-in reads them; the page size is left
      to the stand-in's default. */
  function AsMockQuery(f: Filters): MockQuery
  {
    MockQuery(Some(f.category), Some(f.inStock), Some(f.priceRange), None)
  }

  /** Under the default filters the stand-in returns exactly the in-stock
      products priced from 0 to 1000. */
  lemma DefaultFiltersSelect(p: Product)
    ensures Matches(AsMockQuery(DefaultFilters), p) <==> p.inStock && 0 <= p.price <= 1000
  {
  }
}
