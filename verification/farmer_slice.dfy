/** The application's farmer slice: the farmer directory, the farmer being
    viewed, a farmer's own products and analytics, and three independent loading
    flags. The thunks' network calls are left out; their results arrive as
    action payloads. */
module FarmerSlice {
  import opened Common
  import opened Catalogue

  /** A farmer record as the service returns it; the slice only moves it around. */
  datatype Farmer = Farmer(id: string, name: string, farmName: string, location: string)

  /** Monthly revenue is a pair of month label and amount. */
  datatype Analytics = Analytics(
    totalSales: int,
    totalOrders: int,
    popularProducts: seq<Product>,
    monthlyRevenue: seq<(string, int)>,
    recentOrders: seq<string>)

  datatype FarmerState = FarmerState(
    farmers: seq<Farmer>,
    currentFarmer: Option<Farmer>,
    farmerProducts: seq<Product>,
    analytics: Analytics,
    isLoading: bool,
    error: Option<string>,
    profileUpdateLoading: bool,
    productActionLoading: bool)

  function InitialState(): (r: FarmerState)
    ensures r.farmers == [] && r.currentFarmer.None? && r.farmerProducts == []
    ensures r.analytics.totalSales == 0 && r.analytics.totalOrders == 0
    ensures r.analytics.popularProducts == [] && r.analytics.monthlyRevenue == [] && r.analytics.recentOrders == []
    ensures !r.isLoading && !r.profileUpdateLoading && !r.productActionLoading && r.error.None?
  {
    FarmerState([], None, [], Analytics(0, 0, [], [], []), false, None, false, false)
  }

  /** The three request families, one loading flag each. */
  datatype Flag = Directory | Profile | ProductAction

  datatype Phase = Pending | Rejected(err: Option<string>)

  datatype Action =
    | ClearError | ClearCurrentFarmer | ClearFarmerProducts
    | Lifecycle(flag: Flag, phase: Phase)
    | FarmersFetched(farmers: seq<Farmer>)
    | FarmerFetched(farmer: Farmer)
    | ProfileUpdated(farmer: Farmer)
    | ProductsFetched(products: seq<Product>)
    | ProductAdded(product: Product)
    | ProductUpdated(product: Product)
    | ProductDeleted(id: ProductId)
    | AnalyticsFetched(analytics: Analytics)

  function FlagValue(s: FarmerState, f: Flag): bool
  {
    match f
    case Directory => s.isLoading
    case Profile => s.profileUpdateLoading
    case ProductAction => s.productActionLoading
  }

  function SetFlag(s: FarmerState, f: Flag, b: bool): (r: FarmerState)
    ensures FlagValue(r, f) == b
    ensures forall g :: g != f ==> FlagValue(r, g) == FlagValue(s, g)
  {
    match f
    case Directory => s.(isLoading := b)
    case Profile => s.(profileUpdateLoading := b)
    case ProductAction => s.(productActionLoading := b)
  }

  /** The flag an action lowers when it settles a request, if any. The product
      fetch, the delete and the analytics fetch have no lifecycle cases. */
  function SettledFlag(a: Action): Option<Flag>
  {
    match a
    case Lifecycle(f, Rejected(_)) => Some(f)
    case FarmersFetched(_) => Some(Directory)
    case FarmerFetched(_) => Some(Directory)
    case ProfileUpdated(_) => Some(Profile)
    case ProductAdded(_) => Some(ProductAction)
    case ProductUpdated(_) => Some(ProductAction)
    case _ => None
  }

  /** `updateFarmerProduct.fulfilled`: the first product with the payload's id
      is replaced; an unknown id leaves the list alone. */
  function UpdateProduct(ps: seq<Product>, p: Product): (r: seq<Product>)
    ensures |r| == |ps|
    ensures FindIndex(ps, ProductKey, p.id) == -1 ==> r == ps
    ensures var k := FindIndex(ps, ProductKey, p.id); k != -1 ==> r == ps[k := p]
  {
    var k := FindIndex(ps, ProductKey, p.id);
    if k == -1 then ps else ps[k := p]
  }

  /** `deleteFarmerProduct.fulfilled`: every product with the id goes. */
  function DeleteProduct(ps: seq<Product>, id: ProductId): (r: seq<Product>)
    ensures forall i :: 0 <= i < |r| ==> r[i].id != id && r[i] in ps
    ensures forall i :: 0 <= i < |ps| && ps[i].id != id ==> ps[i] in r
    ensures Subseq(r, ps)
    ensures |r| == |ps| - CountKey(ps, ProductKey, id)
  {
    FilterKey(ps, ProductKey, id, false)
  }

  /** The slice reducer. Each collection changes only through the cases that
      carry it, and the two clear cases touch only their own field. */
  function Reduce(s: FarmerState, a: Action): (r: FarmerState)
    ensures r.farmers != s.farmers ==> a.FarmersFetched?
    ensures r.analytics != s.analytics ==> a.AnalyticsFetched?
    ensures r.farmerProducts != s.farmerProducts ==>
      a.ClearFarmerProducts? || a.ProductsFetched? || a.ProductAdded? || a.ProductUpdated? || a.ProductDeleted?
    ensures r.currentFarmer != s.currentFarmer ==> a.ClearCurrentFarmer? || a.FarmerFetched? || a.ProfileUpdated?
    ensures a.ClearError? ==> r.error.None? && r.(error := s.error) == s
    ensures a.ClearCurrentFarmer? ==> r.currentFarmer.None? && r.(currentFarmer := s.currentFarmer) == s
    ensures a.ClearFarmerProducts? ==> r.farmerProducts == [] && r.(farmerProducts := s.farmerProducts) == s
    ensures a.ProductAdded? ==>
      && |r.farmerProducts| == |s.farmerProducts| + 1
      && r.farmerProducts[0] == a.product && r.farmerProducts[1..] == s.farmerProducts
      && !r.productActionLoading
    ensures a.ProductUpdated? ==> r.farmerProducts == UpdateProduct(s.farmerProducts, a.product) && !r.productActionLoading
    ensures a.ProductDeleted? ==> r.farmerProducts == DeleteProduct(s.farmerProducts, a.id)
  {
    match a
    case ClearError => s.(error := None)
    case ClearCurrentFarmer => s.(currentFarmer := None)
    case ClearFarmerProducts => s.(farmerProducts := [])
    case Lifecycle(f, Pending) => SetFlag(s, f, true).(error := None)
    case Lifecycle(f, Rejected(e)) => SetFlag(s, f, false).(error := e)
    case FarmersFetched(fs) => s.(isLoading := false, farmers := fs)
    case FarmerFetched(x) => s.(isLoading := false, currentFarmer := Some(x))
    case ProfileUpdated(x) => s.(profileUpdateLoading := false, currentFarmer := Some(x))
    case ProductsFetched(ps) => s.(farmerProducts := ps)
    case ProductAdded(p) => s.(productActionLoading := false, farmerProducts := [p] + s.farmerProducts)
    case ProductUpdated(p) => s.(productActionLoading := false, farmerProducts := UpdateProduct(s.farmerProducts, p))
    case ProductDeleted(id) => s.(farmerProducts := DeleteProduct(s.farmerProducts, id))
    case AnalyticsFetched(x) => s.(analytics := x)
  }

  /** Each action moves at most one loading flag: a pending case raises its own
      family's flag, a settling case lowers it, and nothing else touches any. */
  lemma {:induction false} FlagsIndependent(s: FarmerState, a: Action, g: Flag)
    ensures a.Lifecycle? && a.phase.Pending? ==> FlagValue(Reduce(s, a), a.flag)
    ensures SettledFlag(a) == Some(g) ==> !FlagValue(Reduce(s, a), g)
    ensures !(a.Lifecycle? && a.flag == g) && SettledFlag(a) != Some(g) ==>
      FlagValue(Reduce(s, a), g) == FlagValue(s, g)
  {
    match a
    case Lifecycle(f, Pending) =>
      var t := SetFlag(s, f, true);
      assert FlagValue(t.(error := None), g) == FlagValue(t, g);
    case Lifecycle(f, Rejected(e)) =>
      var t := SetFlag(s, f, false);
      assert FlagValue(t.(error := e), g) == FlagValue(t, g);
    case _ =>
  }

  /** Only pending cases and `clearError` clear the error; only rejected cases set it. */
  lemma ErrorDiscipline(s: FarmerState, a: Action)
    ensures Reduce(s, a).error != s.error ==>
      a == ClearError || (a.Lifecycle? && (a.phase.Pending? || Reduce(s, a).error == a.phase.err))
  {
  }

  /** Adding a product and then deleting its id leaves exactly what deleting
      the id from the old list leaves: the added product goes along with every
      earlier copy, and the rest keep their order. */
  lemma AddThenDelete(s: FarmerState, p: Product)
    ensures var r := Reduce(Reduce(s, ProductAdded(p)), ProductDeleted(p.id));
      r.farmerProducts == DeleteProduct(s.farmerProducts, p.id)
  {
    var t := Reduce(s, ProductAdded(p));
    assert t.farmerProducts == [p] + s.farmerProducts;
    assert Reduce(t, ProductDeleted(p.id)).farmerProducts == DeleteProduct(t.farmerProducts, p.id);
    FilterKeyAppend([p], s.farmerProducts, ProductKey, p.id, false);
    assert FilterKey([p], ProductKey, p.id, false) == [] by {
      assert [p][1..] == [];
    }
  }

  /** Because an added product goes to the front, a later update with the
      same id replaces the new product and leaves the older list untouched,
      even when it already held a product with that id. */
  lemma AddThenUpdate(s: FarmerState, p: Product, q: Product)
    requires q.id == p.id
    ensures Reduce(Reduce(s, ProductAdded(p)), ProductUpdated(q)).farmerProducts == [q] + s.farmerProducts
  {
    var t := Reduce(s, ProductAdded(p));
    assert FindIndex(t.farmerProducts, ProductKey, q.id) == 0;
    assert t.farmerProducts[0 := q] == [q] + s.farmerProducts;
  }

  /** Updating a listed product keeps the product ids at their positions. */
  lemma UpdateKeepsIds(ps: seq<Product>, p: Product)
    ensures forall i :: 0 <= i < |ps| ==> UpdateProduct(ps, p)[i].id == ps[i].id
  {
  }
}
