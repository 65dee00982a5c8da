/** The cart functions of the static site's shared script. The stored cart is a
    parameter and every mutation returns the cart that would be written back;
    reading and writing local storage, JSON and the toasts are left out. */
module StaticCart {
  import opened Common
  import opened Catalogue

  /** A stored line: exactly the fields `addToCart` copies from its argument.
      The product's unit is not among them. */
  datatype StoredLine = StoredLine(id: ProductId, name: string, price: int, farmer: string, quantity: int)

  function StoredId(l: StoredLine): ProductId
  {
    l.id
  }

  /** The object the pages hand to `addToCart`; `quantity` is None when the
      field is missing. */
  datatype AddRequest = AddRequest(id: ProductId, name: string, price: int, farmer: string, unit: string, quantity: Option<int>)

  /** `product.quantity || 1`: a missing or zero quantity counts as 1. */
  function EffectiveQuantity(quantity: Option<int>): (r: int)
    ensures r != 0
    ensures quantity.Some? && quantity.value != 0 ==> r == quantity.value
    ensures quantity.None? || quantity.value == 0 ==> r == 1
  {
    if quantity.Some? && quantity.value != 0 then quantity.value else 1
  }

  /** `addToCart`: raises the existing line for the id by the effective quantity,
      or appends a line built from the request. */
  function AddToCart(cart: seq<StoredLine>, p: AddRequest): (r: seq<StoredLine>)
    ensures (forall i :: 0 <= i < |cart| ==> cart[i].id != p.id) ==>
      r == cart + [StoredLine(p.id, p.name, p.price, p.farmer, EffectiveQuantity(p.quantity))]
    ensures forall i :: 0 <= i < |cart| && cart[i].id == p.id ==>
      && |r| == |cart|
      && var k := FindIndex(cart, StoredId, p.id);
         && r[k] == cart[k].(quantity := cart[k].quantity + EffectiveQuantity(p.quantity))
         && forall j :: 0 <= j < |cart| && j != k ==> r[j] == cart[j]
  {
    var q := EffectiveQuantity(p.quantity);
    var k := FindIndex(cart, StoredId, p.id);
    if k == -1 then cart + [StoredLine(p.id, p.name, p.price, p.farmer, q)]
    else cart[k := cart[k].(quantity := cart[k].quantity + q)]
  }

  /** `removeFromCart`: every line with the id goes, the rest keep their order. */
  function RemoveFromCart(cart: seq<StoredLine>, id: ProductId): (r: seq<StoredLine>)
    ensures forall i :: 0 <= i < |r| ==> r[i].id != id && r[i] in cart
    ensures forall i :: 0 <= i < |cart| && cart[i].id != id ==> cart[i] in r
    ensures Subseq(r, cart)
    ensures |r| == |cart| - CountKey(cart, StoredId, id)
    ensures (forall i :: 0 <= i < |cart| ==> cart[i].id != id) ==> r == cart
  {
    FilterKey(cart, StoredId, id, false)
  }

  /** Removing keeps at most one line per product id. */
  lemma RemoveFromCartOneLinePerId(cart: seq<StoredLine>, id: ProductId)
    requires UniqueKeys(cart, StoredId)
    ensures UniqueKeys(RemoveFromCart(cart, id), StoredId)
  {
    FilterKeyUnique(cart, StoredId, id, false);
  }

  /** With one line per id, removing a present id takes exactly that line out of
      the header count and out of the total. */
  lemma {:induction false} RemoveFromCartCounts(cart: seq<StoredLine>, k: int)
    requires 0 <= k < |cart|
    requires forall j :: 0 <= j < |cart| && j != k ==> cart[j].id != cart[k].id
    ensures var r := RemoveFromCart(cart, cart[k].id);
      && CartCount(r) == CartCount(cart) - cart[k].quantity
      && CartTotal(r) == CartTotal(cart) - cart[k].price * cart[k].quantity
    decreases k
  {
    var id := cart[k].id;
    if k == 0 {
      assert forall j :: 0 <= j < |cart[1..]| ==> cart[1..][j].id != id by {
        forall j | 0 <= j < |cart[1..]| ensures cart[1..][j].id != id {
          assert cart[1..][j] == cart[j + 1];
        }
      }
    } else {
      var tail := cart[1..];
      assert tail[k - 1] == cart[k];
      forall j | 0 <= j < |tail| && j != k - 1
        ensures tail[j].id != tail[k - 1].id
      {
        assert tail[j] == cart[j + 1];
      }
      RemoveFromCartCounts(tail, k - 1);
    }
  }

  /** What `updateCartQuantity` writes back and what it returns. */
  datatype QuantityUpdate = QuantityUpdate(stored: seq<StoredLine>, returned: seq<StoredLine>)

  /** `updateCartQuantity`: an absent id changes nothing; a quantity <= 0 removes
      the line (through `removeFromCart`) but returns the cart as it was before
      the removal; any other quantity replaces the first matching line's. */
  function UpdateCartQuantity(cart: seq<StoredLine>, id: ProductId, quantity: int): (r: QuantityUpdate)
    ensures (forall i :: 0 <= i < |cart| ==> cart[i].id != id) ==> r.stored == cart && r.returned == cart
    ensures quantity <= 0 ==> r.returned == cart && r.stored == RemoveFromCart(cart, id)
    ensures quantity > 0 ==> r.returned == r.stored
    ensures quantity > 0 ==> forall i :: 0 <= i < |cart| && cart[i].id == id ==>
      && |r.stored| == |cart|
      && var k := FindIndex(cart, StoredId, id);
         && r.stored[k] == cart[k].(quantity := quantity)
         && forall j :: 0 <= j < |cart| && j != k ==> r.stored[j] == cart[j]
  {
    var k := FindIndex(cart, StoredId, id);
    if k == -1 then QuantityUpdate(cart, cart)
    else if quantity <= 0 then QuantityUpdate(RemoveFromCart(cart, id), cart)
    else
      var updated := cart[k := cart[k].(quantity := quantity)];
      QuantityUpdate(updated, updated)
  }

  /** The number in the header badge: Σ quantity. */
  function CartCount(cart: seq<StoredLine>): int
  {
    if |cart| == 0 then 0 else cart[0].quantity + CartCount(cart[1..])
  }

  /** `getCartTotal`: Σ price × quantity. */
  function CartTotal(cart: seq<StoredLine>): int
  {
    if |cart| == 0 then 0 else cart[0].price * cart[0].quantity + CartTotal(cart[1..])
  }

  /** Changing one line moves the count and the total by that line's difference. */
  lemma {:induction false} CountsUpdateAt(cart: seq<StoredLine>, k: int, x: StoredLine)
    requires 0 <= k < |cart|
    ensures CartCount(cart[k := x]) == CartCount(cart) - cart[k].quantity + x.quantity
    ensures CartTotal(cart[k := x]) == CartTotal(cart) - cart[k].price * cart[k].quantity + x.price * x.quantity
    decreases k
  {
    if k > 0 {
      CountsUpdateAt(cart[1..], k - 1, x);
      assert cart[k := x][1..] == cart[1..][k - 1 := x];
    }
  }

  lemma {:induction false} CountsAppend(a: seq<StoredLine>, b: seq<StoredLine>)
    ensures CartCount(a + b) == CartCount(a) + CartCount(b)
    ensures CartTotal(a + b) == CartTotal(a) + CartTotal(b)
    decreases |a|
  {
    if |a| == 0 {
      assert a + b == b;
    } else {
      assert (a + b)[0] == a[0];
      assert (a + b)[1..] == a[1..] + b;
      CountsAppend(a[1..], b);
    }
  }

  /** Adding moves the header count by exactly the effective quantity, and the
      total by that quantity at the price stored on the line. */
  lemma AddToCartCounts(cart: seq<StoredLine>, p: AddRequest)
    ensures var r := AddToCart(cart, p);
      var q := EffectiveQuantity(p.quantity);
      var k := FindIndex(cart, StoredId, p.id);
      && CartCount(r) == CartCount(cart) + q
      && CartTotal(r) == CartTotal(cart) + q * (if k == -1 then p.price else cart[k].price)
  {
    var q := EffectiveQuantity(p.quantity);
    var k := FindIndex(cart, StoredId, p.id);
    if k == -1 {
      var line := StoredLine(p.id, p.name, p.price, p.farmer, q);
      assert AddToCart(cart, p) == cart + [line];
      CountsAppendOne(cart, line);
    } else {
      var line := cart[k].(quantity := cart[k].quantity + q);
      assert AddToCart(cart, p) == cart[k := line];
      CountsUpdateAt(cart, k, line);
      RaiseBy(cart[k].price, cart[k].quantity, q);
    }
  }

  lemma CountsAppendOne(cart: seq<StoredLine>, line: StoredLine)
    ensures CartCount(cart + [line]) == CartCount(cart) + line.quantity
    ensures CartTotal(cart + [line]) == CartTotal(cart) + line.quantity * line.price
  {
    CountsAppend(cart, [line]);
    assert [line][1..] == [];
  }

  lemma RaiseBy(price: int, quantity: int, q: int)
    ensures price * (quantity + q) - price * quantity == q * price
  {
  }

  /** Adding keeps at most one line per product id. */
  lemma AddToCartOneLinePerId(cart: seq<StoredLine>, p: AddRequest)
    requires UniqueKeys(cart, StoredId)
    ensures UniqueKeys(AddToCart(cart, p), StoredId)
  {
    var k := FindIndex(cart, StoredId, p.id);
    if k == -1 {
      AppendFreshUnique(cart, StoredId, StoredLine(p.id, p.name, p.price, p.farmer, EffectiveQuantity(p.quantity)));
    } else {
      var x := cart[k].(quantity := cart[k].quantity + EffectiveQuantity(p.quantity));
      assert cart[k := x] == ReplaceFirst(cart, StoredId, x);
      ReplaceFirstUnique(cart, StoredId, x);
    }
  }

  /** `addToCartFromList` (catalogue page) and `addProductToCart` (home page):
      a known id adds one unit of that product, an unknown id does nothing. */
  function AddKnownProduct(products: seq<Product>, cart: seq<StoredLine>, id: ProductId): (r: seq<StoredLine>)
    ensures FindProduct(products, id).None? ==> r == cart
    ensures FindProduct(products, id).Some? ==> CartCount(r) == CartCount(cart) + 1
    ensures FindProduct(products, id).Some? && (forall i :: 0 <= i < |cart| ==> cart[i].id != id) ==>
      var p := FindProduct(products, id).value;
      r == cart + [StoredLine(p.id, p.name, p.price, p.farmer, 1)]
    ensures FindProduct(products, id).Some? && (exists i :: 0 <= i < |cart| && cart[i].id == id) ==>
      var k := FindIndex(cart, StoredId, id);
      && |r| == |cart|
      && r[k] == cart[k].(quantity := cart[k].quantity + 1)
      && forall j :: 0 <= j < |cart| && j != k ==> r[j] == cart[j]
  {
    match FindProduct(products, id)
    case None => cart
    case Some(p) =>
      var request := AddRequest(p.id, p.name, p.price, p.farmer, p.unit, Some(1));
      AddToCartCounts(cart, request);
      AddToCart(cart, request)
  }
}
