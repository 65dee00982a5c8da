/** The cart slice of the single-page application: a sequence of line items
    keyed by product id, an open/closed flag for the sidebar, and the derived
    totals that `calculateTotals` recomputes after every item mutation.
    Persisting the items to local storage is left out; the rehydrated items are
    a parameter of the initial state. */
module CartSlice {
  import opened Common
  import opened Catalogue

  /** A line item: a snapshot of the product, its quantity and when it was added. */
  datatype CartLine = CartLine(product: Product, quantity: int, addedAt: string)

  function LineId(l: CartLine): ProductId
  {
    l.product.id
  }

  datatype CartState = CartState(
    items: seq<CartLine>,
    isOpen: bool,
    totalItems: int,
    totalAmount: int,
    isLoading: bool,
    error: Option<string>)

  /** Σ quantity over the lines. */
  function TotalItems(items: seq<CartLine>): int
  {
    if |items| == 0 then 0 else items[0].quantity + TotalItems(items[1..])
  }

  /** Σ price × quantity over the lines, with each line's own snapshot price. */
  function TotalAmount(items: seq<CartLine>): int
  {
    if |items| == 0 then 0
    else items[0].product.price * items[0].quantity + TotalAmount(items[1..])
  }

  /** Both totals are sums, so they split over concatenation. */
  lemma {:induction false} TotalsAppend(a: seq<CartLine>, b: seq<CartLine>)
    ensures TotalItems(a + b) == TotalItems(a) + TotalItems(b)
    ensures TotalAmount(a + b) == TotalAmount(a) + TotalAmount(b)
    decreases |a|
  {
    if |a| == 0 {
      assert a + b == b;
    } else {
      assert (a + b)[0] == a[0];
      assert (a + b)[1..] == a[1..] + b;
      TotalsAppend(a[1..], b);
    }
  }

  /** The derived fields agree with the items. */
  ghost predicate TotalsFresh(s: CartState)
  {
    s.totalItems == TotalItems(s.items) && s.totalAmount == TotalAmount(s.items)
  }

  /** At most one line per product id. */
  ghost predicate OneLinePerId(items: seq<CartLine>)
  {
    UniqueKeys(items, LineId)
  }

  /** The slice's `initialState` as written: the rehydrated items, but both
      totals 0 whatever the items are. */
  function InitialStateAsWritten(stored: seq<CartLine>): (r: CartState)
    ensures r.items == stored && r.totalItems == 0 && r.totalAmount == 0
    ensures !r.isOpen && !r.isLoading && r.error == None
  {
    CartState(stored, false, 0, 0, false, None)
  }

  /** A rehydrated line with a non-zero quantity makes the as-written initial
      totals stale: the sidebar would show a total of 0 next to a non-empty cart. */
  lemma InitialTotalsStale(p: Product, addedAt: string)
    requires p.price == 100
    ensures !TotalsFresh(InitialStateAsWritten([CartLine(p, 2, addedAt)]))
  {
    var items := [CartLine(p, 2, addedAt)];
    assert items[1..] == [];
    assert TotalItems(items) == 2;
  }

  /** The initial state with totals computed from the rehydrated items, as every
      other entry point into the slice does. */
  function InitialState(stored: seq<CartLine>): (r: CartState)
    ensures TotalsFresh(r)
    ensures r.items == stored && !r.isOpen && !r.isLoading && r.error == None
  {
    CalculateTotals(InitialStateAsWritten(stored))
  }

  /** `calculateTotals`: refreshes the derived fields and nothing else. */
  function CalculateTotals(s: CartState): (r: CartState)
    ensures TotalsFresh(r)
    ensures r.items == s.items && r.isOpen == s.isOpen
    ensures r.isLoading == s.isLoading && r.error == s.error
  {
    s.(totalItems := TotalItems(s.items), totalAmount := TotalAmount(s.items))
  }

  /** `quantity = 1` in the payload destructuring: only a missing quantity
      defaults; an explicit 0 or a negative number is used as given. */
  function RequestedQuantity(quantity: Option<int>): int
  {
    if quantity.Some? then quantity.value else 1
  }

  /** `addToCart`: merges into the existing line for the product id, or appends
      a snapshot line at the end. */
  function AddToCart(s: CartState, product: Product, quantity: Option<int>, addedAt: string): (r: CartState)
    ensures TotalsFresh(r)
    ensures r.isOpen == s.isOpen && r.isLoading == s.isLoading && r.error == s.error
    ensures (forall i :: 0 <= i < |s.items| ==> LineId(s.items[i]) != product.id) ==>
      r.items == s.items + [CartLine(product, RequestedQuantity(quantity), addedAt)]
    ensures forall i :: 0 <= i < |s.items| && LineId(s.items[i]) == product.id ==>
      && |r.items| == |s.items|
      && var k := FindIndex(s.items, LineId, product.id);
         && r.items[k] == s.items[k].(quantity := s.items[k].quantity + RequestedQuantity(quantity))
         && forall j :: 0 <= j < |s.items| && j != k ==> r.items[j] == s.items[j]
  {
    var q := RequestedQuantity(quantity);
    var k := FindIndex(s.items, LineId, product.id);
    var items :=
      if k == -1 then s.items + [CartLine(product, q, addedAt)]
      else s.items[k := s.items[k].(quantity := s.items[k].quantity + q)];
    CalculateTotals(s.(items := items))
  }

  /** `removeFromCart`: drops every line with the id and keeps the rest in order. */
  function RemoveFromCart(s: CartState, id: ProductId): (r: CartState)
    ensures TotalsFresh(r)
    ensures r.isOpen == s.isOpen && r.isLoading == s.isLoading && r.error == s.error
    ensures forall i :: 0 <= i < |r.items| ==> LineId(r.items[i]) != id && r.items[i] in s.items
    ensures forall i :: 0 <= i < |s.items| && LineId(s.items[i]) != id ==> s.items[i] in r.items
    ensures Subseq(r.items, s.items)
    ensures |r.items| == |s.items| - CountKey(s.items, LineId, id)
    ensures (forall i :: 0 <= i < |s.items| ==> LineId(s.items[i]) != id) ==> r.items == s.items
  {
    var items := FilterKey(s.items, LineId, id, false);
    CalculateTotals(s.(items := items))
  }

  /** `updateQuantity`: on a present id, a quantity <= 0 removes the line and any
      other quantity replaces the first matching line's quantity; an absent id
      leaves the items as they are (the totals are still recomputed). */
  function UpdateQuantity(s: CartState, id: ProductId, quantity: int): (r: CartState)
    ensures TotalsFresh(r)
    ensures r.isOpen == s.isOpen && r.isLoading == s.isLoading && r.error == s.error
    ensures (forall i :: 0 <= i < |s.items| ==> LineId(s.items[i]) != id) ==> r.items == s.items
    ensures quantity <= 0 ==>
      (forall i :: 0 <= i < |r.items| ==> LineId(r.items[i]) != id) && Subseq(r.items, s.items)
    ensures quantity > 0 ==> forall i :: 0 <= i < |s.items| && LineId(s.items[i]) == id ==>
      && |r.items| == |s.items|
      && var k := FindIndex(s.items, LineId, id);
         && r.items[k] == s.items[k].(quantity := quantity)
         && forall j :: 0 <= j < |s.items| && j != k ==> r.items[j] == s.items[j]
  {
    var k := FindIndex(s.items, LineId, id);
    var items :=
      if k == -1 then s.items
      else if quantity <= 0 then FilterKey(s.items, LineId, id, false)
      else s.items[k := s.items[k].(quantity := quantity)];
    SubseqRefl(s.items);
    CalculateTotals(s.(items := items))
  }

  /** `clearCart`: no lines and both totals 0; the flags are kept. */
  function ClearCart(s: CartState): (r: CartState)
    ensures |r.items| == 0 && r.totalItems == 0 && r.totalAmount == 0
    ensures TotalsFresh(r)
    ensures r.isOpen == s.isOpen && r.isLoading == s.isLoading && r.error == s.error
  {
    s.(items := [], totalItems := 0, totalAmount := 0)
  }

  /** `toggleCart`: flips the sidebar flag and touches nothing else. */
  function ToggleCart(s: CartState): (r: CartState)
    ensures r.isOpen != s.isOpen
    ensures r.(isOpen := s.isOpen) == s
  {
    s.(isOpen := !s.isOpen)
  }

  /** `openCart`: the sidebar is open afterwards, whatever it was before. */
  function OpenCart(s: CartState): (r: CartState)
    ensures r.isOpen
    ensures r.(isOpen := s.isOpen) == s
  {
    s.(isOpen := true)
  }

  /** `closeCart`: the sidebar is closed afterwards, whatever it was before. */
  function CloseCart(s: CartState): (r: CartState)
    ensures !r.isOpen
    ensures r.(isOpen := s.isOpen) == s
  {
    s.(isOpen := false)
  }

  /** `clearError`. */
  function ClearError(s: CartState): (r: CartState)
    ensures r.error == None
    ensures r.(error := s.error) == s
  {
    s.(error := None)
  }

  /** `syncCartWithServer.pending`. */
  function SyncPending(s: CartState): (r: CartState)
    ensures r.isLoading
    ensures r.(isLoading := s.isLoading) == s
  {
    s.(isLoading := true)
  }

  /** `syncCartWithServer.fulfilled`: the payload becomes the items and the totals
      are recomputed from it. */
  function SyncFulfilled(s: CartState, payload: seq<CartLine>): (r: CartState)
    ensures !r.isLoading && r.items == payload && TotalsFresh(r)
    ensures r.isOpen == s.isOpen && r.error == s.error
  {
    CalculateTotals(s.(isLoading := false, items := payload))
  }

  /** `syncCartWithServer.rejected`. */
  function SyncRejected(s: CartState, err: string): (r: CartState)
    ensures !r.isLoading && r.error == Some(err)
    ensures r.items == s.items && r.isOpen == s.isOpen
    ensures r.totalItems == s.totalItems && r.totalAmount == s.totalAmount
  {
    s.(isLoading := false, error := Some(err))
  }

  /** The actions the slice's reducer handles. */
  datatype Action =
    | Add(product: Product, quantity: Option<int>, addedAt: string)
    | Remove(id: ProductId)
    | SetQuantity(id: ProductId, newQuantity: int)
    | Clear
    | Toggle
    | Open
    | Close
    | Recalculate
    | DismissError
    | SyncStarted
    | SyncDone(payload: seq<CartLine>)
    | SyncFailed(err: string)

  /** The actions that do not touch the items. */
  predicate ItemsUntouched(a: Action)
  {
    a.Toggle? || a.Open? || a.Close? || a.DismissError? || a.SyncStarted? || a.SyncFailed?
  }

  /** The slice reducer: one case per action. Every action that touches the
      items leaves fresh totals; the others keep items and totals as they were. */
  function Reduce(s: CartState, a: Action): (r: CartState)
    ensures !ItemsUntouched(a) ==> TotalsFresh(r)
    ensures ItemsUntouched(a) ==>
      r.items == s.items && r.totalItems == s.totalItems && r.totalAmount == s.totalAmount
    ensures !a.Toggle? && !a.Open? && !a.Close? ==> r.isOpen == s.isOpen
  {
    match a
    case Add(p, q, t) => AddToCart(s, p, q, t)
    case Remove(id) => RemoveFromCart(s, id)
    case SetQuantity(id, q) => UpdateQuantity(s, id, q)
    case Clear => ClearCart(s)
    case Toggle => ToggleCart(s)
    case Open => OpenCart(s)
    case Close => CloseCart(s)
    case Recalculate => CalculateTotals(s)
    case DismissError => ClearError(s)
    case SyncStarted => SyncPending(s)
    case SyncDone(items) => SyncFulfilled(s, items)
    case SyncFailed(e) => SyncRejected(s, e)
  }

  /** Replays a sequence of actions. */
  function ReduceAll(s: CartState, actions: seq<Action>): CartState
    decreases |actions|
  {
    if |actions| == 0 then s else ReduceAll(Reduce(s, actions[0]), actions[1..])
  }

  /** Changing one line moves both totals by exactly that line's difference. */
  lemma {:induction false} TotalsUpdateAt(items: seq<CartLine>, k: int, x: CartLine)
    requires 0 <= k < |items|
    ensures TotalItems(items[k := x]) == TotalItems(items) - items[k].quantity + x.quantity
    ensures TotalAmount(items[k := x]) ==
      TotalAmount(items) - items[k].product.price * items[k].quantity + x.product.price * x.quantity
    decreases k
  {
    if k > 0 {
      TotalsUpdateAt(items[1..], k - 1, x);
      assert items[k := x][1..] == items[1..][k - 1 := x];
    }
  }

  /** Filtering out an id held by exactly one line takes that line's contribution
      out of both totals. */
  lemma {:induction false} TotalsRemoveOnly(items: seq<CartLine>, k: int)
    requires 0 <= k < |items|
    requires forall j :: 0 <= j < |items| && j != k ==> LineId(items[j]) != LineId(items[k])
    ensures var r := FilterKey(items, LineId, LineId(items[k]), false);
      && TotalItems(r) == TotalItems(items) - items[k].quantity
      && TotalAmount(r) == TotalAmount(items) - items[k].product.price * items[k].quantity
    decreases k
  {
    var id := LineId(items[k]);
    if k == 0 {
      assert forall j :: 0 <= j < |items[1..]| ==> LineId(items[1..][j]) != id by {
        forall j | 0 <= j < |items[1..]| ensures LineId(items[1..][j]) != id {
          assert items[1..][j] == items[j + 1];
        }
      }
    } else {
      var tail := items[1..];
      assert tail[k - 1] == items[k];
      forall j | 0 <= j < |tail| && j != k - 1
        ensures LineId(tail[j]) != LineId(tail[k - 1])
      {
        assert tail[j] == items[j + 1];
      }
      TotalsRemoveOnly(tail, k - 1);
    }
  }

  /** Adding increases the item count by the requested quantity, and the amount by
      that quantity at the price already on the line (a new line uses the
      product's price). */
  lemma AddToCartTotals(s: CartState, product: Product, quantity: Option<int>, addedAt: string)
    requires TotalsFresh(s)
    ensures var r := AddToCart(s, product, quantity, addedAt);
      var q := RequestedQuantity(quantity);
      var k := FindIndex(s.items, LineId, product.id);
      && r.totalItems == s.totalItems + q
      && r.totalAmount == s.totalAmount + q * (if k == -1 then product.price else s.items[k].product.price)
  {
    var k := FindIndex(s.items, LineId, product.id);
    var q := RequestedQuantity(quantity);
    var r := AddToCart(s, product, quantity, addedAt);
    if k == -1 {
      var line := CartLine(product, q, addedAt);
      assert r == CalculateTotals(s.(items := s.items + [line]));
      AddNewLineTotals(s.items, line);
    } else {
      var line := s.items[k].(quantity := s.items[k].quantity + q);
      assert r == CalculateTotals(s.(items := s.items[k := line]));
      TotalsUpdateAt(s.items, k, line);
      AddExistingLineTotals(s.items[k].product.price, s.items[k].quantity, q);
    }
  }

  lemma AddNewLineTotals(items: seq<CartLine>, line: CartLine)
    ensures TotalItems(items + [line]) == TotalItems(items) + line.quantity
    ensures TotalAmount(items + [line]) == TotalAmount(items) + line.quantity * line.product.price
  {
    TotalsAppend(items, [line]);
    assert [line][1..] == [];
  }

  lemma AddExistingLineTotals(price: int, quantity: int, q: int)
    ensures price * (quantity + q) - price * quantity == q * price
  {
  }

  /** Removing a present id (with one line per id) takes exactly that line's
      contribution out of both totals. */
  lemma RemoveFromCartTotals(s: CartState, k: int)
    requires TotalsFresh(s) && OneLinePerId(s.items)
    requires 0 <= k < |s.items|
    ensures var r := RemoveFromCart(s, LineId(s.items[k]));
      && r.totalItems == s.totalItems - s.items[k].quantity
      && r.totalAmount == s.totalAmount - s.items[k].product.price * s.items[k].quantity
  {
    forall j | 0 <= j < |s.items| && j != k
      ensures LineId(s.items[j]) != LineId(s.items[k])
    {
      if j < k {} else {}
    }
    TotalsRemoveOnly(s.items, k);
  }

  /** Setting a positive quantity on a present id replaces the old quantity
      rather than adding to it. */
  lemma UpdateQuantityTotals(s: CartState, k: int, quantity: int)
    requires TotalsFresh(s) && OneLinePerId(s.items)
    requires 0 <= k < |s.items| && quantity > 0
    ensures var r := UpdateQuantity(s, LineId(s.items[k]), quantity);
      && r.totalItems == s.totalItems - s.items[k].quantity + quantity
      && r.totalAmount == s.totalAmount + s.items[k].product.price * (quantity - s.items[k].quantity)
  {
    var line := s.items[k];
    UniqueFindIndex(s.items, LineId, k);
    TotalsUpdateAt(s.items, k, line.(quantity := quantity));
  }

  /** Setting a quantity <= 0 is the same as removing the id, present or not. */
  lemma UpdateNonPositiveIsRemove(s: CartState, id: ProductId, quantity: int)
    requires quantity <= 0
    ensures UpdateQuantity(s, id, quantity) == RemoveFromCart(s, id)
  {
  }

  /** Every reducer case leaves fresh totals behind fresh totals. */
  lemma ReduceKeepsTotalsFresh(s: CartState, a: Action)
    requires TotalsFresh(s)
    ensures TotalsFresh(Reduce(s, a))
  {
  }

  /** Every item-mutating case keeps at most one line per product id; only a sync
      payload can bring duplicates in. */
  lemma ReduceKeepsOneLinePerId(s: CartState, a: Action)
    requires OneLinePerId(s.items)
    requires a.SyncDone? ==> OneLinePerId(a.payload)
    ensures OneLinePerId(Reduce(s, a).items)
  {
    match a
    case Add(p, q, t) =>
      AddKeepsOneLinePerId(s, p, q, t);
    case Remove(id) =>
      FilterKeyUnique(s.items, LineId, id, false);
    case SetQuantity(id, q) =>
      UpdateKeepsOneLinePerId(s, id, q);
    case _ =>
  }

  lemma AddKeepsOneLinePerId(s: CartState, p: Product, q: Option<int>, t: string)
    requires OneLinePerId(s.items)
    ensures OneLinePerId(AddToCart(s, p, q, t).items)
  {
    var k := FindIndex(s.items, LineId, p.id);
    if k == -1 {
      AppendFreshUnique(s.items, LineId, CartLine(p, RequestedQuantity(q), t));
    } else {
      var line := s.items[k].(quantity := s.items[k].quantity + RequestedQuantity(q));
      assert AddToCart(s, p, q, t).items == s.items[k := line];
      assert s.items[k := line] == ReplaceFirst(s.items, LineId, line);
      ReplaceFirstUnique(s.items, LineId, line);
    }
  }

  lemma UpdateKeepsOneLinePerId(s: CartState, id: ProductId, q: int)
    requires OneLinePerId(s.items)
    ensures OneLinePerId(UpdateQuantity(s, id, q).items)
  {
    var k := FindIndex(s.items, LineId, id);
    if k != -1 {
      if q <= 0 {
        FilterKeyUnique(s.items, LineId, id, false);
      } else {
        var line := s.items[k].(quantity := q);
        assert UpdateQuantity(s, id, q).items == s.items[k := line];
        assert s.items[k := line] == ReplaceFirst(s.items, LineId, line);
        ReplaceFirstUnique(s.items, LineId, line);
      }
    }
  }

  /** Starting from the corrected initial state, the totals are never stale,
      whatever actions follow. */
  lemma {:induction false} TotalsNeverStale(stored: seq<CartLine>, actions: seq<Action>)
    ensures TotalsFresh(ReduceAll(InitialState(stored), actions))
  {
    TotalsStayFresh(InitialState(stored), actions);
  }

  lemma {:induction false} TotalsStayFresh(s: CartState, actions: seq<Action>)
    requires TotalsFresh(s)
    ensures TotalsFresh(ReduceAll(s, actions))
    decreases |actions|
  {
    if |actions| > 0 {
      ReduceKeepsTotalsFresh(s, actions[0]);
      TotalsStayFresh(Reduce(s, actions[0]), actions[1..]);
    }
  }

  /** Repeated additions of one product id, starting with no line for it, leave
      exactly one line for it whose quantity is the sum of the added quantities. */
  function AddMany(s: CartState, product: Product, quantities: seq<int>, addedAt: string): CartState
    decreases |quantities|
  {
    if |quantities| == 0 then s
    else AddMany(AddToCart(s, product, Some(quantities[0]), addedAt), product, quantities[1..], addedAt)
  }

  function Sum(xs: seq<int>): int
  {
    if |xs| == 0 then 0 else xs[0] + Sum(xs[1..])
  }

  lemma {:induction false} AddManyMerges(s: CartState, product: Product, quantities: seq<int>, addedAt: string)
    requires |quantities| > 0
    requires forall i :: 0 <= i < |s.items| ==> LineId(s.items[i]) != product.id
    ensures var r := AddMany(s, product, quantities, addedAt);
      && |r.items| == |s.items| + 1
      && r.items[..|s.items|] == s.items
      && r.items[|s.items|] == CartLine(product, Sum(quantities), addedAt)
  {
    var s1 := AddToCart(s, product, Some(quantities[0]), addedAt);
    assert s1.items == s.items + [CartLine(product, quantities[0], addedAt)];
    AddManyExisting(s1, product, quantities[1..], addedAt, |s.items|);
  }

  lemma {:induction false} AddManyExisting(s: CartState, product: Product, quantities: seq<int>, addedAt: string, k: int)
    requires 0 <= k < |s.items|
    requires LineId(s.items[k]) == product.id
    requires forall i :: 0 <= i < k ==> LineId(s.items[i]) != product.id
    ensures var r := AddMany(s, product, quantities, addedAt);
      && |r.items| == |s.items|
      && (forall j :: 0 <= j < |s.items| && j != k ==> r.items[j] == s.items[j])
      && r.items[k] == s.items[k].(quantity := s.items[k].quantity + Sum(quantities))
    decreases |quantities|
  {
    if |quantities| > 0 {
      var s1 := AddToCart(s, product, Some(quantities[0]), addedAt);
      assert FindIndex(s.items, LineId, product.id) == k;
      AddManyExisting(s1, product, quantities[1..], addedAt, k);
    }
  }
}
