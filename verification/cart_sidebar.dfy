/** The cart sidebar's event handlers: the quantity controls, the footer
    total it shows, and checkout. Rendering and animation are
    left out; navigation is returned as a path. */
module CartSidebar {
  import opened Common
  import opened Catalogue
  import opened CartSlice

  /** `handleQuantityChange`: a new quantity <= 0 dispatches `removeFromCart`,
      anything else `updateQuantity`. Both paths agree with `updateQuantity`
      alone, present id or not. */
  function HandleQuantityChange(s: CartState, id: ProductId, newQuantity: int): (r: CartState)
    ensures r == UpdateQuantity(s, id, newQuantity)
    ensures newQuantity <= 0 ==> forall i :: 0 <= i < |r.items| ==> LineId(r.items[i]) != id
  {
    if newQuantity <= 0 then
      UpdateNonPositiveIsRemove(s, id, newQuantity);
      RemoveFromCart(s, id)
    else
      UpdateQuantity(s, id, newQuantity)
  }

  /** The minus control of a line: requests one less, so a line at quantity 1
      (or below) disappears through `removeFromCart`, and any other line of a
      one-line-per-id cart drops by one while every other line stays. */
  function MinusClicked(s: CartState, line: CartLine): (r: CartState)
    ensures TotalsFresh(r)
    ensures line.quantity <= 1 ==> r == RemoveFromCart(s, LineId(line))
    ensures line.quantity > 1 ==> forall k :: 0 <= k < |s.items| && s.items[k] == line && OneLinePerId(s.items) ==>
      r.items == s.items[k := line.(quantity := line.quantity - 1)]
  {
    UniqueFindIndexAll(s.items, LineId);
    HandleQuantityChange(s, LineId(line), line.quantity - 1)
  }

  /** The plus control of a line: requests one more. On a line of a
      one-line-per-id cart that raises that line by one and keeps every other;
      a line whose quantity is already negative is removed instead, since the
      requested quantity is not positive. */
  function PlusClicked(s: CartState, line: CartLine): (r: CartState)
    ensures TotalsFresh(r)
    ensures line.quantity < 0 ==> r == RemoveFromCart(s, LineId(line))
    ensures line.quantity >= 0 ==> forall k :: 0 <= k < |s.items| && s.items[k] == line && OneLinePerId(s.items) ==>
      r.items == s.items[k := line.(quantity := line.quantity + 1)]
  {
    UniqueFindIndexAll(s.items, LineId);
    HandleQuantityChange(s, LineId(line), line.quantity + 1)
  }

  /** The footer shows the slice's `totalAmount`; whenever the totals are fresh
      that is the sum of price × quantity over the lines shown above it. */
  function FooterTotal(s: CartState): (r: int)
    ensures TotalsFresh(s) ==> r == TotalAmount(s.items)
  {
    s.totalAmount
  }

  /** Starting from the corrected initial state, after any sequence of cart
      actions the footer agrees with the lines it sits under. */
  lemma FooterAgreesWithLines(stored: seq<CartLine>, actions: seq<Action>)
    ensures var s := ReduceAll(InitialState(stored), actions);
      FooterTotal(s) == TotalAmount(s.items)
  {
    TotalsNeverStale(stored, actions);
  }

  /** With the initial state as the slice writes it, a rehydrated cart of one
      line at price 100 and quantity 2 shows a footer of 0 instead of 200. */
  lemma FooterStaleAsWritten(p: Product, addedAt: string)
    requires p.price == 100
    ensures var items := [CartLine(p, 2, addedAt)];
      FooterTotal(InitialStateAsWritten(items)) == 0 && TotalAmount(items) == 200
  {
    var items := [CartLine(p, 2, addedAt)];
    assert items[1..] == [];
  }

  /** The sidebar's two footer buttons. */
  datatype Exit = Checkout | ContinueShopping

  /** `handleCheckout` and `handleContinueShopping`: either button closes the
      sidebar, then navigates — to the checkout page or to the catalogue; the
      cart itself is untouched. */
  function LeaveSidebar(s: CartState, exit: Exit): (r: (CartState, string))
    ensures !r.0.isOpen
    ensures r.0.(isOpen := s.isOpen) == s
    ensures exit.Checkout? <==> r.1 == "/checkout"
    ensures exit.ContinueShopping? <==> r.1 == "/products"
  {
    (CloseCart(s), if exit.Checkout? then "/checkout" else "/products")
  }
}
