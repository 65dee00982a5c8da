/** The static cart page: the quantity buttons, removal, the order summary and
    the checkout button. The cart read from storage is a parameter; the page
    re-rendering itself, the confirmation dialog's answer and the signed-in
    check are inputs. */
module CartPage {
  import opened Common
  import opened Catalogue
  import opened StaticCart

  /** `increaseQuantity`: asks `updateCartQuantity` for one more of the first
      line with the id; an absent id changes nothing. */
  function IncreaseQuantity(cart: seq<StoredLine>, id: ProductId): (r: seq<StoredLine>)
    ensures FindIndex(cart, StoredId, id) == -1 ==> r == cart
    ensures var k := FindIndex(cart, StoredId, id);
      k != -1 && cart[k].quantity >= 0 ==>
        && |r| == |cart|
        && r[k] == cart[k].(quantity := cart[k].quantity + 1)
        && (forall j :: 0 <= j < |cart| && j != k ==> r[j] == cart[j])
        && CartCount(r) == CartCount(cart) + 1
        && CartTotal(r) == CartTotal(cart) + cart[k].price
  {
    var k := FindIndex(cart, StoredId, id);
    if k == -1 then cart
    else
      var r := UpdateCartQuantity(cart, id, cart[k].quantity + 1).stored;
      if cart[k].quantity >= 0 then
        CountsUpdateAt(cart, k, cart[k].(quantity := cart[k].quantity + 1));
        r
      else r
  }

  /** `decreaseQuantity`: only a line above 1 is lowered, by one; the button
      never removes a line. */
  function DecreaseQuantity(cart: seq<StoredLine>, id: ProductId): (r: seq<StoredLine>)
    ensures |r| == |cart|
    ensures forall j :: 0 <= j < |cart| ==> r[j].id == cart[j].id
    ensures forall j :: 0 <= j < |cart| && cart[j].quantity >= 1 ==> r[j].quantity >= 1
    ensures var k := FindIndex(cart, StoredId, id);
      k == -1 || cart[k].quantity <= 1 ==> r == cart
    ensures var k := FindIndex(cart, StoredId, id);
      k != -1 && cart[k].quantity > 1 ==>
        && r == cart[k := cart[k].(quantity := cart[k].quantity - 1)]
        && CartCount(r) == CartCount(cart) - 1
  {
    var k := FindIndex(cart, StoredId, id);
    if k != -1 && cart[k].quantity > 1 then
      CountsUpdateAt(cart, k, cart[k].(quantity := cart[k].quantity - 1));
      UpdateCartQuantity(cart, id, cart[k].quantity - 1).stored
    else cart
  }

  /** `removeItem`: removes the id only when the shopper confirms. */
  function RemoveItem(cart: seq<StoredLine>, id: ProductId, confirmed: bool): (r: seq<StoredLine>)
    ensures !confirmed ==> r == cart
    ensures confirmed ==> forall i :: 0 <= i < |r| ==> r[i].id != id
    ensures confirmed ==> forall i :: 0 <= i < |cart| && cart[i].id != id ==> cart[i] in r
    ensures confirmed ==> |r| == |cart| - CountKey(cart, StoredId, id)
    ensures Subseq(r, cart)
  {
    if confirmed then RemoveFromCart(cart, id)
    else
      SubseqRefl(cart);
      cart
  }

  /** In a cart with one line per id, a confirmed removal takes exactly that
      line out of the header count and the subtotal, and keeps one line per id. */
  lemma RemoveItemSummary(cart: seq<StoredLine>, k: int)
    requires UniqueKeys(cart, StoredId)
    requires 0 <= k < |cart|
    ensures var r := RemoveItem(cart, cart[k].id, true);
      && CartCount(r) == CartCount(cart) - cart[k].quantity
      && CartTotal(r) == CartTotal(cart) - cart[k].price * cart[k].quantity
      && UniqueKeys(r, StoredId)
  {
    forall j | 0 <= j < |cart| && j != k ensures cart[j].id != cart[k].id {
      assert StoredId(cart[j]) != StoredId(cart[k]) by {
        if j < k {} else {}
      }
    }
    RemoveFromCartCounts(cart, k);
    RemoveFromCartOneLinePerId(cart, cart[k].id);
  }

  /** The three figures of the order summary. */
  datatype Summary = Summary(subtotal: int, deliveryFee: int, total: int)

  /** `updateOrderSummary`: a flat delivery fee of 200 on any positive subtotal. */
  function OrderSummary(subtotal: int): (r: Summary)
    ensures r.subtotal == subtotal
    ensures r.deliveryFee == 200 <==> subtotal > 0
    ensures r.deliveryFee == 0 <==> subtotal <= 0
    ensures r.total == r.subtotal + r.deliveryFee
  {
    var fee := if subtotal > 0 then 200 else 0;
    Summary(subtotal, fee, subtotal + fee)
  }

  /** What `displayCart` shows: the empty cart takes an early path with subtotal 0,
      any other cart shows its total. */
  function DisplayedSummary(cart: seq<StoredLine>): Summary
  {
    if |cart| == 0 then OrderSummary(0) else OrderSummary(CartTotal(cart))
  }

  /** The early return for the empty cart agrees with the general path. */
  lemma DisplayedSummaryIsCartTotal(cart: seq<StoredLine>)
    ensures DisplayedSummary(cart) == OrderSummary(CartTotal(cart))
    ensures |cart| == 0 ==> DisplayedSummary(cart).total == 0
  {
  }

  datatype CheckoutOutcome = EmptyCartError | LoginRedirect(target: string) | ToCheckout(target: string)

  /** `proceedToCheckout`: an empty cart is refused first, a signed-out shopper
      is sent to the login page with a return hint, anyone else to checkout. */
  function ProceedToCheckout(cart: seq<StoredLine>, signedIn: bool): (r: CheckoutOutcome)
    ensures r.EmptyCartError? <==> |cart| == 0
    ensures r.LoginRedirect? <==> |cart| > 0 && !signedIn
    ensures r.ToCheckout? <==> |cart| > 0 && signedIn
    ensures r.LoginRedirect? ==> r.target == "login.html?redirect=checkout"
    ensures r.ToCheckout? ==> r.target == "checkout.html"
  {
    if |cart| == 0 then EmptyCartError
    else if !signedIn then LoginRedirect("login.html?redirect=checkout")
    else ToCheckout("checkout.html")
  }
}
