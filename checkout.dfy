/**
 * The checkout page: the cart's lines, each with its amount, and the order total.
 */
module Checkout {
  import opened Common
  import opened CartContext
  import opened CartPage

  /** The amounts displayed beside the lines, in order. */
  function LineAmounts(items: seq<CartLine>): (amounts: seq<int>)
    ensures |amounts| == |items|
    ensures forall i :: 0 <= i < |items| ==> amounts[i] == items[i].product.productPrice * items[i].quantity
  {
    seq(|items|, i requires 0 <= i < |items| => LineAmount(items[i]))
  }

  function Sum(xs: seq<int>): int
  {
    if xs == [] then 0 else xs[0] + Sum(xs[1..])
  }

  /** `totalPrice`: the same `reduce` as the cart's subtotal. */
  function TotalPrice(items: seq<CartLine>): (total: int)
    ensures items == [] ==> total == 0
  {
    CalculateSubtotal(items)
  }

  /** The total is the sum of the amounts displayed beside the lines. */
  lemma {:induction false} TotalIsSumOfShownAmounts(items: seq<CartLine>)
    ensures TotalPrice(items) == Sum(LineAmounts(items))
  {
    if items != [] {
      TotalIsSumOfShownAmounts(items[1..]);
      assert LineAmounts(items)[1..] == LineAmounts(items[1..]);
    }
  }

  class CheckoutPage {
    const store: CartStore
    var navigations: seq<Navigation>

    constructor (store: CartStore)
      ensures this.store == store && navigations == []
    {
      this.store := store;
      navigations := [];
    }

    function Total(): (total: int)
      reads store
      ensures total == Sum(LineAmounts(store.cartItems))
    {
      TotalIsSumOfShownAmounts(store.cartItems);
      TotalPrice(store.cartItems)
    }

    /** "Seguir comprando" goes back to the home page; "Procesar pago" has no handler. */
    method ContinueShopping()
      modifies this
      ensures navigations == old(navigations) + [Navigation("/", None)]
    {
      navigations := navigations + [Navigation("/", None)];
    }
  }
}
