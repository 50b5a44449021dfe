// The checkout page (frontend/src/pages/Checkout.jsx): the summary it
// shows, when it sends the shopper back to the cart, and the requests its
// submit handler makes.

module CheckoutPage {
  import opened Shop
  import opened Pricing
  import opened CartRoutes
  import opened OrderRoutes
  import opened CartContext
  import CartPage

  /** The form's fields; the payment method starts as "card". */
  datatype Form = Form(fullName: string, address: string, city: string, postalCode: string,
                       country: string, paymentMethod: string)

  const InitialForm := Form("", "", "", "", "", "card")
  const Cash := "cash"
  const PaymentIdPrefix := "mock_payment_"

  /** No cart, no items or no lines: the page sends the shopper to the cart
      and renders nothing. */
  predicate RedirectsToCart(cart: Option<ClientCart>) {
    cart.None? || cart.value.items.None? || |cart.value.items.value| == 0
  }

  /** The page stays only with a line to show, and then its summary is the
      shared totals rule over those lines, never the all-zero summary. */
  lemma StaysWithLines(cart: Option<ClientCart>)
    ensures !RedirectsToCart(cart) <==> cart.Some? && cart.value.items.Some? && cart.value.items.value != []
    ensures !RedirectsToCart(cart) ==>
      CalculateTotal(cart) == FromItemsPrice(CartPage.Subtotal(cart.value.items.value)) &&
      CalculateTotal(cart) != CartPage.NoTotals
  {
  }

  /** After a logout or a cleared cart the page sends the shopper away. */
  lemma LeavesAfterLogoutOrClear(cart: Option<ClientCart>, fetched: Option<ClientCart>)
    ensures RedirectsToCart(AfterUserChange(false, cart, fetched))
    ensures RedirectsToCart(AfterClear(cart, true))
  {
  }

  /** The page's own copy of the price fold. */
  function Accumulate(lines: seq<ClientLine>, acc: real): (total: real)
    ensures total == acc + CartPage.Subtotal(lines)
  {
    if lines == [] then acc else Accumulate(lines[1..], acc + CartPage.LinePrice(lines[0]))
  }

  /** `calculateTotal` as this page writes it; it agrees with the cart
      page's summary for every cart. */
  function CalculateTotal(cart: Option<ClientCart>): (t: Totals)
    ensures t == CartPage.CalculateTotal(cart)
  {
    if cart.None? || cart.value.items.None? then Totals(0.0, 0.0, 0.0, 0.0)
    else FromItemsPrice(Accumulate(cart.value.items.value, 0.0))
  }

  /** The client's line prices of a populated stored cart add up to the
      items price checkout computes from the same products. */
  lemma {:induction false} SubtotalIsItemsPrice(items: seq<CartItem>, products: map<ProductId, Product>)
    requires AllPriced(items, products)
    ensures CartPage.Subtotal(Populate(items, products)) == ItemsPrice(items, products)
  {
    if items != [] {
      var lines := Populate(items, products);
      assert lines[1..] == Populate(items[1..], products);
      SubtotalIsItemsPrice(items[1..], products);
      FirstLinePrice(items, products);
      assert CartPage.Subtotal(lines) == CartPage.LinePrice(lines[0]) + CartPage.Subtotal(lines[1..]);
    }
  }

  /** The first populated line is priced with its live product. */
  lemma FirstLinePrice(items: seq<CartItem>, products: map<ProductId, Product>)
    requires items != [] && items[0].product in products
    ensures CartPage.LinePrice(Populate(items, products)[0]) ==
      products[items[0].product].price * items[0].quantity as real
  {
  }

  /** The totals shown for a populated stored cart are the totals the order
      is created with, as long as no product is deleted or repriced in
      between. */
  lemma ShownTotalsAreCharged(user: UserId, items: seq<CartItem>, products: map<ProductId, Product>,
                              address: Address, paymentMethod: string, now: int)
    requires AllPriced(items, products)
    ensures CalculateTotal(Some(ClientCart(Some(Populate(items, products))))) ==
            NewOrder(user, items, products, address, paymentMethod, now).prices
  {
    ShownFromSubtotal(Populate(items, products));
    SubtotalIsItemsPrice(items, products);
  }

  /** The summary shown for a list of lines is the totals rule over their
      subtotal. */
  lemma ShownFromSubtotal(lines: seq<ClientLine>)
    ensures CalculateTotal(Some(ClientCart(Some(lines)))) == FromItemsPrice(CartPage.Subtotal(lines))
  {
    ConsistentIsUnique(CalculateTotal(Some(ClientCart(Some(lines)))));
  }

  /** The requests the page sends to the server. */
  datatype Request =
    | PlaceOrder(shippingAddress: Address, paymentMethod: string)
    | PayOrder(orderId: nat, paymentId: string)
    | RefreshCart

  /** What submitting did: the requests sent, and the order page it opens
      (None when a request failed). */
  datatype Outcome = Outcome(requests: seq<Request>, opens: Option<nat>)

  /** The body of POST /api/orders built from the form. */
  function OrderPayload(form: Form): (r: Request)
    ensures r.PlaceOrder?
    ensures r.shippingAddress.fullName == form.fullName && r.shippingAddress.address == form.address
    ensures r.shippingAddress.city == form.city && r.shippingAddress.postalCode == form.postalCode
    ensures r.shippingAddress.country == form.country && r.paymentMethod == form.paymentMethod
  {
    PlaceOrder(Address(form.fullName, form.address, form.city, form.postalCode, form.country), form.paymentMethod)
  }

  /** `handleSubmit`: place the order; unless paying cash, pay it at once
      with a generated payment id; when everything succeeded, reload the
      cart (whose own failure is swallowed) and open the order. `created`
      is the new order's id (None when placing it failed), `paid` whether
      the pay request succeeded and `stamp` the clock reading that makes
      the payment id. */
  function Submit(form: Form, created: Option<nat>, paid: bool, stamp: string): (out: Outcome)
    ensures out.opens.Some? <==> created.Some? && (form.paymentMethod == Cash || paid)
    ensures out.opens.Some? ==> out.opens == created
    ensures |out.requests| ==
      1 + (if created.Some? && form.paymentMethod != Cash then 1 else 0) + (if out.opens.Some? then 1 else 0)
    ensures out.requests[0] == OrderPayload(form)
    ensures created.Some? && form.paymentMethod != Cash ==>
      out.requests[1] == PayOrder(created.value, PaymentIdPrefix + stamp)
    ensures out.opens.Some? <==> out.requests[|out.requests| - 1] == RefreshCart
  {
    match created
    case None => Outcome([OrderPayload(form)], None)
    case Some(id) =>
      if form.paymentMethod == Cash then Outcome([OrderPayload(form), RefreshCart], Some(id))
      else if paid then Outcome([OrderPayload(form), PayOrder(id, PaymentIdPrefix + stamp), RefreshCart], Some(id))
      else Outcome([OrderPayload(form), PayOrder(id, PaymentIdPrefix + stamp)], None)
  }

  /** The order the server creates from the payload carries the form's
      address and payment method. */
  lemma PayloadBecomesOrder(form: Form, user: UserId, items: seq<CartItem>, products: map<ProductId, Product>, now: int)
    requires AllPriced(items, products)
    ensures var p := OrderPayload(form);
      var o := NewOrder(user, items, products, p.shippingAddress, p.paymentMethod, now);
      o.shippingAddress == Address(form.fullName, form.address, form.city, form.postalCode, form.country) &&
      o.paymentMethod == form.paymentMethod
  {
  }

  /** Untouched, the form asks for card payment, so an order placed with it
      is paid straight away. */
  lemma InitialFormPays(id: nat, paid: bool, stamp: string)
    ensures Submit(InitialForm, Some(id), paid, stamp).requests ==
      [OrderPayload(InitialForm), PayOrder(id, PaymentIdPrefix + stamp)] + (if paid then [RefreshCart] else [])
  {
    assert InitialForm.paymentMethod[2] != Cash[2];
  }

  /** A payment id the page sends is never empty, so the server keeps it
      rather than substituting its fixed mock id. */
  lemma SentPaymentIdIsKept(form: Form, id: nat, paid: bool, stamp: string)
    requires form.paymentMethod != Cash
    ensures var out := Submit(form, Some(id), paid, stamp);
      PaymentRef(Some(out.requests[1].paymentId)) == PaymentIdPrefix + stamp
  {
  }
}
