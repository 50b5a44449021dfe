// The totals rule the checkout handler applies and the cart and checkout
// pages repeat: free shipping above 100, a flat 10 otherwise, 10% tax.
// Amounts are exact reals; rounding happens only when they are displayed.

module Pricing {

  const FreeShippingAbove: real := 100.0
  const FlatShipping: real := 10.0
  const TaxRate: real := 0.1

  datatype Totals = Totals(itemsPrice: real, shippingPrice: real, taxPrice: real, totalPrice: real)

  /** What the four amounts of an order must satisfy, for a given subtotal. */
  ghost predicate Consistent(t: Totals) {
    && (t.shippingPrice == 0.0 <==> t.itemsPrice > FreeShippingAbove)
    && (t.shippingPrice == 0.0 || t.shippingPrice == FlatShipping)
    && t.taxPrice * 10.0 == t.itemsPrice
    && t.totalPrice == t.itemsPrice + t.shippingPrice + t.taxPrice
  }

  /** Shipping, tax and total derived from the items price. */
  function FromItemsPrice(itemsPrice: real): (t: Totals)
    ensures t.itemsPrice == itemsPrice && Consistent(t)
  {
    var shippingPrice := if itemsPrice > FreeShippingAbove then 0.0 else FlatShipping;
    var taxPrice := itemsPrice * TaxRate;
    Totals(itemsPrice, shippingPrice, taxPrice, itemsPrice + shippingPrice + taxPrice)
  }

  /** The four amounts are determined by the items price alone. */
  lemma ConsistentIsUnique(t: Totals)
    requires Consistent(t)
    ensures t == FromItemsPrice(t.itemsPrice)
  {
  }

  /** For a non-negative subtotal the total never falls below it. */
  lemma TotalCoversItems(itemsPrice: real)
    requires itemsPrice >= 0.0
    ensures FromItemsPrice(itemsPrice).totalPrice >= itemsPrice
    ensures FromItemsPrice(itemsPrice).totalPrice >= FromItemsPrice(itemsPrice).shippingPrice
  {
  }

  /** Free shipping above 100: 2 x 60 ships free, 2 x 30 does not, and
      exactly 100 still pays shipping. */
  lemma WorkedExamples()
    ensures FromItemsPrice(120.0) == Totals(120.0, 0.0, 12.0, 132.0)
    ensures FromItemsPrice(60.0) == Totals(60.0, 10.0, 6.0, 76.0)
    ensures FromItemsPrice(100.0).shippingPrice == 10.0
  {
  }
}
