// The cart page (frontend/src/pages/Cart.jsx): its order summary and the
// quantity buttons on each line.

module CartPage {
  import opened Shop
  import opened Ranking
  import opened Pricing
  import opened CartRoutes
  import opened CartContext

  /** `(item.product?.price || 0) * item.quantity` */
  function LinePrice(line: ClientLine): (r: real)
    ensures line.product.None? ==> r == 0.0
  {
    var price := match line.product case Some(p) => p.price case None => 0.0;
    price * line.quantity as real
  }

  /** The line prices summed; lines with no product add nothing. */
  function Subtotal(lines: seq<ClientLine>): (r: real)
    ensures (forall k :: 0 <= k < |lines| ==> LinePrice(lines[k]) >= 0.0) ==> r >= 0.0
  {
    if lines == [] then 0.0 else LinePrice(lines[0]) + Subtotal(lines[1..])
  }

  /** `items.reduce((total, item) => total + LinePrice(item), acc)` */
  function ReducePrices(lines: seq<ClientLine>, acc: real): (total: real)
    ensures total == acc + Subtotal(lines)
  {
    if lines == [] then acc else ReducePrices(lines[1..], acc + LinePrice(lines[0]))
  }

  const NoTotals := Totals(0.0, 0.0, 0.0, 0.0)

  /** `calculateTotal`: all four amounts 0 without a cart or items, the
      shared totals rule over the line prices otherwise. */
  function CalculateTotal(cart: Option<ClientCart>): (t: Totals)
    ensures cart.None? || cart.value.items.None? ==> t == NoTotals
    ensures cart.Some? && cart.value.items.Some? ==>
      t.itemsPrice == Subtotal(cart.value.items.value) && Consistent(t)
  {
    match cart
    case None => NoTotals
    case Some(c) =>
      match c.items
      case None => NoTotals
      case Some(lines) => FromItemsPrice(ReducePrices(lines, 0.0))
  }

  /** An empty (but present) item list still pays the flat shipping. */
  lemma EmptyItemsStillShip()
    ensures CalculateTotal(Some(ClientCart(Some([])))) == Totals(0.0, 10.0, 0.0, 10.0)
  {
  }

  /** Non-negative prices and quantities give non-negative line prices. */
  lemma {:induction false} SubtotalNonNegative(lines: seq<ClientLine>)
    requires forall k :: 0 <= k < |lines| ==> lines[k].quantity >= 0
    requires forall k :: 0 <= k < |lines| && lines[k].product.Some? ==> lines[k].product.value.price >= 0.0
    ensures Subtotal(lines) >= 0.0
  {
    if lines != [] {
      SubtotalNonNegative(lines[1..]);
    }
  }

  /** For non-negative prices and quantities the total covers the items
      and shipping is 0 or 10. */
  lemma TotalCoversItems(cart: Option<ClientCart>)
    requires cart.Some? && cart.value.items.Some?
    requires forall k :: 0 <= k < |cart.value.items.value| ==> cart.value.items.value[k].quantity >= 0
    requires forall k :: 0 <= k < |cart.value.items.value| && cart.value.items.value[k].product.Some? ==>
      cart.value.items.value[k].product.value.price >= 0.0
    ensures CalculateTotal(cart).totalPrice >= CalculateTotal(cart).itemsPrice >= 0.0
    ensures CalculateTotal(cart).shippingPrice == 0.0 || CalculateTotal(cart).shippingPrice == FlatShipping
  {
    SubtotalNonNegative(cart.value.items.value);
  }

  /** What a quantity button asks the server for. */
  datatype QuantityRequest = QuantityRequest(itemId: ItemId, quantity: int)

  /** The minus button asks for one unit fewer on the same line. */
  function MinusRequest(line: ClientLine): (r: QuantityRequest)
    ensures r.itemId == line.id && r.quantity + 1 == line.quantity
  {
    QuantityRequest(line.id, line.quantity - 1)
  }

  /** The plus button asks for one unit more on the same line. */
  function PlusRequest(line: ClientLine): (r: QuantityRequest)
    ensures r.itemId == line.id && r.quantity - 1 == line.quantity
  {
    QuantityRequest(line.id, line.quantity + 1)
  }

  /** The minus button on line k of a stored cart names that line; once
      the server's checks pass it stores one unit less, removing the line
      when it held one unit or fewer, and leaves every other line alone. */
  lemma MinusAdjustsOneLine(items: seq<CartItem>, products: map<ProductId, Product>, k: nat)
    requires DistinctBy(items, IdOf) && k < |items|
    ensures MinusRequest(Populate(items, products)[k]) == QuantityRequest(items[k].id, items[k].quantity - 1)
    ensures items[k].quantity <= 1 ==>
      Adjust(items, items[k].id, items[k].quantity - 1) == items[..k] + items[k + 1..]
    ensures items[k].quantity > 1 ==>
      Adjust(items, items[k].id, items[k].quantity - 1) == items[k := items[k].(quantity := items[k].quantity - 1)]
  {
    var q := items[k].quantity - 1;
    if q <= 0 {
      AdjustRemoves(items, k, q);
    } else {
      AdjustSets(items, k, q);
      var after := Adjust(items, items[k].id, q);
      assert after == items[k := items[k].(quantity := q)];
    }
  }

  /** The plus button on line k of a stored cart names that line; once the
      server's checks pass it stores one unit more and leaves every other
      line alone. A line holding a negative quantity (adding accepts one)
      is removed instead, since one more is still 0 or less. */
  lemma PlusAdjustsOneLine(items: seq<CartItem>, products: map<ProductId, Product>, k: nat)
    requires DistinctBy(items, IdOf) && k < |items|
    ensures PlusRequest(Populate(items, products)[k]) == QuantityRequest(items[k].id, items[k].quantity + 1)
    ensures items[k].quantity >= 0 ==>
      Adjust(items, items[k].id, items[k].quantity + 1) == items[k := items[k].(quantity := items[k].quantity + 1)]
    ensures items[k].quantity < 0 ==>
      Adjust(items, items[k].id, items[k].quantity + 1) == items[..k] + items[k + 1..]
  {
    var q := items[k].quantity + 1;
    if q <= 0 {
      AdjustRemoves(items, k, q);
    } else {
      AdjustSets(items, k, q);
      var after := Adjust(items, items[k].id, q);
      assert after == items[k := items[k].(quantity := q)];
    }
  }
}
