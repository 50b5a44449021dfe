// The order handlers (backend/routes/orders.js): checkout turns the user's
// cart into an order priced with live product data, decrements each line's
// product stock and empties the cart; pay marks an order paid; two readers
// list a user's orders and fetch one. The stock decrement is an
// unconditional increment by minus the line quantity: there is no check
// that the stock suffices and nothing is rolled back.

module OrderRoutes {
  import opened Shop
  import opened Ranking
  import opened Pricing
  import opened CartRoutes

  datatype Address = Address(fullName: string, address: string, city: string, postalCode: string, country: string)

  /** A frozen copy of a cart line and its product as they were at checkout. */
  datatype OrderLine = OrderLine(product: ProductId, name: string, quantity: int, price: real, image: string)

  datatype PaymentResult = PaymentResult(id: string, status: string, updateTime: string, emailAddress: string)

  datatype Order = Order(
    user: UserId,
    orderItems: seq<OrderLine>,
    shippingAddress: Address,
    paymentMethod: string,
    prices: Totals,
    isPaid: bool,
    paidAt: Option<int>,
    paymentResult: Option<PaymentResult>,
    status: string,
    createdAt: int)

  const Pending := "pending"
  const Completed := "completed"
  const MockPaymentId := "mock_payment_id"

  /** Every line's product still exists, so populating gives a product. */
  predicate AllPriced(items: seq<CartItem>, products: map<ProductId, Product>) {
    forall k :: 0 <= k < |items| ==> items[k].product in products
  }

  /** The `reduce` at checkout: live price times quantity, summed. */
  function ItemsPrice(items: seq<CartItem>, products: map<ProductId, Product>): real
    requires AllPriced(items, products)
  {
    if items == [] then 0.0
    else products[items[0].product].price * items[0].quantity as real + ItemsPrice(items[1..], products)
  }

  /** The price of the lines taken together is the sum of their parts. */
  lemma {:induction false} ItemsPriceSplit(a: seq<CartItem>, b: seq<CartItem>, products: map<ProductId, Product>)
    requires AllPriced(a, products) && AllPriced(b, products)
    ensures AllPriced(a + b, products)
    ensures ItemsPrice(a + b, products) == ItemsPrice(a, products) + ItemsPrice(b, products)
  {
    if a != [] {
      assert (a + b)[1..] == a[1..] + b;
      ItemsPriceSplit(a[1..], b, products);
    } else {
      assert a + b == b;
    }
  }

  /** Non-negative prices and quantities give a non-negative items price. */
  lemma {:induction false} ItemsPriceNonNegative(items: seq<CartItem>, products: map<ProductId, Product>)
    requires AllPriced(items, products)
    requires forall k :: 0 <= k < |items| ==> items[k].quantity >= 0 && products[items[k].product].price >= 0.0
    ensures ItemsPrice(items, products) >= 0.0
  {
    if items != [] {
      ItemsPriceNonNegative(items[1..], products);
      var p := products[items[0].product].price;
      var q := items[0].quantity as real;
      assert p * q >= 0.0;
    }
  }

  /** The snapshot of one line: id and quantity from the line, name, price
      and image from the live product. */
  function LineFor(item: CartItem, product: Product): OrderLine {
    OrderLine(item.product, product.name, item.quantity, product.price, product.image)
  }

  /** The `map` at checkout: one order line per cart line, in order. */
  function Snapshot(items: seq<CartItem>, products: map<ProductId, Product>): (lines: seq<OrderLine>)
    requires AllPriced(items, products)
    ensures |lines| == |items|
    ensures forall k :: 0 <= k < |items| ==> lines[k] == LineFor(items[k], products[items[k].product])
  {
    if items == [] then []
    else [LineFor(items[0], products[items[0].product])] + Snapshot(items[1..], products)
  }

  /** The order that checkout creates: pending, unpaid, totals derived
      from the live items price. */
  function NewOrder(user: UserId, items: seq<CartItem>, products: map<ProductId, Product>,
                    address: Address, paymentMethod: string, now: int): (o: Order)
    requires AllPriced(items, products)
    ensures o.user == user && o.shippingAddress == address && o.paymentMethod == paymentMethod
    ensures o.prices.itemsPrice == ItemsPrice(items, products) && Consistent(o.prices)
    ensures o.orderItems == Snapshot(items, products)
    ensures !o.isPaid && o.paidAt == None && o.paymentResult == None && o.status == Pending
  {
    Order(user, Snapshot(items, products), address, paymentMethod,
          FromItemsPrice(ItemsPrice(items, products)), false, None, None, Pending, now)
  }

  /** How many units of a product the lines ask for. */
  function Ordered(items: seq<CartItem>, productId: ProductId): int {
    if items == [] then 0
    else
      var last := items[|items| - 1];
      Ordered(items[..|items| - 1], productId) + (if last.product == productId then last.quantity else 0)
  }

  /** The catalog after checkout's decrement loop: each product's stock
      lowered by what the lines ask for; nothing else changes. */
  function AfterDecrement(products: map<ProductId, Product>, items: seq<CartItem>): (m: map<ProductId, Product>)
    ensures m.Keys == products.Keys
  {
    map pid | pid in products :: products[pid].(stock := products[pid].stock - Ordered(items, pid))
  }

  /** After checkout, a product on a line (one line per product) has lost
      exactly that line's quantity and is otherwise as it was. */
  lemma DecrementedByLine(products: map<ProductId, Product>, items: seq<CartItem>, i: nat)
    requires OneLinePerProduct(items) && i < |items| && items[i].product in products
    ensures AfterDecrement(products, items)[items[i].product] ==
      products[items[i].product].(stock := products[items[i].product].stock - items[i].quantity)
  {
    OrderedIsLineQuantity(items, i);
  }

  /** After checkout, a product no line names is exactly as it was. */
  lemma UntouchedWithoutLine(products: map<ProductId, Product>, items: seq<CartItem>, pid: ProductId)
    requires pid in products && LineOfProduct(items, pid) == |items|
    ensures AfterDecrement(products, items)[pid] == products[pid]
  {
    OrderedAbsent(items, pid);
  }

  /** With one line per product, a product's demand is exactly its line's
      quantity, so its stock drops by exactly that. */
  lemma {:induction false} OrderedIsLineQuantity(items: seq<CartItem>, i: nat)
    requires OneLinePerProduct(items) && i < |items|
    ensures Ordered(items, items[i].product) == items[i].quantity
  {
    var n := |items| - 1;
    var init := items[..n];
    assert OneLinePerProduct(init) by {
      forall a, b | 0 <= a < b < |init| ensures ProductOf(init[a]) != ProductOf(init[b]) {
        assert ProductOf(items[a]) != ProductOf(items[b]);
      }
    }
    if i == n {
      assert LineOfProduct(init, items[i].product) == |init| by {
        var j := LineOfProduct(init, items[i].product);
        assert j < |init| ==> ProductOf(items[j]) == ProductOf(items[i]);
      }
      OrderedAbsent(init, items[i].product);
    } else {
      assert ProductOf(items[i]) != ProductOf(items[n]);
      OrderedIsLineQuantity(init, i);
    }
  }

  /** A product no line names keeps its stock. */
  lemma {:induction false} OrderedAbsent(items: seq<CartItem>, productId: ProductId)
    requires LineOfProduct(items, productId) == |items|
    ensures Ordered(items, productId) == 0
  {
    if items != [] {
      var init := items[..|items| - 1];
      assert forall k :: 0 <= k < |init| ==> init[k].product != productId;
      OrderedAbsent(init, productId);
    }
  }

  /** One more iteration of the decrement loop. */
  lemma DecrementStep(products: map<ProductId, Product>, items: seq<CartItem>, i: nat)
    requires i < |items|
    ensures var pid := items[i].product;
      var m := AfterDecrement(products, items[..i]);
      pid in products ==>
        AfterDecrement(products, items[..i + 1]) == m[pid := m[pid].(stock := m[pid].stock - items[i].quantity)]
    ensures items[i].product !in products ==>
      AfterDecrement(products, items[..i + 1]) == AfterDecrement(products, items[..i])
  {
    assert items[..i + 1][..i] == items[..i];
  }

  /** No guard: a line asking for more than the stock drives it negative. */
  lemma StockCanGoNegative()
    ensures var p := Product(0, "p", 1.0, "", 1, "c", 0.0, 0, 0);
      AfterDecrement(map[0 := p], [CartItem(0, 0, 2)])[0].stock == -1
  {
    var items := [CartItem(0, 0, 2)];
    assert items[..0] == [];
  }

  /** Stock stays non-negative only when every line fit its stock before. */
  lemma StockStaysNonNegative(products: map<ProductId, Product>, items: seq<CartItem>)
    requires OneLinePerProduct(items) && AllPriced(items, products)
    requires forall k :: 0 <= k < |items| ==> items[k].quantity <= products[items[k].product].stock
    requires forall pid :: pid in products ==> products[pid].stock >= 0
    ensures forall pid :: pid in products ==> AfterDecrement(products, items)[pid].stock >= 0
  {
    forall pid | pid in products ensures AfterDecrement(products, items)[pid].stock >= 0 {
      var i := LineOfProduct(items, pid);
      if i < |items| {
        OrderedIsLineQuantity(items, i);
      } else {
        OrderedAbsent(items, pid);
      }
    }
  }

  /** `req.body.paymentId || "mock_payment_id"`: a missing or empty id
      falls back to the mock one. */
  function PaymentRef(paymentId: Option<string>): (ref: string)
    ensures ref != ""
    ensures paymentId.Some? && paymentId.value != "" ==> ref == paymentId.value
    ensures paymentId.None? || paymentId.value == "" ==> ref == MockPaymentId
  {
    match paymentId
    case Some(s) => if s != "" then s else MockPaymentId
    case None => MockPaymentId
  }

  /** The fields pay sets; every other field of the order is kept. */
  function MarkPaid(o: Order, paymentId: Option<string>, email: string, now: int, nowIso: string): (p: Order)
    ensures p.isPaid && p.paidAt == Some(now)
    ensures p.paymentResult == Some(PaymentResult(PaymentRef(paymentId), Completed, nowIso, email))
    ensures p.(isPaid := o.isPaid, paidAt := o.paidAt, paymentResult := o.paymentResult) == o
  {
    o.(isPaid := true, paidAt := Some(now),
       paymentResult := Some(PaymentResult(PaymentRef(paymentId), Completed, nowIso, email)))
  }

  /** The list handler's filter: the orders placed by `user`. */
  function OwnedBy(user: UserId): Order -> bool {
    (o: Order) => o.user == user
  }

  /** The list handler's sort key: newest first. */
  function NewestFirst(o: Order): Rank {
    Rank(o.createdAt as real, 0)
  }

  class OrderStore {
    /** The order collection; an order's id is its index. */
    var orders: seq<Order>

    constructor ()
      ensures orders == []
    {
      orders := [];
    }

    /** POST /: checkout. */
    method Checkout(carts: CartStore, catalog: Catalog, user: UserId, address: Address,
                    paymentMethod: string, now: int) returns (r: Reply<nat>)
      requires carts.Valid()
      modifies this, carts, catalog
      ensures carts.Valid()
      ensures old(carts.ItemsOf(user)) == [] ==>
        r == EmptyCart && orders == old(orders) && unchanged(carts) && unchanged(catalog)
      ensures old(carts.ItemsOf(user)) != [] && !AllPriced(old(carts.ItemsOf(user)), old(catalog.products)) ==>
        r == ServerError && orders == old(orders) && unchanged(carts) && unchanged(catalog)
      ensures var items := old(carts.ItemsOf(user));
        items != [] && AllPriced(items, old(catalog.products)) ==>
          && r == Ok(|old(orders)|)
          && orders == old(orders) + [NewOrder(user, items, old(catalog.products), address, paymentMethod, now)]
          && catalog.products == AfterDecrement(old(catalog.products), items)
          && carts.carts == old(carts.carts)[user := []]
          && carts.nextItemId == old(carts.nextItemId)
    {
      var items := carts.ItemsOf(user);
      if items == [] {
        return EmptyCart;
      }
      if !AllPriced(items, catalog.products) {
        // `item.product.price` on a deleted product throws: the catch answers 500
        return ServerError;
      }
      var order := NewOrder(user, items, catalog.products, address, paymentMethod, now);
      orders := orders + [order];
      r := Ok(|orders| - 1);

      ghost var before := catalog.products;
      for i := 0 to |items|
        modifies catalog
        invariant catalog.products == AfterDecrement(before, items[..i])
      {
        DecrementStep(before, items, i);
        var pid := items[i].product;
        if pid in catalog.products {
          catalog.products := catalog.products[pid := catalog.products[pid].(stock := catalog.products[pid].stock - items[i].quantity)];
        }
      }
      assert items[..|items|] == items;

      carts.carts := carts.carts[user := []];
    }

    /** GET /: the user's orders, newest first. */
    function ListFor(user: UserId): (r: seq<Order>)
      reads this
      ensures forall k :: 0 <= k < |r| ==> r[k] in orders && r[k].user == user
      ensures forall k :: 0 <= k < |orders| && orders[k].user == user ==> orders[k] in r
      ensures SortedBy(r, NewestFirst)
      ensures multiset(r) == multiset(Filter(orders, OwnedBy(user)))
    {
      var mine := Filter(orders, OwnedBy(user));
      var r := Sort(mine, NewestFirst);
      assert forall k :: 0 <= k < |r| ==> r[k] in orders && r[k].user == user by {
        forall k | 0 <= k < |r| ensures r[k] in orders && r[k].user == user {
          assert r[k] in multiset(mine);
        }
      }
      assert forall k :: 0 <= k < |orders| && orders[k].user == user ==> orders[k] in r by {
        forall k | 0 <= k < |orders| && orders[k].user == user ensures orders[k] in r {
          assert orders[k] in mine;
          assert orders[k] in multiset(r);
        }
      }
      r
    }

    /** GET /:id: 404 for an unknown id, 403 for another user's order. */
    function Find(user: UserId, orderId: nat): (r: Reply<Order>)
      reads this
      ensures r.NotFound? <==> orderId >= |orders|
      ensures r == NotAuthorized <==> orderId < |orders| && orders[orderId].user != user
      ensures r.Ok? <==> orderId < |orders| && orders[orderId].user == user
      ensures r.Ok? ==> r.value == orders[orderId]
    {
      if orderId >= |orders| then NotFound(OrderNotFound)
      else if orders[orderId].user != user then NotAuthorized
      else Ok(orders[orderId])
    }

    /** PUT /:id/pay: same two checks, then the order is marked paid. */
    method Pay(user: UserId, email: string, orderId: nat, paymentId: Option<string>, now: int, nowIso: string)
      returns (r: Reply<Order>)
      modifies this
      ensures orderId >= |old(orders)| ==> r == NotFound(OrderNotFound) && orders == old(orders)
      ensures orderId < |old(orders)| && old(orders)[orderId].user != user ==>
        r == NotAuthorized && orders == old(orders)
      ensures orderId < |old(orders)| && old(orders)[orderId].user == user ==>
        && orders == old(orders)[orderId := MarkPaid(old(orders)[orderId], paymentId, email, now, nowIso)]
        && r == Ok(orders[orderId])
    {
      if orderId >= |orders| {
        return NotFound(OrderNotFound);
      }
      if orders[orderId].user != user {
        return NotAuthorized;
      }
      orders := orders[orderId := MarkPaid(orders[orderId], paymentId, email, now, nowIso)];
      r := Ok(orders[orderId]);
    }
  }
}
