// The cart handlers (backend/routes/cart.js): one cart per user, a list of
// (product, quantity) lines, created lazily and changed in place by add,
// set-quantity, remove-line and clear. A handler that fails returns before
// the cart is saved, so the stored cart is left as it was.

module CartRoutes {
  import opened Shop
  import opened Ranking

  /** A cart line; `id` is the line's own subdocument id, which the
      set-quantity and remove handlers address it by. */
  datatype CartItem = CartItem(id: ItemId, product: ProductId, quantity: int)

  function ProductOf(line: CartItem): nat { line.product }
  function IdOf(line: CartItem): nat { line.id }

  ghost predicate OneLinePerProduct(items: seq<CartItem>) {
    DistinctBy(items, ProductOf)
  }

  /** What every stored cart satisfies: one line per product, distinct line
      ids, all of them issued before `nextId`. */
  ghost predicate WellFormed(items: seq<CartItem>, nextId: nat) {
    && OneLinePerProduct(items)
    && DistinctBy(items, IdOf)
    && forall k :: 0 <= k < |items| ==> items[k].id < nextId
  }

  /** `quantity = 1` in the request destructuring: absent means one. */
  function Requested(quantity: Option<int>): (r: int)
    ensures quantity.None? ==> r == 1
    ensures quantity.Some? ==> r == quantity.value
  {
    match quantity
    case None => 1
    case Some(q) => q
  }

  /** `cart.items.find(item => item.product == productId)`: the index of
      the first line for the product, or |items| when there is none. */
  function LineOfProduct(items: seq<CartItem>, productId: ProductId): (i: nat)
    ensures i <= |items|
    ensures i < |items| ==> items[i].product == productId
    ensures forall k :: 0 <= k < i ==> items[k].product != productId
  {
    if items == [] then 0
    else if items[0].product == productId then 0
    else 1 + LineOfProduct(items[1..], productId)
  }

  /** `cart.items.id(itemId)`: the index of the line with that id, or
      |items| when there is none. */
  function LineWithId(items: seq<CartItem>, itemId: ItemId): (i: nat)
    ensures i <= |items|
    ensures i < |items| ==> items[i].id == itemId
    ensures forall k :: 0 <= k < i ==> items[k].id != itemId
  {
    if items == [] then 0
    else if items[0].id == itemId then 0
    else 1 + LineWithId(items[1..], itemId)
  }

  /** `cart.items.pull(itemId)`: every line with that id removed. */
  function Pull(items: seq<CartItem>, itemId: ItemId): (r: seq<CartItem>)
    ensures forall k :: 0 <= k < |r| ==> r[k] in items && r[k].id != itemId
    ensures forall k :: 0 <= k < |items| && items[k].id != itemId ==> items[k] in r
  {
    Filter(items, (line: CartItem) => line.id != itemId)
  }

  /** The set-quantity handler's change once its checks have passed:
      a quantity of 0 or less pulls the line, any other value is stored. */
  function Adjust(items: seq<CartItem>, itemId: ItemId, quantity: int): (r: seq<CartItem>)
    ensures quantity <= 0 ==> forall k :: 0 <= k < |r| ==> r[k] in items && r[k].id != itemId
    ensures quantity <= 0 ==> forall k :: 0 <= k < |items| && items[k].id != itemId ==> items[k] in r
    ensures quantity > 0 ==> |r| == |items|
    ensures quantity > 0 ==> forall k :: 0 <= k < |r| ==>
      r[k] == items[k] || (items[k].id == itemId && r[k] == items[k].(quantity := quantity))
  {
    var i := LineWithId(items, itemId);
    if quantity <= 0 then Pull(items, itemId)
    else if i < |items| then items[i := items[i].(quantity := quantity)]
    else items
  }

  /** Pulling an id no line has leaves the lines as they were. */
  lemma {:induction false} PullAbsent(items: seq<CartItem>, itemId: ItemId)
    requires LineWithId(items, itemId) == |items|
    ensures Pull(items, itemId) == items
  {
    if items != [] {
      PullAbsent(items[1..], itemId);
      assert items == [items[0]] + items[1..];
    }
  }

  /** Pulling the id of line i removes exactly that line. */
  lemma {:induction false} PullOne(items: seq<CartItem>, i: nat)
    requires DistinctBy(items, IdOf) && i < |items|
    ensures Pull(items, items[i].id) == items[..i] + items[i + 1..]
  {
    var itemId := items[i].id;
    if i == 0 {
      var j := LineWithId(items[1..], itemId);
      assert j < |items[1..]| ==> IdOf(items[0]) == IdOf(items[j + 1]);
      PullAbsent(items[1..], itemId);
    } else {
      assert DistinctBy(items[1..], IdOf) by {
        forall a, b | 0 <= a < b < |items[1..]| ensures IdOf(items[1..][a]) != IdOf(items[1..][b]) {
          assert IdOf(items[a + 1]) != IdOf(items[b + 1]);
        }
      }
      PullOne(items[1..], i - 1);
      assert items[0].id != itemId by {
        assert IdOf(items[0]) != IdOf(items[i]);
      }
      assert items[1..][..i - 1] == items[1..i];
      assert items[1..][i - 1 + 1..] == items[i + 1..];
      assert items[..i] == [items[0]] + items[1..i];
    }
  }

  /** A positive quantity replaces line i's quantity and touches nothing else. */
  lemma AdjustSets(items: seq<CartItem>, i: nat, quantity: int)
    requires i < |items| && quantity > 0 && DistinctBy(items, IdOf)
    ensures |Adjust(items, items[i].id, quantity)| == |items|
    ensures Adjust(items, items[i].id, quantity)[i] == items[i].(quantity := quantity)
    ensures forall k :: 0 <= k < |items| && k != i ==> Adjust(items, items[i].id, quantity)[k] == items[k]
  {
    var j := LineWithId(items, items[i].id);
    assert IdOf(items[j]) == IdOf(items[i]);
  }

  /** A quantity of 0 or less removes line i and keeps the others in order. */
  lemma AdjustRemoves(items: seq<CartItem>, i: nat, quantity: int)
    requires i < |items| && quantity <= 0 && DistinctBy(items, IdOf)
    ensures Adjust(items, items[i].id, quantity) == items[..i] + items[i + 1..]
  {
    PullOne(items, i);
  }

  /** Pulling keeps a cart well formed. */
  lemma PullWellFormed(items: seq<CartItem>, itemId: ItemId, nextId: nat)
    requires WellFormed(items, nextId)
    ensures WellFormed(Pull(items, itemId), nextId)
  {
    var keep := (line: CartItem) => line.id != itemId;
    FilterDistinct(items, keep, ProductOf);
    FilterDistinct(items, keep, IdOf);
  }

  /** A new line for a product the cart lacks, with a fresh id, keeps the
      cart well formed: add never creates a second line for a product. */
  lemma AppendWellFormed(items: seq<CartItem>, productId: ProductId, quantity: int, nextId: nat)
    requires WellFormed(items, nextId)
    requires LineOfProduct(items, productId) == |items|
    ensures WellFormed(items + [CartItem(nextId, productId, quantity)], nextId + 1)
  {
    var r := items + [CartItem(nextId, productId, quantity)];
    forall a, b | 0 <= a < b < |r| ensures ProductOf(r[a]) != ProductOf(r[b]) && IdOf(r[a]) != IdOf(r[b]) {
      if b < |items| {
        assert ProductOf(items[a]) != ProductOf(items[b]) && IdOf(items[a]) != IdOf(items[b]);
      }
    }
  }

  class CartStore {
    /** The user -> cart collection; a cart is its list of lines. */
    var carts: map<UserId, seq<CartItem>>
    /** The next line id to issue (a fresh subdocument id). */
    var nextItemId: nat

    ghost predicate Valid()
      reads this
    {
      forall u :: u in carts ==> WellFormed(carts[u], nextItemId)
    }

    constructor ()
      ensures Valid() && carts == map[]
    {
      carts := map[];
      nextItemId := 0;
    }

    /** The user's lines; a user without a cart reads as having none. */
    function ItemsOf(user: UserId): seq<CartItem>
      reads this
    {
      if user in carts then carts[user] else []
    }

    /** GET /: the user's cart, created empty on first access. */
    method GetOrCreate(user: UserId) returns (items: seq<CartItem>)
      requires Valid()
      modifies this
      ensures Valid() && nextItemId == old(nextItemId)
      ensures user in carts && items == carts[user]
      ensures user in old(carts) ==> carts == old(carts)
      ensures user !in old(carts) ==> carts == old(carts)[user := []]
    {
      if user !in carts {
        carts := carts[user := []];
      }
      items := carts[user];
    }

    /** POST /: add `quantity` (default 1) of a product, merging into its
        line if the cart has one. */
    method Add(catalog: Catalog, user: UserId, productId: ProductId, quantity: Option<int>)
      returns (r: Reply<seq<CartItem>>)
      requires Valid()
      modifies this
      ensures Valid()
      ensures productId !in catalog.products ==>
        r == NotFound(ProductNotFound) && carts == old(carts) && nextItemId == old(nextItemId)
      ensures productId in catalog.products && catalog.products[productId].stock < Requested(quantity) ==>
        r == InsufficientStock && carts == old(carts) && nextItemId == old(nextItemId)
      ensures productId in catalog.products && catalog.products[productId].stock >= Requested(quantity) ==>
        var items := old(ItemsOf(user));
        var q := Requested(quantity);
        var i := LineOfProduct(items, productId);
        if i < |items| then
          if items[i].quantity + q > catalog.products[productId].stock then
            r == InsufficientStock && carts == old(carts) && nextItemId == old(nextItemId)
          else
            && carts == old(carts)[user := items[i := items[i].(quantity := items[i].quantity + q)]]
            && nextItemId == old(nextItemId)
            && r == Ok(carts[user])
        else
          && carts == old(carts)[user := items + [CartItem(old(nextItemId), productId, q)]]
          && nextItemId == old(nextItemId) + 1
          && r == Ok(carts[user])
    {
      var q := Requested(quantity);
      if productId !in catalog.products {
        return NotFound(ProductNotFound);
      }
      var product := catalog.products[productId];
      if product.stock < q {
        return InsufficientStock;
      }
      if user !in carts {
        carts := carts[user := []];
      }
      var items := carts[user];
      var i := LineOfProduct(items, productId);
      if i < |items| {
        var merged := items[i].quantity + q;
        if merged > product.stock {
          return InsufficientStock;
        }
        carts := carts[user := items[i := items[i].(quantity := merged)]];
        assert WellFormed(carts[user], nextItemId) by {
          var s := carts[user];
          forall a, b | 0 <= a < b < |s| ensures ProductOf(s[a]) != ProductOf(s[b]) && IdOf(s[a]) != IdOf(s[b]) {
            assert ProductOf(items[a]) != ProductOf(items[b]) && IdOf(items[a]) != IdOf(items[b]);
          }
        }
      } else {
        AppendWellFormed(items, productId, q, nextItemId);
        carts := carts[user := items + [CartItem(nextItemId, productId, q)]];
        nextItemId := nextItemId + 1;
      }
      r := Ok(carts[user]);
    }

    /** PUT /:itemId: set a line's quantity; 0 or less removes the line.
        The stock check comes first, whatever the quantity. */
    method SetQuantity(catalog: Catalog, user: UserId, itemId: ItemId, quantity: int)
      returns (r: Reply<seq<CartItem>>)
      requires Valid()
      modifies this
      ensures Valid() && nextItemId == old(nextItemId)
      ensures user !in old(carts) ==> r == NotFound(CartNotFound) && carts == old(carts)
      ensures user in old(carts) ==>
        var items := old(carts[user]);
        var i := LineWithId(items, itemId);
        if i == |items| then
          r == NotFound(ItemNotFound) && carts == old(carts)
        else if items[i].product !in catalog.products then
          r == ServerError && carts == old(carts)
        else if quantity > catalog.products[items[i].product].stock then
          r == InsufficientStock && carts == old(carts)
        else
          carts == old(carts)[user := Adjust(items, itemId, quantity)] && r == Ok(carts[user])
    {
      if user !in carts {
        return NotFound(CartNotFound);
      }
      var items := carts[user];
      var i := LineWithId(items, itemId);
      if i == |items| {
        return NotFound(ItemNotFound);
      }
      if items[i].product !in catalog.products {
        // `product.stock` on a deleted product throws: the catch answers 500
        return ServerError;
      }
      var product := catalog.products[items[i].product];
      if quantity > product.stock {
        return InsufficientStock;
      }
      if quantity <= 0 {
        PullWellFormed(items, itemId, nextItemId);
      } else {
        AdjustSets(items, i, quantity);
        assert WellFormed(Adjust(items, itemId, quantity), nextItemId) by {
          var s := Adjust(items, itemId, quantity);
          forall a, b | 0 <= a < b < |s| ensures ProductOf(s[a]) != ProductOf(s[b]) && IdOf(s[a]) != IdOf(s[b]) {
            assert ProductOf(items[a]) != ProductOf(items[b]) && IdOf(items[a]) != IdOf(items[b]);
          }
        }
      }
      carts := carts[user := Adjust(items, itemId, quantity)];
      r := Ok(carts[user]);
    }

    /** DELETE /:itemId: pull the line; an id no line has is not an error. */
    method RemoveItem(user: UserId, itemId: ItemId) returns (r: Reply<seq<CartItem>>)
      requires Valid()
      modifies this
      ensures Valid() && nextItemId == old(nextItemId)
      ensures user !in old(carts) ==> r == NotFound(CartNotFound) && carts == old(carts)
      ensures user in old(carts) ==>
        carts == old(carts)[user := Pull(old(carts[user]), itemId)] && r == Ok(carts[user])
    {
      if user !in carts {
        return NotFound(CartNotFound);
      }
      PullWellFormed(carts[user], itemId, nextItemId);
      carts := carts[user := Pull(carts[user], itemId)];
      r := Ok(carts[user]);
    }

    /** DELETE /: empty the cart; a user without a cart gets 404. */
    method Clear(user: UserId) returns (r: Reply<string>)
      requires Valid()
      modifies this
      ensures Valid() && nextItemId == old(nextItemId)
      ensures user !in old(carts) ==> r == NotFound(CartNotFound) && carts == old(carts)
      ensures user in old(carts) ==> carts == old(carts)[user := []] && r == Ok(CartCleared)
    {
      if user !in carts {
        return NotFound(CartNotFound);
      }
      carts := carts[user := []];
      r := Ok(CartCleared);
    }
  }
}
