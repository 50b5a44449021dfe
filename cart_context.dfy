// The client's cart state (frontend/src/context/CartContext.jsx): the cart
// last received from the server, replaced wholesale by each reply, reset
// when the user logs out, and the badge count derived from it.

module CartContext {
  import opened Shop
  import opened CartRoutes

  /** A cart line as the client receives it, with its product populated
      (None when the product has been deleted). */
  datatype ClientLine = ClientLine(id: ItemId, product: Option<Product>, quantity: int)

  /** `response.data`; `items` may be missing. */
  datatype ClientCart = ClientCart(items: Option<seq<ClientLine>>)

  /** The populated reply for a stored cart. */
  function Populate(items: seq<CartItem>, products: map<ProductId, Product>): (lines: seq<ClientLine>)
    ensures |lines| == |items|
    ensures forall k :: 0 <= k < |items| ==>
      && lines[k].id == items[k].id
      && lines[k].quantity == items[k].quantity
      && lines[k].product == (if items[k].product in products then Some(products[items[k].product]) else None)
  {
    if items == [] then []
    else
      var p := if items[0].product in products then Some(products[items[0].product]) else None;
      [ClientLine(items[0].id, p, items[0].quantity)] + Populate(items[1..], products)
  }

  /** Units in the lines. */
  function QuantitySum(lines: seq<ClientLine>): int {
    if lines == [] then 0 else lines[0].quantity + QuantitySum(lines[1..])
  }

  /** `items.reduce((sum, item) => sum + item.quantity, acc)` */
  function ReduceQuantities(lines: seq<ClientLine>, acc: int): (n: int)
    ensures n == acc + QuantitySum(lines)
  {
    if lines == [] then acc else ReduceQuantities(lines[1..], acc + lines[0].quantity)
  }

  /** `cartItemCount`: the units in the cart, 0 without a cart or items. */
  function CartItemCount(cart: Option<ClientCart>): (n: int)
    ensures cart.None? || cart.value.items.None? ==> n == 0
    ensures cart.Some? && cart.value.items.Some? ==> n == QuantitySum(cart.value.items.value)
  {
    match cart
    case None => 0
    case Some(c) =>
      match c.items
      case None => 0
      case Some(lines) => ReduceQuantities(lines, 0)
  }

  /** Appending a line raises the count by exactly its quantity. */
  lemma {:induction false} CountAppend(lines: seq<ClientLine>, line: ClientLine)
    ensures QuantitySum(lines + [line]) == QuantitySum(lines) + line.quantity
  {
    if lines == [] {
      assert lines + [line] == [line];
    } else {
      assert (lines + [line])[1..] == lines[1..] + [line];
      CountAppend(lines[1..], line);
    }
  }

  /** The badge counts the units of the stored cart the server sent. */
  lemma {:induction false} CountMatchesStoredCart(items: seq<CartItem>, products: map<ProductId, Product>)
    ensures CartItemCount(Some(ClientCart(Some(Populate(items, products))))) == StoredUnits(items)
  {
    if items != [] {
      CountMatchesStoredCart(items[1..], products);
    }
  }

  function StoredUnits(items: seq<CartItem>): int {
    if items == [] then 0 else items[0].quantity + StoredUnits(items[1..])
  }

  /** `setCart(response.data)` after a successful request; a failed one
      throws before the state is touched. */
  function AfterReply(cart: Option<ClientCart>, reply: Option<ClientCart>): (next: Option<ClientCart>)
    ensures reply.Some? ==> next == reply
    ensures reply.None? ==> next == cart
  {
    if reply.Some? then reply else cart
  }

  /** `clearCart`: on success the state becomes `{ items: [] }`. */
  function AfterClear(cart: Option<ClientCart>, succeeded: bool): (next: Option<ClientCart>)
    ensures succeeded ==> next == Some(ClientCart(Some([]))) && CartItemCount(next) == 0
    ensures !succeeded ==> next == cart
  {
    if succeeded then Some(ClientCart(Some([]))) else cart
  }

  /** The effect on `user`: logged out resets the cart to null, logged in
      fetches it (a failed fetch keeps the current state). */
  function AfterUserChange(loggedIn: bool, cart: Option<ClientCart>, fetched: Option<ClientCart>)
    : (next: Option<ClientCart>)
    ensures !loggedIn ==> next == None && CartItemCount(next) == 0
    ensures loggedIn ==> next == AfterReply(cart, fetched)
  {
    if loggedIn then AfterReply(cart, fetched) else None
  }
}
