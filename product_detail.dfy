// The product page's quantity stepper and add-to-cart button
// (frontend/src/pages/ProductDetail.jsx).

module ProductDetail {
  import opened Shop
  import opened CartRoutes

  /** The quantity the page starts with. */
  const InitialQuantity: int := 1

  /** The minus button: `Math.max(1, quantity - 1)`. */
  function Decrement(quantity: int): (r: int)
    ensures r >= 1
    ensures r == quantity - 1 || r == 1
    ensures quantity > 1 ==> r == quantity - 1
  {
    if quantity - 1 > 1 then quantity - 1 else 1
  }

  /** The plus button: `Math.min(stock, quantity + 1)`. */
  function Increment(quantity: int, stock: int): (r: int)
    ensures r <= stock
    ensures r == quantity + 1 || r == stock
    ensures quantity < stock ==> r == quantity + 1
  {
    if quantity + 1 < stock then quantity + 1 else stock
  }

  /** The stepper is drawn only for a product in stock, which is exactly
      when the starting quantity fits the stock. */
  predicate StepperShown(stock: int): (r: bool)
    ensures r <==> 1 <= InitialQuantity <= stock
  {
    stock > 0
  }

  /** The add button is disabled only when the stock is exactly 0; a
      disabled button never sits beside a stepper. */
  predicate AddDisabled(stock: int): (r: bool)
    ensures r ==> !StepperShown(stock)
    ensures stock != 0 ==> !r
  {
    stock == 0
  }

  /** Both buttons keep the quantity between 1 and the stock. */
  lemma StepperKeepsRange(quantity: int, stock: int)
    requires 1 <= quantity <= stock
    ensures 1 <= Decrement(quantity) <= stock
    ensures 1 <= Increment(quantity, stock) <= stock
  {
  }

  /** Wherever the stepper is shown, the quantity it holds (reached from 1
      by any presses) stays in range. */
  lemma {:induction false} PressesStayInRange(stock: int, presses: seq<bool>)
    requires StepperShown(stock)
    ensures 1 <= AfterPresses(stock, presses) <= stock
  {
    if presses != [] {
      PressesStayInRange(stock, presses[..|presses| - 1]);
      StepperKeepsRange(AfterPresses(stock, presses[..|presses| - 1]), stock);
    }
  }

  /** The quantity after a run of presses from the initial one; `true` is
      plus, `false` is minus. */
  function AfterPresses(stock: int, presses: seq<bool>): (r: int)
    ensures r <= stock || r == InitialQuantity
    ensures r >= 1 || r == stock
  {
    if presses == [] then InitialQuantity
    else
      var q := AfterPresses(stock, presses[..|presses| - 1]);
      if presses[|presses| - 1] then Increment(q, stock) else Decrement(q)
  }

  /** What pressing the add button does. */
  datatype Action = GoToLogin | RequestAdd(productId: ProductId, quantity: int)

  /** `handleAddToCart`: a visitor is sent to log in; a logged-in shopper
      asks the server to add the chosen quantity of this product. */
  function HandleAddToCart(loggedIn: bool, productId: ProductId, quantity: int): (a: Action)
    ensures !loggedIn <==> a == GoToLogin
    ensures loggedIn ==> a.productId == productId && a.quantity == quantity
  {
    if loggedIn then RequestAdd(productId, quantity) else GoToLogin
  }

  /** For a non-negative stock the stepper is shown exactly when the
      button is enabled. */
  lemma ControlsAgree(stock: int)
    requires stock >= 0
    ensures StepperShown(stock) <==> !AddDisabled(stock)
  {
  }

  /** A negative stock (which checkout can produce) hides the stepper but
      leaves the button enabled; it then asks for 1 unit, which the
      server refuses. */
  lemma NegativeStockStillEnabled(stock: int)
    requires stock < 0
    ensures !StepperShown(stock) && !AddDisabled(stock)
    ensures HandleAddToCart(true, 0, InitialQuantity).quantity > stock
  {
  }

  /** A quantity the stepper can hold passes the server's first stock
      check for adding to the cart. */
  lemma StepperPassesStockCheck(stock: int, presses: seq<bool>)
    requires StepperShown(stock)
    ensures !(stock < Requested(Some(AfterPresses(stock, presses))))
    ensures Requested(Some(AfterPresses(stock, presses))) >= 1
  {
    PressesStayInRange(stock, presses);
  }
}
