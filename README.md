# Kharidari storefront core in Dafny

This project models the cart, checkout and recommendation logic of the
Kharidari storefront. The model covers both sides:

- the Express handlers for the cart, orders and recommendations;
- the React pieces that show, total and change a cart, place and pay an
  order, lay out the home feeds, validate the login form and drive the
  product page's quantity stepper.

The model is split into these modules:

- `Shop` holds the shared vocabulary:
  - products, and the catalog as a mutable class over a `map`;
  - the handlers' replies (200, 404, 400, 403, 500) with their messages.
- `Ranking` holds Mongo's `find().sort().limit()` as filter, a stable
  insertion sort on a descending two-level key, then take. It proves the
  facts about these that the handlers rely on: sorted, drawn from the
  collection, the best eligible elements kept, distinct ids preserved,
  order preserved.
- `Pricing` holds the shared totals rule: free shipping above 100, else 10;
  tax at 10%; the total is the sum of the three.
- `CartRoutes` models `backend/routes/cart.js`. `CartStore` is a class
  holding the user-to-lines map and the next line id. Each handler is a
  method that states every outcome. The store keeps one line per product
  and distinct line ids.
- `OrderRoutes` models `backend/routes/orders.js`:
  - pure snapshot and pricing functions;
  - `OrderStore.Checkout`, whose stock-decrement loop mutates the catalog;
  - `Pay`, and the two readers.
- `Recommendations` models `backend/routes/recommendations.js`. A nested
  loop collects the purchased categories. The two staged queries build
  the personalised feed. The popular feed is a query of its own.
- The frontend pages and the cart context are pure functions from the
  state and the server's answers to the next state or the requests sent:
  - `CartContext`, `CartPage` and `CheckoutPage`;
  - `Home` and `Login`;
  - `ProductDetail`.

The model takes these as parameters:

- money: exact reals;
- clock readings: integers and strings;
- request outcomes: `Option`s.

## Model

| member | source | states |
|---|---|---|
| Ranking.Filter | backend/routes/recommendations.js:26-29 | the kept elements are exactly those of the collection that pass the test, no more than the collection has |
| Ranking.Insert | backend/routes/recommendations.js:31 | inserting into a sorted list keeps it sorted and adds exactly that element |
| Ranking.ConsSorted | backend/routes/recommendations.js:31 | an element ranking at least as high as the head of a sorted list may be placed in front of it |
| Ranking.HeadAboveInsert | backend/routes/recommendations.js:31 | the head of a sorted list stays in front when an element it outranks is inserted into its tail |
| Ranking.Sort | backend/routes/recommendations.js:31 | the result is ordered by the descending key and is a permutation of the input |
| Ranking.Take | backend/routes/recommendations.js:30 | `limit(k)`: the first min(k, n) elements |
| Ranking.Query | backend/routes/recommendations.js:26-31 | exactly min(k, number of elements passing the filter) results, each from the collection and passing the filter, sorted by the key |
| Ranking.QueryIsTop | backend/routes/recommendations.js:26-31 | an eligible element the query leaves out ranks no higher than any element it returns |
| Ranking.QueryTakesAllWhenFew | backend/routes/recommendations.js:26-31 | when no more than k elements pass, every one of them is returned |
| Ranking.FilterDistinct | backend/routes/recommendations.js:26-29 | filtering keeps ids distinct |
| Ranking.InsertDistinct | backend/routes/recommendations.js:31 | inserting an element with a new id keeps ids distinct |
| Ranking.SortDistinct | backend/routes/recommendations.js:31 | sorting keeps ids distinct |
| Ranking.QueryDistinct | backend/routes/recommendations.js:26-31 | a query over a collection with distinct ids returns no id twice |
| Ranking.ConsDistinct | backend/routes/recommendations.js:31 | putting an element with a new id in front keeps ids distinct |
| Ranking.FilterSubsequence | frontend/src/pages/Home.jsx:32 | `filter` keeps the surviving elements in their original order |
| Ranking.PrefixSubsequence | frontend/src/pages/Home.jsx:32 | `slice(0, k)` of an order-preserving selection is still one |
| Pricing.FromItemsPrice | backend/routes/orders.js:27-29 | the totals built from an items price are consistent: shipping 0 exactly above 100 and 10 otherwise, tax a tenth of the items, total the sum |
| Pricing.ConsistentIsUnique | backend/routes/orders.js:27-29 | consistent totals are determined by their items price |
| Pricing.TotalCoversItems | backend/routes/orders.js:27-29 | for a non-negative items price the total covers both the items and the shipping |
| Pricing.WorkedExamples | backend/routes/orders.js:27-29 | 120 gives shipping 0, tax 12, total 132; 60 gives 10, 6, 76; exactly 100 still pays shipping |
| CartRoutes.Requested | backend/routes/cart.js:28 | a missing quantity means 1; a given one is used as it is |
| CartRoutes.Pull | backend/routes/cart.js:109 | every remaining line came from the cart and has another id; every line with another id remains |
| CartRoutes.Adjust | backend/routes/cart.js:86-90 | 0 or less: no line with that id remains and every other line stays; positive: as many lines as before, each unchanged or else the line with that id now holding the new quantity |
| CartRoutes.LineOfProduct | backend/routes/cart.js:45-47 | the index of the first line for the product, or the length when no line has it |
| CartRoutes.LineWithId | backend/routes/cart.js:76-79 | the index of the first line with that id, or the length when none has it |
| CartRoutes.PullAbsent | backend/routes/cart.js:109 | pulling an id no line has leaves the cart unchanged |
| CartRoutes.PullOne | backend/routes/cart.js:109 | with distinct ids, pulling a line's id removes exactly that line and keeps the rest in order |
| CartRoutes.AdjustSets | backend/routes/cart.js:86-90 | a positive quantity replaces that line's quantity and leaves every other line as it was |
| CartRoutes.AdjustRemoves | backend/routes/cart.js:86-87 | a quantity of 0 or less removes exactly that line |
| CartRoutes.PullWellFormed | backend/routes/cart.js:109 | pulling keeps one line per product and distinct line ids |
| CartRoutes.AppendWellFormed | backend/routes/cart.js:54-56 | pushing a line for a product the cart lacks, under a fresh id, keeps one line per product and distinct ids |
| CartRoutes.CartStore.constructor | backend/routes/cart.js:10-24 | the store starts with no carts |
| CartRoutes.CartStore.GetOrCreate | backend/routes/cart.js:10-24 | the user's lines are returned; a user without a cart gets a new empty one, and nothing else changes |
| CartRoutes.CartStore.Add | backend/routes/cart.js:26-65 | unknown product: 404 and no change; stock below the requested quantity (1 by default): 400 before any cart is created; an existing line is merged, with 400 and no change when the sum exceeds the stock; otherwise a new line with a fresh id is appended; the store stays well formed |
| CartRoutes.CartStore.SetQuantity | backend/routes/cart.js:67-99 | the checks in order: no cart 404, unknown line 404, deleted product 500, quantity above stock 400; otherwise the line is set, or removed for 0 or less, and nothing else changes |
| CartRoutes.CartStore.RemoveItem | backend/routes/cart.js:101-117 | no cart: 404; otherwise exactly the lines with that id are pulled (none is not an error) |
| CartRoutes.CartStore.Clear | backend/routes/cart.js:119-134 | no cart: 404 and no change; otherwise the cart is emptied and the reply is "Cart cleared" |
| OrderRoutes.ItemsPriceSplit | backend/routes/orders.js:23-25 | the items price of two runs of lines is the sum of their items prices |
| OrderRoutes.ItemsPriceNonNegative | backend/routes/orders.js:23-25 | non-negative live prices and quantities give a non-negative items price |
| OrderRoutes.Snapshot | backend/routes/orders.js:31-37 | one order line per cart line, in order, with the line's product and quantity and the live product's name, price and image |
| OrderRoutes.NewOrder | backend/routes/orders.js:39-48 | the created order belongs to the user and has the given address, payment method, snapshot lines and consistent totals over the live items price; it is unpaid and pending |
| OrderRoutes.AfterDecrement | backend/routes/orders.js:50-54 | the decrement touches no product outside the catalog |
| OrderRoutes.DecrementedByLine | backend/routes/orders.js:50-54 | with one line per product, a product on a line ends with its stock lowered by exactly that line's quantity and every other field kept |
| OrderRoutes.UntouchedWithoutLine | backend/routes/orders.js:50-54 | a product no line names is left exactly as it was |
| OrderRoutes.DecrementStep | backend/routes/orders.js:50-54 | one iteration lowers only the line's product stock, by the line's quantity |
| OrderRoutes.OrderedIsLineQuantity | backend/routes/orders.js:50-54 | with one line per product, a product's stock drops by exactly its line's quantity |
| OrderRoutes.OrderedAbsent | backend/routes/orders.js:50-54 | a product no line names keeps its stock |
| OrderRoutes.StockCanGoNegative | backend/routes/orders.js:50-54 | there is no stock guard: stock 1 and a line of 2 leave stock -1 |
| OrderRoutes.StockStaysNonNegative | backend/routes/orders.js:50-54 | stock stays non-negative when every line fitted its product's stock beforehand |
| OrderRoutes.PaymentRef | backend/routes/orders.js:114 | the recorded payment id is never empty: a non-empty id is kept, a missing or empty one becomes "mock_payment_id" |
| OrderRoutes.MarkPaid | backend/routes/orders.js:111-118 | the order is paid at the given time with a completed payment result for the user's email, and every other field is kept |
| OrderRoutes.OrderStore.constructor | backend/routes/orders.js:39-48 | the store starts with no orders |
| OrderRoutes.OrderStore.Checkout | backend/routes/orders.js:11-66 | empty cart: 400 and no change; a deleted product: 500 and no change; otherwise the new order is appended and its id returned, each product's stock drops by what the lines ask, the cart is emptied and the store stays well formed |
| OrderRoutes.OrderStore.ListFor | backend/routes/orders.js:67-77 | exactly the user's orders, each as many times as it is stored (a permutation of the user's orders), newest first |
| OrderRoutes.OrderStore.Find | backend/routes/orders.js:79-97 | 404 exactly for an unknown id, 403 exactly for another user's order, the order itself otherwise |
| OrderRoutes.OrderStore.Pay | backend/routes/orders.js:99-127 | 404 and 403 as for reading, with no change; otherwise only that order is replaced by its paid version |
| Recommendations.FindById | backend/routes/recommendations.js:10-12 | populating a reference yields the product with that id, or nothing when no product has it |
| Recommendations.LinesCategoriesExactly | backend/routes/recommendations.js:16-20 | a category is added for a list of lines exactly when some line's product exists and has that non-empty category |
| Recommendations.OrdersCategoriesExactly | backend/routes/recommendations.js:14-21 | the purchased categories are exactly those of some existing product on some line of some order |
| Recommendations.PurchasedCategories | backend/routes/recommendations.js:14-21 | the nested loop builds exactly the purchased-category set |
| Recommendations.StageOne | backend/routes/recommendations.js:23-32 | nothing without purchased categories; otherwise exactly min(8, number of in-stock products of those categories) such products, best rated then newest |
| Recommendations.Backfill | backend/routes/recommendations.js:34-40 | exactly min(remaining places, number of eligible products) in-stock products not already chosen, best rated then most reviewed |
| Recommendations.Select | backend/routes/recommendations.js:23-43 | at most 8 in-stock products that start with the whole of stage one; stage one alone when it already has 8, otherwise stage one followed by the backfill over it |
| Recommendations.Recommend | backend/routes/recommendations.js:8-49 | the feed is the selection over the categories of the requesting user's orders only |
| Recommendations.Popular | backend/routes/recommendations.js:51-61 | exactly min(8, number of in-stock products) in-stock products, best rated then most reviewed |
| Recommendations.PopularIsTop | backend/routes/recommendations.js:53-56 | an in-stock product the popular feed leaves out ranks no higher than any product it shows |
| Recommendations.SelectDistinct | backend/routes/recommendations.js:37-42 | the personalised feed never repeats a product |
| Recommendations.StageOneDistinct | backend/routes/recommendations.js:26-31 | stage one never repeats a product |
| Recommendations.BackfillDistinct | backend/routes/recommendations.js:35-40 | the backfill never repeats a product and never repeats one already chosen by stage one (the `$nin` filter) |
| Recommendations.AppendDistinct | backend/routes/recommendations.js:42 | joining two lists without repeats and without a common product gives a list without repeats |
| Recommendations.StageOneIsTop | backend/routes/recommendations.js:26-31 | an eligible product left out of stage one ranks no higher than any product it keeps |
| Recommendations.FilterSameTest | backend/routes/recommendations.js:35-38 | two filters that agree on every product keep the same products |
| Recommendations.NoHistoryMeansPopular | backend/routes/recommendations.js:25-43 | without purchased categories the personalised feed equals the popular feed |
| CartContext.Populate | backend/routes/cart.js:12-14 | each populated line keeps its id and quantity and carries its product, or null when the product is gone |
| CartContext.ReduceQuantities | frontend/src/context/CartContext.jsx:83 | the fold adds exactly the lines' quantities to its start value |
| CartContext.CartItemCount | frontend/src/context/CartContext.jsx:83 | 0 without a cart or items; otherwise the total number of units |
| CartContext.CountAppend | frontend/src/context/CartContext.jsx:83 | appending a line raises the count by exactly its quantity |
| CartContext.CountMatchesStoredCart | frontend/src/context/CartContext.jsx:83 | the badge for a populated stored cart counts exactly its stored units |
| CartContext.AfterReply | frontend/src/context/CartContext.jsx:29-72 | a successful reply replaces the cart; a failed request leaves it as it was |
| CartContext.AfterClear | frontend/src/context/CartContext.jsx:74-81 | after a successful clear the cart is empty and the count is 0; a failure changes nothing |
| CartContext.AfterUserChange | frontend/src/context/CartContext.jsx:21-27 | logging out resets the cart to none with count 0; logging in takes the fetched cart, or keeps the current one when the fetch fails |
| CartPage.LinePrice | frontend/src/pages/Cart.jsx:37 | a line whose product is gone costs 0 |
| CartPage.Subtotal | frontend/src/pages/Cart.jsx:36-38 | line prices that are all non-negative sum to a non-negative items price |
| CartPage.ReducePrices | frontend/src/pages/Cart.jsx:36-38 | the fold adds exactly the line prices to its start value, a line without a product contributing 0 |
| CartPage.CalculateTotal | frontend/src/pages/Cart.jsx:33-43 | all four amounts are 0 without a cart or items; otherwise the totals are consistent over the line prices |
| CartPage.EmptyItemsStillShip | frontend/src/pages/Cart.jsx:33-43 | a present but empty item list still charges the flat 10 shipping |
| CartPage.SubtotalNonNegative | frontend/src/pages/Cart.jsx:36-38 | non-negative prices and quantities give a non-negative items price |
| CartPage.TotalCoversItems | frontend/src/pages/Cart.jsx:33-43 | for non-negative prices and quantities the total covers the items, and shipping is 0 or 10 |
| CartPage.MinusRequest | frontend/src/pages/Cart.jsx:132-135 | the minus button names its own line and asks for one unit fewer |
| CartPage.PlusRequest | frontend/src/pages/Cart.jsx:143-146 | the plus button names its own line and asks for one unit more |
| CartPage.MinusAdjustsOneLine | frontend/src/pages/Cart.jsx:132-135 | the minus button asks for that line's quantity less one; once the server's checks pass, a line of 1 or fewer units is removed and any other line loses one unit, leaving the rest alone |
| CartPage.PlusAdjustsOneLine | frontend/src/pages/Cart.jsx:143-146 | the plus button asks for that line's quantity plus one; once the server's checks pass, exactly that line gains one unit, except that a line holding a negative quantity is removed |
| CheckoutPage.StaysWithLines | frontend/src/pages/Checkout.jsx:76-80 | the page stays (does not redirect to the cart) exactly when there is a cart with a non-empty line list, and then its summary is the totals rule over those lines, never the all-zero summary |
| CheckoutPage.LeavesAfterLogoutOrClear | frontend/src/pages/Checkout.jsx:20-24 | after a logout or a successful clear the page redirects to the cart |
| CheckoutPage.Accumulate | frontend/src/pages/Checkout.jsx:33-35 | the page's own fold adds exactly the line prices |
| CheckoutPage.CalculateTotal | frontend/src/pages/Checkout.jsx:30-40 | the checkout summary equals the cart page's summary for every cart |
| CheckoutPage.SubtotalIsItemsPrice | frontend/src/pages/Checkout.jsx:33-35 | the line prices of a populated stored cart add up to the items price that checkout computes from the same products |
| CheckoutPage.ShownFromSubtotal | frontend/src/pages/Checkout.jsx:30-40 | the summary shown for a list of lines is the totals rule applied to their subtotal |
| CheckoutPage.ShownTotalsAreCharged | frontend/src/pages/Checkout.jsx:30-40 | the totals shown before placing an order are the totals the order is created with, provided no product changed in between |
| CheckoutPage.OrderPayload | frontend/src/pages/Checkout.jsx:47-56 | the request carries the form's five address fields and its payment method |
| CheckoutPage.Submit | frontend/src/pages/Checkout.jsx:42-74 | the order is always requested first; a pay request with id "mock_payment_" plus the clock reading follows exactly when the order was created and the method is not cash; the order page opens exactly when the order was created and was paid or is cash, and exactly then the cart is reloaded as the last request |
| CheckoutPage.PayloadBecomesOrder | frontend/src/pages/Checkout.jsx:47-56 | the order created from the payload carries the form's address and payment method |
| CheckoutPage.InitialFormPays | frontend/src/pages/Checkout.jsx:11-18 | the untouched form asks for card payment, so placing it sends a pay request straight away, followed by the cart reload when the payment succeeds |
| CheckoutPage.SentPaymentIdIsKept | frontend/src/pages/Checkout.jsx:58-64 | the payment id the page sends is never replaced by the server's mock id |
| Home.FetchProducts | frontend/src/pages/Home.jsx:18-44 | logged in: the first four recommendations, and the first four of the popular products whose ids are not among them (so in popular order and sharing no id with them); logged out: only the popular list changes, to its first four; a failed request changes nothing |
| Home.Rendered | frontend/src/pages/Home.jsx:84-131 | recommendations are shown only to a logged-in shopper who has some, at most four per section |
| Home.LoggedOutSeesPopularOnly | frontend/src/pages/Home.jsx:35-37 | a logged-out visitor sees no recommendations, even leftover ones, and the first four popular products |
| Home.NullBodyIsEmpty | frontend/src/pages/Home.jsx:26-27 | a null body counts as an empty list |
| Home.NoRecommendationsKeepsPopular | frontend/src/pages/Home.jsx:29-32 | with nothing recommended, the popular section is the first four popular products |
| Home.FilterKeepsAll | frontend/src/pages/Home.jsx:32 | a filter that every element passes keeps the list as it was |
| Login.TrimStart | frontend/src/pages/Login.jsx:24 | the result is a suffix whose removed prefix is all white space and which does not start with white space |
| Login.TrimEnd | frontend/src/pages/Login.jsx:24 | the result is a prefix whose removed suffix is all white space and which does not end with white space |
| Login.Trim | frontend/src/pages/Login.jsx:24 | the trimmed string is a stretch of the input that neither starts nor ends with white space |
| Login.TrimEmptyExactly | frontend/src/pages/Login.jsx:24-26 | the trimmed email is empty exactly when it is all white space |
| Login.IndexOf | frontend/src/pages/Login.jsx:27 | the first occurrence of the character, or the length when it is absent |
| Login.MatchesEmail | frontend/src/pages/Login.jsx:27-30 | the email pattern accepts exactly the well-formed addresses |
| Login.EmailMatchExactly | frontend/src/pages/Login.jsx:27-30 | splitting at the first `@` decides the email pattern exactly: a non-empty local part, and a domain holding a dot that is neither first nor last, with no white space and no second `@` |
| Login.EmailShapeIsTrimmed | frontend/src/pages/Login.jsx:101 | an address that matches the pattern is unchanged by trimming |
| Login.ValidateEmail | frontend/src/pages/Login.jsx:23-32 | "" exactly for an address that matches; "Email is required" exactly for a blank one; the format message exactly for the rest |
| Login.MatchesComplexity | frontend/src/pages/Login.jsx:41-45 | the complexity pattern accepts exactly the strong passwords |
| Login.ComplexityExactly | frontend/src/pages/Login.jsx:41-45 | the complexity pattern matches exactly: at least 8 characters, no line terminator, at least one lower-case letter, one upper-case letter, one digit and one of `!@#$%^&` |
| Login.ValidatePassword | frontend/src/pages/Login.jsx:34-47 | "" exactly for a strong password; "required" exactly for the empty one; "at least 8" exactly for 1 to 7 characters; the complexity message exactly for longer weak ones |
| Login.Submit | frontend/src/pages/Login.jsx:77-109 | both fields' messages are shown; login is called exactly when the email matches and the password is strong, with the email and password as entered |
| Login.BlankEmailExample | frontend/src/pages/Login.jsx:24-26 | three spaces are reported as a missing email |
| Login.GoodEmailExample | frontend/src/pages/Login.jsx:27-30 | `a@b.c` is accepted |
| Login.DotlessEmailExample | frontend/src/pages/Login.jsx:27-30 | `a@bc` is rejected with the format message |
| Login.PasswordExamples | frontend/src/pages/Login.jsx:34-47 | `Abc1!` is too short; `Abcdefg1!` is accepted; `abcdefg1!` lacks an upper-case letter |
| ProductDetail.Decrement | frontend/src/pages/ProductDetail.jsx:166 | never below 1; one less whenever that stays at or above 1 |
| ProductDetail.Increment | frontend/src/pages/ProductDetail.jsx:176 | never above the stock; one more whenever that stays within the stock |
| ProductDetail.StepperShown | frontend/src/pages/ProductDetail.jsx:159 | the stepper is shown exactly when the starting quantity of 1 fits the stock |
| ProductDetail.AddDisabled | frontend/src/pages/ProductDetail.jsx:188 | the button is disabled only at stock 0, and a disabled button never sits beside a stepper |
| ProductDetail.AfterPresses | frontend/src/pages/ProductDetail.jsx:166-176 | for any stock, the quantity reached from 1 by presses exceeds the stock only while it is still 1, and is below 1 only when it equals the stock |
| ProductDetail.StepperKeepsRange | frontend/src/pages/ProductDetail.jsx:166-176 | both buttons keep a quantity between 1 and the stock |
| ProductDetail.PressesStayInRange | frontend/src/pages/ProductDetail.jsx:12-176 | from the initial 1, any run of presses keeps the quantity between 1 and the stock while the stepper is shown |
| ProductDetail.HandleAddToCart | frontend/src/pages/ProductDetail.jsx:34-47 | a visitor who is not logged in is sent to log in; a logged-in shopper requests this product in the chosen quantity |
| ProductDetail.ControlsAgree | frontend/src/pages/ProductDetail.jsx:159-188 | for non-negative stock the stepper is shown exactly when the add button is enabled |
| ProductDetail.NegativeStockStillEnabled | frontend/src/pages/ProductDetail.jsx:159-188 | a negative stock hides the stepper but leaves the button enabled, asking for more units than the stock |
| ProductDetail.StepperPassesStockCheck | backend/routes/cart.js:35-37 | a quantity the stepper can hold is at least 1 and passes the server's first stock check for adding |

## Left out

- The Express and Mongoose plumbing is not modelled: routing, the `protect` middleware, JSON parsing, `save`, and the `populate` calls on replies. The database is maps and sequences. An id is a natural number and an order's id is its index.
- Concurrency is left out. Each handler runs alone. Two checkouts at once, or a checkout racing an add, are not modelled.
- Floating point is left out. Money is an exact real, so JavaScript rounding and the currency formatting in the pages are not modelled.
- Clocks are inputs. `Date.now()`, `new Date().toISOString()` and `createdAt` become parameters, and the order list is sorted on the given `createdAt`.
- Quantities are integers. The cart routes accept any JSON number (a fraction such as 1.5 passes their comparisons with the stock), so fractional quantities are not covered. A string quantity would compare and concatenate differently in JavaScript.
- Mongoose schema validation is not modelled; models/ is not part of this model. The handlers' own checks are the only ones: a request that a schema rule refuses at `save` (a minimum quantity, a required address field, a payment method outside the allowed values) answers 500 there, while the model accepts it.
- Mongo leaves the order of tied sort keys unspecified. The model breaks ties in the collection's natural order.
- Order schema defaults such as status and payment fields: models/Order.js is not part of this model. The values used are those the handlers and pages rely on: unpaid and "pending" at creation, "completed" on payment.
- Clearing a cart that does not exist answers 404. Checkout does not check stock, decrements each product with a separate unconditional update, and rolls nothing back when a later step fails, so stock can go negative (StockCanGoNegative).
- Checkout's response, populated with the user's name and email, is not modelled. Checkout returns the new order's id.
- A client line's price is assumed present whenever its product is. The `|| 0` fallback is modelled only for a missing product.
- Login lengths count characters, not UTF-16 code units. A password with astral-plane characters can count differently in the browser.
- ProductDetail.ControlsAgree: stated for non-negative stock only, because the button's `stock === 0` guard and the stepper's `stock > 0` guard disagree for negative stock (see NegativeStockStillEnabled).
- The product page keeps the chosen quantity when it loads another product. PressesStayInRange covers only presses made from the initial quantity.
- Every failed request in the pages leaves the page state as it was. The toasts, spinners and navigation are left out, except where they decide which request is sent.
- The other pages, the authentication routes, the seed script and the currency helper are not part of this model.
