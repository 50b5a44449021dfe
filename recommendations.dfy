// The recommendation handlers (backend/routes/recommendations.js).
// Personalised: the categories of everything the user bought, then up to 8
// in-stock products of those categories (best rated, then newest), then a
// backfill of in-stock products not yet chosen (best rated, then most
// reviewed) up to 8 in all. Popular: the backfill query on its own.
// The product collection is a sequence in its natural order.

module Recommendations {
  import opened Shop
  import opened Ranking
  import opened OrderRoutes

  const Limit: nat := 8

  /** `sort({ rating: -1, createdAt: -1 })` */
  function ByRatingThenRecency(p: Product): Rank {
    Rank(p.rating, p.createdAt)
  }

  /** `sort({ rating: -1, numReviews: -1 })` */
  function ByRatingThenReviews(p: Product): Rank {
    Rank(p.rating, p.numReviews)
  }

  function IdOfProduct(p: Product): nat { p.id }

  function IdsOf(ps: seq<Product>): set<ProductId> {
    set p | p in ps :: p.id
  }

  /** Populating a reference: the product with that id, if it still exists. */
  function FindById(products: seq<Product>, id: ProductId): (r: Option<Product>)
    ensures r.Some? ==> r.value in products && r.value.id == id
    ensures r.None? ==> forall k :: 0 <= k < |products| ==> products[k].id != id
  {
    if products == [] then None
    else if products[0].id == id then Some(products[0])
    else FindById(products[1..], id)
  }

  /** The line names category `c`: its product exists and has category `c`
      (an empty category is falsy and skipped). */
  predicate NamesCategory(line: OrderLine, products: seq<Product>, c: string) {
    var p := FindById(products, line.product);
    p.Some? && p.value.category == c && c != ""
  }

  /** What one line adds to the set. */
  function LineCategory(line: OrderLine, products: seq<Product>): set<string> {
    match FindById(products, line.product)
    case Some(p) => if p.category != "" then {p.category} else {}
    case None => {}
  }

  /** The categories the inner `forEach` adds for a list of lines. */
  function LinesCategories(lines: seq<OrderLine>, products: seq<Product>): set<string> {
    if lines == [] then {}
    else LinesCategories(lines[..|lines| - 1], products) + LineCategory(lines[|lines| - 1], products)
  }

  /** The categories the outer `forEach` collects over the user's orders. */
  function OrdersCategories(orders: seq<Order>, products: seq<Product>): set<string> {
    if orders == [] then {}
    else OrdersCategories(orders[..|orders| - 1], products) + LinesCategories(orders[|orders| - 1].orderItems, products)
  }

  lemma {:induction false} LinesCategoriesExactly(lines: seq<OrderLine>, products: seq<Product>, c: string)
    ensures c in LinesCategories(lines, products) <==>
      exists j :: 0 <= j < |lines| && NamesCategory(lines[j], products, c)
  {
    if lines != [] {
      var init := lines[..|lines| - 1];
      LinesCategoriesExactly(init, products, c);
      if c in LinesCategories(init, products) {
        var j :| 0 <= j < |init| && NamesCategory(init[j], products, c);
        assert lines[j] == init[j];
      }
      if exists j :: 0 <= j < |lines| && NamesCategory(lines[j], products, c) {
        var j :| 0 <= j < |lines| && NamesCategory(lines[j], products, c);
        if j < |init| {
          assert init[j] == lines[j];
        }
      }
    }
  }

  /** The purchased-category set is exactly the categories of the products
      named by some line of some order. */
  lemma {:induction false} OrdersCategoriesExactly(orders: seq<Order>, products: seq<Product>, c: string)
    ensures c in OrdersCategories(orders, products) <==>
      exists i, j :: 0 <= i < |orders| && 0 <= j < |orders[i].orderItems|
                  && NamesCategory(orders[i].orderItems[j], products, c)
  {
    if orders != [] {
      var n := |orders| - 1;
      var init := orders[..n];
      OrdersCategoriesExactly(init, products, c);
      LinesCategoriesExactly(orders[n].orderItems, products, c);
      if c in OrdersCategories(init, products) {
        var i, j :| 0 <= i < |init| && 0 <= j < |init[i].orderItems| && NamesCategory(init[i].orderItems[j], products, c);
        assert orders[i] == init[i];
      }
      if exists i, j :: 0 <= i < |orders| && 0 <= j < |orders[i].orderItems|
                     && NamesCategory(orders[i].orderItems[j], products, c) {
        var i, j :| 0 <= i < |orders| && 0 <= j < |orders[i].orderItems| && NamesCategory(orders[i].orderItems[j], products, c);
        if i < n {
          assert init[i] == orders[i];
        }
      }
    }
  }

  /** The nested `forEach` that fills the category set. */
  method PurchasedCategories(orders: seq<Order>, products: seq<Product>) returns (cats: set<string>)
    ensures cats == OrdersCategories(orders, products)
  {
    cats := {};
    for i := 0 to |orders|
      invariant cats == OrdersCategories(orders[..i], products)
    {
      var lines := orders[i].orderItems;
      for j := 0 to |lines|
        invariant cats == OrdersCategories(orders[..i], products) + LinesCategories(lines[..j], products)
      {
        assert lines[..j + 1][..j] == lines[..j];
        match FindById(products, lines[j].product) {
          case Some(p) =>
            if p.category != "" {
              cats := cats + {p.category};
            }
          case None =>
        }
      }
      assert lines[..|lines|] == lines;
      assert orders[..i + 1][..i] == orders[..i];
    }
    assert orders[..|orders|] == orders;
  }

  /** Stage one's filter: in stock and of a purchased category. */
  function InCategories(cats: set<string>): Product -> bool {
    (p: Product) => p.stock > 0 && p.category in cats
  }

  /** The backfill's filter: in stock and not chosen yet. */
  function NotChosen(chosen: seq<Product>): Product -> bool {
    (p: Product) => p.stock > 0 && p.id !in IdsOf(chosen)
  }

  /** The popular feed's filter. */
  function InStock(): Product -> bool {
    (p: Product) => p.stock > 0
  }

  /** Stage one: in-stock products of the purchased categories, best rated
      then newest, at most 8; nothing at all when no category was bought. */
  function StageOne(products: seq<Product>, cats: set<string>): (r: seq<Product>)
    ensures cats == {} ==> r == []
    ensures cats != {} ==> |r| == Min(Limit, |Filter(products, InCategories(cats))|)
    ensures |r| <= Limit
    ensures forall k :: 0 <= k < |r| ==> r[k] in products && r[k].stock > 0 && r[k].category in cats
    ensures SortedBy(r, ByRatingThenRecency)
  {
    if cats == {} then []
    else Query(products, InCategories(cats), ByRatingThenRecency, Limit)
  }

  /** Stage two: in-stock products not chosen yet, best rated then most
      reviewed, filling the remaining places. */
  function Backfill(products: seq<Product>, chosen: seq<Product>): (r: seq<Product>)
    requires |chosen| < Limit
    ensures |r| == Min(Limit - |chosen|, |Filter(products, NotChosen(chosen))|)
    ensures forall k :: 0 <= k < |r| ==> r[k] in products && r[k].stock > 0 && r[k].id !in IdsOf(chosen)
    ensures SortedBy(r, ByRatingThenReviews)
  {
    Query(products, NotChosen(chosen), ByRatingThenReviews, Limit - |chosen|)
  }

  /** Stage one, then the backfill when stage one has fewer than 8. */
  function Select(products: seq<Product>, cats: set<string>): (r: seq<Product>)
    ensures |r| <= Limit
    ensures forall k :: 0 <= k < |r| ==> r[k] in products && r[k].stock > 0
    ensures var first := StageOne(products, cats); |first| <= |r| && r[..|first|] == first
    ensures |StageOne(products, cats)| == Limit ==> r == StageOne(products, cats)
    ensures var first := StageOne(products, cats); |first| < Limit ==> r == first + Backfill(products, first)
  {
    var first := StageOne(products, cats);
    if |first| < Limit then first + Backfill(products, first) else first
  }

  /** GET /recommendations for `user`. */
  method Recommend(user: UserId, orders: seq<Order>, products: seq<Product>) returns (r: seq<Product>)
    ensures r == Select(products, OrdersCategories(Filter(orders, OwnedBy(user)), products))
  {
    var mine := Filter(orders, OwnedBy(user));
    var cats := PurchasedCategories(mine, products);
    r := Select(products, cats);
  }

  /** GET /recommendations/popular. */
  function Popular(products: seq<Product>): (r: seq<Product>)
    ensures |r| == Min(Limit, |Filter(products, InStock())|)
    ensures forall k :: 0 <= k < |r| ==> r[k] in products && r[k].stock > 0
    ensures SortedBy(r, ByRatingThenReviews)
  {
    Query(products, InStock(), ByRatingThenReviews, Limit)
  }

  /** Stage one repeats no product. */
  lemma StageOneDistinct(products: seq<Product>, cats: set<string>)
    requires DistinctBy(products, IdOfProduct)
    ensures DistinctBy(StageOne(products, cats), IdOfProduct)
  {
    if cats != {} {
      QueryDistinct(products, InCategories(cats), ByRatingThenRecency, Limit, IdOfProduct);
    }
  }

  /** The backfill repeats no product and none already chosen. */
  lemma BackfillDistinct(products: seq<Product>, chosen: seq<Product>)
    requires DistinctBy(products, IdOfProduct) && |chosen| < Limit
    ensures DistinctBy(Backfill(products, chosen), IdOfProduct)
    ensures forall i, j :: 0 <= i < |chosen| && 0 <= j < |Backfill(products, chosen)| ==>
      IdOfProduct(chosen[i]) != IdOfProduct(Backfill(products, chosen)[j])
  {
    QueryDistinct(products, NotChosen(chosen), ByRatingThenReviews, Limit - |chosen|, IdOfProduct);
    forall i | 0 <= i < |chosen| ensures chosen[i].id in IdsOf(chosen) {
      assert chosen[i] in chosen;
    }
  }

  /** With distinct product ids the recommendations repeat no product. */
  lemma SelectDistinct(products: seq<Product>, cats: set<string>)
    requires DistinctBy(products, IdOfProduct)
    ensures DistinctBy(Select(products, cats), IdOfProduct)
  {
    var first := StageOne(products, cats);
    StageOneDistinct(products, cats);
    if |first| < Limit {
      BackfillDistinct(products, first);
      AppendDistinct(first, Backfill(products, first), IdOfProduct);
    }
  }

  /** Two lists with distinct ids and no id in common join into one. */
  lemma AppendDistinct<T>(a: seq<T>, b: seq<T>, id: T -> nat)
    requires DistinctBy(a, id) && DistinctBy(b, id)
    requires forall i, j :: 0 <= i < |a| && 0 <= j < |b| ==> id(a[i]) != id(b[j])
    ensures DistinctBy(a + b, id)
  {
    var r := a + b;
    forall i, j | 0 <= i < j < |r| ensures id(r[i]) != id(r[j]) {
      if j < |a| {
        assert r[i] == a[i] && r[j] == a[j];
      } else if i < |a| {
        assert r[i] == a[i] && r[j] == b[j - |a|];
      } else {
        assert r[i] == b[i - |a|] && r[j] == b[j - |a|];
      }
    }
  }

  /** Stage one keeps the best: an eligible product it leaves out ranks
      no higher than any product it keeps. */
  lemma StageOneIsTop(products: seq<Product>, cats: set<string>, left: Product, kept: Product)
    requires left in products && left.stock > 0 && left.category in cats
    requires left !in StageOne(products, cats) && kept in StageOne(products, cats)
    ensures AtLeast(ByRatingThenRecency(kept), ByRatingThenRecency(left))
  {
    QueryIsTop(products, InCategories(cats), ByRatingThenRecency, Limit, left, kept);
  }

  /** The popular feed keeps the best: an in-stock product it leaves out
      ranks no higher than any product it shows. */
  lemma PopularIsTop(products: seq<Product>, left: Product, kept: Product)
    requires left in products && left.stock > 0
    requires left !in Popular(products) && kept in Popular(products)
    ensures AtLeast(ByRatingThenReviews(kept), ByRatingThenReviews(left))
  {
    QueryIsTop(products, InStock(), ByRatingThenReviews, Limit, left, kept);
  }

  lemma {:induction false} FilterSameTest<T>(s: seq<T>, f: T -> bool, g: T -> bool)
    requires forall x :: f(x) == g(x)
    ensures Filter(s, f) == Filter(s, g)
  {
    if s != [] {
      FilterSameTest(s[1..], f, g);
    }
  }

  /** Without purchase history the personalised feed is the popular feed. */
  lemma NoHistoryMeansPopular(products: seq<Product>)
    ensures Select(products, {}) == Popular(products)
  {
    FilterSameTest(products, NotChosen([]), InStock());
  }
}
