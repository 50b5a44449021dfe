// The home page's product feeds (frontend/src/pages/Home.jsx): four
// recommendations for a logged-in shopper and four popular products that
// repeat none of them.

module Home {
  import opened Shop
  import opened Ranking
  import opened Recommendations

  /** Cards shown per section. */
  const Shown: nat := 4

  /** The page's two lists. */
  datatype Feed = Feed(recommendations: seq<Product>, popular: seq<Product>)

  const EmptyFeed := Feed([], [])

  /** A request's result: it failed, or it returned a body that may be null. */
  datatype Fetch = Failed | Received(data: Option<seq<Product>>)

  /** `response.data || []` */
  function OrEmpty(data: Option<seq<Product>>): seq<Product> {
    match data case Some(ps) => ps case None => []
  }

  /** The popular list's filter: ids not among the recommendations shown. */
  function NotShown(shown: seq<Product>): Product -> bool {
    (q: Product) => q.id !in IdsOf(shown)
  }

  /** `fetchProducts`: logged in, both lists are fetched; the first four
      recommendations are kept and the popular list drops their ids before
      keeping four. Logged out, only the popular list is fetched and
      replaced. A failed request leaves the lists as they were. */
  function FetchProducts(state: Feed, loggedIn: bool, rec: Fetch, pop: Fetch): (next: Feed)
    ensures loggedIn && (rec.Failed? || pop.Failed?) ==> next == state
    ensures !loggedIn && pop.Failed? ==> next == state
    ensures !loggedIn && pop.Received? ==>
      next == state.(popular := Take(OrEmpty(pop.data), Shown))
    ensures loggedIn && rec.Received? && pop.Received? ==>
      && next.recommendations == Take(OrEmpty(rec.data), Shown)
      && next.popular == Take(Filter(OrEmpty(pop.data), NotShown(next.recommendations)), Shown)
      && |next.popular| <= Shown
      && Subsequence(next.popular, OrEmpty(pop.data))
      && (forall i, j :: 0 <= i < |next.popular| && 0 <= j < |next.recommendations| ==>
            next.popular[i].id != next.recommendations[j].id)
  {
    if loggedIn then
      match (rec, pop)
      case (Received(r), Received(p)) =>
        var recSlice := Take(OrEmpty(r), Shown);
        var recIds := IdsOf(recSlice);
        var keep := NotShown(recSlice);
        var filtered := Filter(OrEmpty(p), keep);
        var popSlice := Take(filtered, Shown);
        FilterSubsequence(OrEmpty(p), keep);
        PrefixSubsequence(filtered, OrEmpty(p), |popSlice|);
        assert forall i :: 0 <= i < |popSlice| ==> popSlice[i] == filtered[i] && keep(filtered[i]);
        assert forall j :: 0 <= j < |recSlice| ==> recSlice[j].id in recIds;
        Feed(recSlice, popSlice)
      case _ => state
    else
      match pop
      case Received(p) => state.(popular := Take(OrEmpty(p), Shown))
      case Failed => state
  }

  /** What the page renders: the recommendations section only for a
      logged-in shopper with at least one recommendation, four cards at most
      per section. */
  function Rendered(state: Feed, loggedIn: bool): (shown: Feed)
    ensures !loggedIn || state.recommendations == [] ==> shown.recommendations == []
    ensures loggedIn ==> shown.recommendations == Take(state.recommendations, Shown)
    ensures shown.popular == Take(state.popular, Shown)
  {
    Feed(if loggedIn && |state.recommendations| > 0 then Take(state.recommendations, Shown) else [],
         Take(state.popular, Shown))
  }

  /** A logged-out visitor sees no recommendation, even one left over from
      an earlier session, and the first four popular products. */
  lemma LoggedOutSeesPopularOnly(state: Feed, pop: seq<Product>)
    ensures var next := FetchProducts(state, false, Failed, Received(Some(pop)));
      Rendered(next, false) == Feed([], Take(pop, Shown))
  {
  }

  /** A null body counts as an empty list. */
  lemma NullBodyIsEmpty(state: Feed, rec: Option<seq<Product>>)
    ensures FetchProducts(state, true, Received(rec), Received(None)).popular == []
    ensures FetchProducts(state, true, Received(None), Received(rec)).recommendations == []
  {
  }

  /** With nothing recommended, the popular section is the first four of
      the popular list. */
  lemma {:induction false} NoRecommendationsKeepsPopular(state: Feed, pop: seq<Product>)
    ensures FetchProducts(state, true, Received(Some([])), Received(Some(pop))).popular == Take(pop, Shown)
  {
    FilterKeepsAll(pop, NotShown(Take([], Shown)));
  }

  lemma {:induction false} FilterKeepsAll<T>(s: seq<T>, keep: T -> bool)
    requires forall i :: 0 <= i < |s| ==> keep(s[i])
    ensures Filter(s, keep) == s
  {
    if s != [] {
      FilterKeepsAll(s[1..], keep);
    }
  }
}
