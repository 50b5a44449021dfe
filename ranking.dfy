// The query shape the handlers use on the product and order collections:
// `find(filter).sort({a: -1, b: -1}).limit(k)`, i.e. filter, sort
// descending on a two-level key, take the first k.

module Ranking {

  /** A two-level sort key, both levels sorted descending. */
  datatype Rank = Rank(primary: real, secondary: int)

  /** `a` may stand before `b` in a descending sort on both levels. */
  predicate AtLeast(a: Rank, b: Rank) {
    a.primary > b.primary || (a.primary == b.primary && a.secondary >= b.secondary)
  }

  ghost predicate SortedBy<T>(s: seq<T>, key: T -> Rank) {
    forall i, j :: 0 <= i < j < |s| ==> AtLeast(key(s[i]), key(s[j]))
  }

  /** No two elements share an identifier. */
  ghost predicate DistinctBy<T>(s: seq<T>, id: T -> nat) {
    forall i, j :: 0 <= i < j < |s| ==> id(s[i]) != id(s[j])
  }

  /** `a` is `b` with some elements dropped, order kept. */
  ghost predicate Subsequence<T>(a: seq<T>, b: seq<T>)
    decreases |b|
  {
    if a == [] then true
    else if b == [] then false
    else (a[0] == b[0] && Subsequence(a[1..], b[1..])) || Subsequence(a, b[1..])
  }

  /** The `find` filter: the elements that pass, in collection order. */
  function Filter<T>(s: seq<T>, keep: T -> bool): (r: seq<T>)
    ensures forall i :: 0 <= i < |r| ==> r[i] in s && keep(r[i])
    ensures forall i :: 0 <= i < |s| && keep(s[i]) ==> s[i] in r
    ensures |r| <= |s|
  {
    if s == [] then []
    else if keep(s[0]) then [s[0]] + Filter(s[1..], keep)
    else Filter(s[1..], keep)
  }

  /** Places `x` before the first element it ranks at least as high as.
      Elements of equal rank keep their relative order. */
  function Insert<T>(x: T, s: seq<T>, key: T -> Rank): (r: seq<T>)
    requires SortedBy(s, key)
    ensures SortedBy(r, key)
    ensures multiset(r) == multiset(s) + multiset{x}
  {
    if s == [] then [x]
    else if AtLeast(key(x), key(s[0])) then
      ConsSorted(x, s, key);
      [x] + s
    else
      var rest := Insert(x, s[1..], key);
      assert s == [s[0]] + s[1..];
      HeadAboveInsert(s[0], x, s[1..], rest, key);
      [s[0]] + rest
  }

  /** An element ranking at least as high as the head of a sorted list may
      stand in front of it. */
  lemma ConsSorted<T>(y: T, s: seq<T>, key: T -> Rank)
    requires SortedBy(s, key)
    requires s == [] || AtLeast(key(y), key(s[0]))
    ensures SortedBy([y] + s, key)
  {
    var r := [y] + s;
    forall i, j | 0 <= i < j < |r| ensures AtLeast(key(r[i]), key(r[j])) {
      assert r[j] == s[j - 1];
      if i > 0 {
        assert r[i] == s[i - 1];
      } else if j > 1 {
        assert AtLeast(key(s[0]), key(s[j - 1]));
      }
    }
  }

  /** The head of a sorted list stays in front of the insertion into its
      tail of an element it outranks. */
  lemma HeadAboveInsert<T>(h: T, x: T, tail: seq<T>, rest: seq<T>, key: T -> Rank)
    requires SortedBy([h] + tail, key) && SortedBy(rest, key)
    requires AtLeast(key(h), key(x))
    requires multiset(rest) == multiset(tail) + multiset{x}
    ensures SortedBy([h] + rest, key)
  {
    if rest != [] {
      assert rest[0] in multiset(rest);
      if rest[0] != x {
        var j :| 0 <= j < |tail| && tail[j] == rest[0];
        var ht := [h] + tail;
        assert ht[0] == h && ht[j + 1] == tail[j];
        assert AtLeast(key(ht[0]), key(ht[j + 1]));
      }
    }
    ConsSorted(h, rest, key);
  }

  /** The `sort`: a stable descending sort by `key`. */
  function Sort<T>(s: seq<T>, key: T -> Rank): (r: seq<T>)
    ensures SortedBy(r, key)
    ensures multiset(r) == multiset(s)
  {
    if s == [] then []
    else
      assert s == [s[0]] + s[1..];
      Insert(s[0], Sort(s[1..], key), key)
  }

  function Min(a: nat, b: nat): nat {
    if a <= b then a else b
  }

  /** The `limit`: the first `k` elements, or all of them if fewer. */
  function Take<T>(s: seq<T>, k: nat): (r: seq<T>)
    ensures |r| == Min(k, |s|) && r == s[..|r|]
  {
    s[..Min(k, |s|)]
  }

  /** `find(filter).sort(key).limit(k)`. */
  function Query<T>(s: seq<T>, keep: T -> bool, key: T -> Rank, k: nat): (r: seq<T>)
    ensures |r| == Min(k, |Filter(s, keep)|)
    ensures forall i :: 0 <= i < |r| ==> r[i] in s && keep(r[i])
    ensures SortedBy(r, key)
  {
    var sorted := Sort(Filter(s, keep), key);
    assert |sorted| == |Filter(s, keep)| by {
      assert |multiset(sorted)| == |multiset(Filter(s, keep))|;
    }
    assert forall i :: 0 <= i < |sorted| ==> sorted[i] in multiset(Filter(s, keep));
    Take(sorted, k)
  }

  /** What the query leaves out ranks no higher than anything it keeps:
      the result is the top `k` of the matching elements. */
  lemma QueryIsTop<T>(s: seq<T>, keep: T -> bool, key: T -> Rank, k: nat, x: T, y: T)
    requires x in s && keep(x) && x !in Query(s, keep, key, k)
    requires y in Query(s, keep, key, k)
    ensures AtLeast(key(y), key(x))
  {
    var sorted := Sort(Filter(s, keep), key);
    var r := Query(s, keep, key, k);
    assert x in multiset(sorted);
    var j :| 0 <= j < |sorted| && sorted[j] == x;
    var i :| 0 <= i < |r| && r[i] == y;
    assert r == sorted[..|r|];
    assert sorted[i] == y;
  }

  /** When fewer than `k` elements match, the query returns all of them. */
  lemma QueryTakesAllWhenFew<T>(s: seq<T>, keep: T -> bool, key: T -> Rank, k: nat, x: T)
    requires x in s && keep(x)
    requires |Filter(s, keep)| <= k
    ensures x in Query(s, keep, key, k)
  {
    var sorted := Sort(Filter(s, keep), key);
    assert |sorted| == |Filter(s, keep)| by {
      assert |multiset(sorted)| == |multiset(Filter(s, keep))|;
    }
    assert x in multiset(sorted);
    assert Query(s, keep, key, k) == sorted;
  }

  // ---- identifiers stay distinct through filter, sort and limit ----

  lemma ConsDistinct<T>(x: T, s: seq<T>, id: T -> nat)
    requires DistinctBy(s, id)
    requires forall k :: 0 <= k < |s| ==> id(s[k]) != id(x)
    ensures DistinctBy([x] + s, id)
  {
    var r := [x] + s;
    forall i, j | 0 <= i < j < |r| ensures id(r[i]) != id(r[j]) {
      assert r[j] == s[j - 1];
      if i > 0 {
        assert r[i] == s[i - 1];
      }
    }
  }

  lemma {:induction false} FilterDistinct<T>(s: seq<T>, keep: T -> bool, id: T -> nat)
    requires DistinctBy(s, id)
    ensures DistinctBy(Filter(s, keep), id)
  {
    if s != [] {
      FilterDistinct(s[1..], keep, id);
      if keep(s[0]) {
        var rest := Filter(s[1..], keep);
        forall k | 0 <= k < |rest| ensures id(rest[k]) != id(s[0]) {
          assert rest[k] in s[1..];
        }
        ConsDistinct(s[0], rest, id);
      }
    }
  }

  lemma {:induction false} InsertDistinct<T>(x: T, s: seq<T>, key: T -> Rank, id: T -> nat)
    requires SortedBy(s, key) && DistinctBy(s, id)
    requires forall k :: 0 <= k < |s| ==> id(s[k]) != id(x)
    ensures DistinctBy(Insert(x, s, key), id)
  {
    if s != [] && !AtLeast(key(x), key(s[0])) {
      InsertDistinct(x, s[1..], key, id);
      var rest := Insert(x, s[1..], key);
      forall k | 0 <= k < |rest| ensures id(rest[k]) != id(s[0]) {
        assert rest[k] in multiset(s[1..]) + multiset{x};
      }
      ConsDistinct(s[0], rest, id);
    }
  }

  lemma {:induction false} SortDistinct<T>(s: seq<T>, key: T -> Rank, id: T -> nat)
    requires DistinctBy(s, id)
    ensures DistinctBy(Sort(s, key), id)
  {
    if s != [] {
      SortDistinct(s[1..], key, id);
      var rest := Sort(s[1..], key);
      forall k | 0 <= k < |rest| ensures id(rest[k]) != id(s[0]) {
        assert rest[k] in multiset(s[1..]);
      }
      InsertDistinct(s[0], rest, key, id);
    }
  }

  lemma QueryDistinct<T>(s: seq<T>, keep: T -> bool, key: T -> Rank, k: nat, id: T -> nat)
    requires DistinctBy(s, id)
    ensures DistinctBy(Query(s, keep, key, k), id)
  {
    FilterDistinct(s, keep, id);
    SortDistinct(Filter(s, keep), key, id);
  }

  // ---- subsequences ----

  lemma {:induction false} FilterSubsequence<T>(s: seq<T>, keep: T -> bool)
    ensures Subsequence(Filter(s, keep), s)
  {
    if s != [] {
      FilterSubsequence(s[1..], keep);
      if keep(s[0]) {
        var r := Filter(s, keep);
        assert r[0] == s[0] && r[1..] == Filter(s[1..], keep);
      }
    }
  }

  lemma {:induction false} PrefixSubsequence<T>(a: seq<T>, b: seq<T>, k: nat)
    requires Subsequence(a, b) && k <= |a|
    ensures Subsequence(a[..k], b)
    decreases |b|
  {
    if k > 0 {
      assert a != [] && b != [];
      if a[0] == b[0] && Subsequence(a[1..], b[1..]) {
        PrefixSubsequence(a[1..], b[1..], k - 1);
        assert a[..k][1..] == a[1..][..k - 1];
      } else {
        PrefixSubsequence(a, b[1..], k);
      }
    }
  }
}
