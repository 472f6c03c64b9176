/** Ordering, windowing and searching over sequences: the `orderBy`, `take`,
    `where` and `findFirst` of the store queries are modelled with these. A sort by an integer
    key ascending covers both directions (a descending order sorts by the
    negated key). */
module Queries {
  import opened Wrappers


  /** The keys of `s` never decrease from left to right. */
  predicate SortedBy<T>(s: seq<T>, key: T -> int) {
    forall i, j :: 0 <= i < j < |s| ==> key(s[i]) <= key(s[j])
  }

  /** Inserts `x` into a sorted sequence, before the first element whose key
      is not smaller. */
  function Insert<T>(x: T, s: seq<T>, key: T -> int): (r: seq<T>)
    requires SortedBy(s, key)
    ensures |r| == |s| + 1
    ensures multiset(r) == multiset(s) + multiset{x}
    ensures forall i :: 0 <= i < |r| ==> r[i] == x || r[i] in s
    ensures SortedBy(r, key)
  {
    if |s| == 0 then [x]
    else if key(x) <= key(s[0]) then [x] + s
    else
      var rest := Insert(x, s[1..], key);
      assert s == [s[0]] + s[1..];
      forall i | 0 <= i < |rest| ensures key(s[0]) <= key(rest[i]) {
        if rest[i] != x {
          var k :| 0 <= k < |s[1..]| && s[1..][k] == rest[i];
          assert s[k + 1] == rest[i];
        }
      }
      var r := [s[0]] + rest;
      assert forall i :: 1 <= i < |r| ==> r[i] == rest[i - 1];
      r
  }

  /** Insertion sort by an integer key: the result is ordered and is a
      permutation of the input. */
  function Sort<T>(s: seq<T>, key: T -> int): (r: seq<T>)
    ensures |r| == |s|
    ensures multiset(r) == multiset(s)
    ensures SortedBy(r, key)
  {
    if |s| == 0 then []
    else
      assert s == [s[0]] + s[1..];
      Insert(s[0], Sort(s[1..], key), key)
  }

  /** The first `n` elements (all of them when there are fewer): a query's
      `take: n`. */
  function Take<T>(s: seq<T>, n: nat): (r: seq<T>)
    ensures |r| <= n && |r| <= |s|
    ensures |r| == n || |r| == |s|
    ensures r == s[..|r|]
  {
    if |s| <= n then s else s[..n]
  }

  /** The `n` best elements by ascending `key`: a query's `orderBy` followed
      by `take: n`. Every element left out ranks no better than every element
      kept. */
  function Top<T>(s: seq<T>, key: T -> int, n: nat): (r: seq<T>)
    ensures |r| <= n && (|r| == n || |r| == |s|)
    ensures SortedBy(r, key)
    ensures multiset(r) <= multiset(s)
    ensures |s| <= n ==> multiset(r) == multiset(s)
    ensures forall i :: 0 <= i < |s| ==> s[i] in r || forall k :: 0 <= k < |r| ==> key(r[k]) <= key(s[i])
  {
    var sorted := Sort(s, key);
    TakeOfSorted(sorted, s, key, n);
    Take(sorted, n)
  }

  /** The facts about a prefix of a sorted permutation that `Top` states. */
  lemma TakeOfSorted<T>(sorted: seq<T>, s: seq<T>, key: T -> int, n: nat)
    requires multiset(sorted) == multiset(s) && SortedBy(sorted, key)
    ensures var r := Take(sorted, n);
            && SortedBy(r, key)
            && multiset(r) <= multiset(s)
            && (|s| <= n ==> multiset(r) == multiset(s))
            && forall i :: 0 <= i < |s| ==> s[i] in r || forall k :: 0 <= k < |r| ==> key(r[k]) <= key(s[i])
  {
    var r := Take(sorted, n);
    assert sorted == r + sorted[|r|..];
    assert multiset(sorted) == multiset(r) + multiset(sorted[|r|..]);
    forall i | 0 <= i < |s| && s[i] !in r
      ensures forall k :: 0 <= k < |r| ==> key(r[k]) <= key(s[i])
    {
      assert s[i] in multiset(sorted);
      var j :| 0 <= j < |sorted| && sorted[j] == s[i];
      assert j >= |r|;
    }
  }

  /** `r` can be obtained from `s` by deleting elements: it keeps their
      relative order. */
  predicate Subsequence<T(==)>(r: seq<T>, s: seq<T>)
    decreases |s|
  {
    if |r| == 0 then true
    else if |s| == 0 then false
    else (r[0] == s[0] && Subsequence(r[1..], s[1..])) || Subsequence(r, s[1..])
  }

  /** The elements of `s` satisfying `p`, in their original order: a query's
      `where` clause. */
  function Filter<T>(s: seq<T>, p: T -> bool): (r: seq<T>)
    ensures |r| <= |s|
    ensures forall i :: 0 <= i < |r| ==> p(r[i])
    ensures forall i :: 0 <= i < |r| ==> r[i] in s
    ensures forall i :: 0 <= i < |s| && p(s[i]) ==> s[i] in r
    ensures multiset(r) <= multiset(s)
  {
    if |s| == 0 then []
    else
      assert s == [s[0]] + s[1..];
      var rest := Filter(s[1..], p);
      if p(s[0]) then [s[0]] + rest else rest
  }

  /** A filter keeps every satisfying element as often as it occurs and no
      other element, in the order of `s`. */
  lemma {:induction false} FilterExact<T(!new)>(s: seq<T>, p: T -> bool)
    ensures forall x :: multiset(Filter(s, p))[x] == if p(x) then multiset(s)[x] else 0
    ensures Subsequence(Filter(s, p), s)
  {
    if |s| > 0 {
      assert s == [s[0]] + s[1..];
      FilterExact(s[1..], p);
      var rest := Filter(s[1..], p);
      if p(s[0]) {
        assert ([s[0]] + rest)[1..] == rest;
      }
    }
  }

  /** The position of the first element satisfying `p`: a `findFirst` with no
      ordering, taken in insertion order. */
  function FirstIndex<T>(s: seq<T>, p: T -> bool): (r: Option<nat>)
    ensures r.Some? ==> r.value < |s| && p(s[r.value])
    ensures r.Some? ==> forall j :: 0 <= j < r.value ==> !p(s[j])
    ensures r.None? <==> forall j :: 0 <= j < |s| ==> !p(s[j])
  {
    if |s| == 0 then None
    else if p(s[0]) then Some(0)
    else
      match FirstIndex(s[1..], p)
      case None => None
      case Some(k) => Some(k + 1)
  }
}
