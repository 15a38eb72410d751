/**
 * Python's `list.sort(key=k, reverse=True)` and `sorted(xs, key=k,
 * reverse=True)`: a stable sort into non-increasing key order, in which
 * elements with equal keys keep their original order. A stable sort has only
 * one possible result, so it is specified here by insertion.
 */
module Sorting {

  /** Keys in non-increasing order. */
  predicate SortedDesc<T>(s: seq<T>, key: T -> real)
  {
    forall i, j :: 0 <= i < j < |s| ==> key(s[i]) >= key(s[j])
  }

  /**
   * Among elements with equal `key`, `tie` is non-increasing: the order a
   * stable sort by `key` keeps from an input sorted by `tie`.
   */
  predicate TiesOrdered<T>(s: seq<T>, key: T -> real, tie: T -> real)
  {
    forall i, j :: 0 <= i < j < |s| && key(s[i]) == key(s[j]) ==> tie(s[i]) >= tie(s[j])
  }

  /** Puts `x` right after the last element whose key is at least `x`'s. */
  function Insert<T>(s: seq<T>, x: T, key: T -> real): (r: seq<T>)
    ensures |r| == |s| + 1
  {
    if s == [] || key(s[|s| - 1]) >= key(x) then s + [x]
    else
      assert s == s[..|s| - 1] + [s[|s| - 1]];
      Insert(s[..|s| - 1], x, key) + [s[|s| - 1]]
  }

  /** The stable descending sort: each element inserted in turn. */
  function SortDesc<T>(s: seq<T>, key: T -> real): (r: seq<T>)
    ensures |r| == |s|
  {
    if s == [] then []
    else
      assert s == s[..|s| - 1] + [s[|s| - 1]];
      Insert(SortDesc(s[..|s| - 1], key), s[|s| - 1], key)
  }

  /** The first `n` elements, or all of them when there are fewer (`xs[:n]`). */
  function Take<T>(s: seq<T>, n: nat): (r: seq<T>)
    ensures |r| == if |s| < n then |s| else n
    ensures forall k :: 0 <= k < |r| ==> r[k] == s[k]
  {
    if |s| < n then s else s[..n]
  }

  // ---------------------------------------------------------------------
  // Lemmas
  // ---------------------------------------------------------------------

  /** Inserting adds exactly the one element. */
  lemma {:induction false} InsertPermutes<T>(s: seq<T>, x: T, key: T -> real)
    ensures multiset(Insert(s, x, key)) == multiset(s) + multiset{x}
    decreases |s|
  {
    if s != [] && key(s[|s| - 1]) < key(x) {
      InsertPermutes(s[..|s| - 1], x, key);
      assert s == s[..|s| - 1] + [s[|s| - 1]];
    }
  }

  /** The sort is a permutation of its input. */
  lemma {:induction false} SortDescPermutes<T>(s: seq<T>, key: T -> real)
    ensures multiset(SortDesc(s, key)) == multiset(s)
    decreases |s|
  {
    if s != [] {
      SortDescPermutes(s[..|s| - 1], key);
      InsertPermutes(SortDesc(s[..|s| - 1], key), s[|s| - 1], key);
      assert s == s[..|s| - 1] + [s[|s| - 1]];
    }
  }

  lemma {:induction false} InsertSorted<T>(s: seq<T>, x: T, key: T -> real)
    requires SortedDesc(s, key)
    ensures SortedDesc(Insert(s, x, key), key)
    decreases |s|
  {
    if s != [] && key(s[|s| - 1]) < key(x) {
      var init := s[..|s| - 1];
      InsertSorted(init, x, key);
      InsertPermutes(init, x, key);
      var r := Insert(init, x, key);
      forall k | 0 <= k < |r|
        ensures key(r[k]) >= key(s[|s| - 1])
      {
        assert r[k] in multiset(init) + multiset{x};
        if r[k] != x {
          var i :| 0 <= i < |init| && init[i] == r[k];
        }
      }
    }
  }

  /** The sort puts the keys in non-increasing order. */
  lemma {:induction false} SortDescSorted<T>(s: seq<T>, key: T -> real)
    ensures SortedDesc(SortDesc(s, key), key)
    decreases |s|
  {
    if s != [] {
      SortDescSorted(s[..|s| - 1], key);
      InsertSorted(SortDesc(s[..|s| - 1], key), s[|s| - 1], key);
    }
  }

  lemma {:induction false} InsertTiesOrdered<T>(s: seq<T>, x: T, key: T -> real, tie: T -> real)
    requires TiesOrdered(s, key, tie)
    requires forall k :: 0 <= k < |s| ==> tie(s[k]) >= tie(x)
    ensures TiesOrdered(Insert(s, x, key), key, tie)
    decreases |s|
  {
    if s != [] && key(s[|s| - 1]) < key(x) {
      var init := s[..|s| - 1];
      var last := s[|s| - 1];
      InsertTiesOrdered(init, x, key, tie);
      InsertPermutes(init, x, key);
      var r := Insert(init, x, key);
      forall k | 0 <= k < |r| && key(r[k]) == key(last)
        ensures tie(r[k]) >= tie(last)
      {
        assert r[k] in multiset(init) + multiset{x};
        if r[k] != x {
          var i :| 0 <= i < |init| && init[i] == r[k];
          assert s[i] == r[k];
        }
      }
    }
  }

  /**
   * Stability: sorting by `key` a sequence already sorted by `tie` leaves
   * every run of equal keys in `tie` order.
   */
  lemma {:induction false} SortDescKeepsTieOrder<T>(s: seq<T>, key: T -> real, tie: T -> real)
    requires SortedDesc(s, tie)
    ensures TiesOrdered(SortDesc(s, key), key, tie)
    decreases |s|
  {
    if s != [] {
      var init := s[..|s| - 1];
      var x := s[|s| - 1];
      SortDescKeepsTieOrder(init, key, tie);
      SortDescPermutes(init, key);
      var r := SortDesc(init, key);
      forall k | 0 <= k < |r|
        ensures tie(r[k]) >= tie(x)
      {
        assert r[k] in multiset(init);
        var i :| 0 <= i < |init| && init[i] == r[k];
        assert s[i] == r[k];
      }
      InsertTiesOrdered(r, x, key, tie);
    }
  }

  /** A prefix keeps both orders. */
  lemma TakeKeepsOrder<T>(s: seq<T>, n: nat, key: T -> real, tie: T -> real)
    ensures SortedDesc(s, key) ==> SortedDesc(Take(s, n), key)
    ensures TiesOrdered(s, key, tie) ==> TiesOrdered(Take(s, n), key, tie)
  {
  }

  /** Whatever a prefix holds, the whole sequence holds. */
  lemma TakeIsDrawnFrom<T>(s: seq<T>, n: nat)
    ensures multiset(Take(s, n)) <= multiset(s)
  {
    if n <= |s| {
      assert s == s[..n] + s[n..];
    }
  }

  /**
   * The prefix of a sorted sequence holds every element whose key beats the
   * last key in the prefix: nothing better was cut off.
   */
  lemma TakeSelectsHighest<T>(s: seq<T>, n: nat, key: T -> real, x: T)
    requires x in s
    ensures var r := Take(SortDesc(s, key), n);
      r != [] && key(x) > key(r[|r| - 1]) ==> x in r
  {
    var sorted := SortDesc(s, key);
    SortDescPermutes(s, key);
    assert x in multiset(s);
    assert x in sorted;
    if |sorted| >= n > 0 {
      SortDescSorted(s, key);
      var p :| 0 <= p < |sorted| && sorted[p] == x;
      PrefixHoldsHigher(sorted, n, key, p);
    }
  }

  lemma PrefixHoldsHigher<T>(sorted: seq<T>, n: nat, key: T -> real, p: nat)
    requires SortedDesc(sorted, key) && 0 < n <= |sorted| && p < |sorted|
    ensures key(sorted[p]) > key(sorted[n - 1]) ==> sorted[p] in sorted[..n]
  {
    if key(sorted[p]) > key(sorted[n - 1]) {
      assert p < n;
      assert sorted[..n][p] == sorted[p];
    }
  }
}
