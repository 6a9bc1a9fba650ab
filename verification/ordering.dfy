/** Sorting a copy of a list by a numeric key, as the pages do with
    `[...list].sort((a, b) => key(a) - key(b))`, and taking the first few
    elements of the result (`slice(0, k)`). */
module Ordering {
  import opened Common

  /** Non-decreasing by `key`. */
  predicate SortedBy<T>(s: seq<T>, key: T -> real)
  {
    forall i, j :: 0 <= i < j < |s| ==> key(s[i]) <= key(s[j])
  }

  /** Inserts `x` before the first element whose key is not smaller, so that
      elements with equal keys keep their relative order. */
  function Insert<T>(x: T, s: seq<T>, key: T -> real): (r: seq<T>)
    requires SortedBy(s, key)
    ensures SortedBy(r, key)
    ensures multiset(r) == multiset(s) + multiset{x}
    ensures |r| == |s| + 1 && (r[0] == x || (|s| > 0 && r[0] == s[0]))
  {
    if |s| == 0 then [x]
    else if key(x) <= key(s[0]) then [x] + s
    else
      var tail := Insert(x, s[1..], key);
      assert s == [s[0]] + s[1..];
      assert key(s[0]) <= key(tail[0]);
      [s[0]] + tail
  }

  /** The sorted copy of `s`: a permutation of `s`, non-decreasing by `key`. */
  function SortBy<T>(s: seq<T>, key: T -> real): (r: seq<T>)
    ensures SortedBy(r, key)
    ensures multiset(r) == multiset(s)
    ensures |r| == |s|
  {
    if |s| == 0 then []
    else
      assert s == [s[0]] + s[1..];
      Insert(s[0], SortBy(s[1..], key), key)
  }

  /** The first `k` elements of the sorted copy. */
  function Earliest<T>(s: seq<T>, key: T -> real, k: nat): seq<T>
  {
    var sorted := SortBy(s, key);
    sorted[..Min(k, |sorted|)]
  }

  /** In a sorted list every element of a prefix has a key no larger than
      every element of the matching suffix. */
  lemma PrefixBelowSuffix<T>(t: seq<T>, key: T -> real, m: nat)
    requires SortedBy(t, key) && m <= |t|
    ensures forall x, y :: x in multiset(t[..m]) && y in multiset(t[m..]) ==> key(x) <= key(y)
  {
    forall x, y | x in multiset(t[..m]) && y in multiset(t[m..])
      ensures key(x) <= key(y)
    {
      assert x in t[..m] && y in t[m..];
      var i :| 0 <= i < m && t[..m][i] == x;
      var j :| 0 <= j < |t| - m && t[m..][j] == y;
      assert t[i] == x && t[m + j] == y;
    }
  }

  /** A prefix of a sorted list is sorted. */
  lemma SortedPrefix<T>(t: seq<T>, key: T -> real, m: nat)
    requires SortedBy(t, key) && m <= |t|
    ensures SortedBy(t[..m], key)
  {
    forall i, j | 0 <= i < j < m
      ensures key(t[..m][i]) <= key(t[..m][j])
    {
      assert t[..m][i] == t[i] && t[..m][j] == t[j];
    }
  }

  /** Splitting a list splits its multiset. */
  lemma SplitMultiset<T>(t: seq<T>, m: nat)
    requires m <= |t|
    ensures multiset(t[..m]) <= multiset(t)
    ensures multiset(t) - multiset(t[..m]) == multiset(t[m..])
  {
    assert t == t[..m] + t[m..];
    assert multiset(t) == multiset(t[..m]) + multiset(t[m..]);
  }

  /** The first `k` elements of the sorted copy are `min(k, |s|)` elements
      of `s`, in non-decreasing order, and no element of `s` left out has a
      smaller key than an element kept. */
  lemma EarliestSpec<T>(s: seq<T>, key: T -> real, k: nat)
    ensures |Earliest(s, key, k)| == Min(k, |s|)
    ensures SortedBy(Earliest(s, key, k), key)
    ensures multiset(Earliest(s, key, k)) <= multiset(s)
    ensures forall x, y ::
      x in multiset(Earliest(s, key, k)) && y in multiset(s) - multiset(Earliest(s, key, k))
      ==> key(x) <= key(y)
  {
    var sorted := SortBy(s, key);
    var m := Min(k, |sorted|);
    assert sorted[..m] == Earliest(s, key, k);
    SplitMultiset(sorted, m);
    SortedPrefix(sorted, key, m);
    PrefixBelowSuffix(sorted, key, m);
  }
}
