/** Python's stable `sorted`, as an insertion sort by a pair of integers. */
module Sorting {
  import opened Common

  type SortKey = (int, int)

  predicate KeyLe(a: SortKey, b: SortKey) {
    a.0 < b.0 || (a.0 == b.0 && a.1 <= b.1)
  }

  predicate SortedBy<T>(s: seq<T>, key: T -> SortKey) {
    forall i, j :: 0 <= i < j < |s| ==> KeyLe(key(s[i]), key(s[j]))
  }

  /** Put x after every element whose key is not greater. */
  function Place<T>(s: seq<T>, x: T, key: T -> SortKey): (r: seq<T>)
    requires SortedBy(s, key)
    ensures SortedBy(r, key)
    ensures multiset(r) == multiset(s) + multiset{x}
    ensures forall y :: y in r ==> y == x || y in s
    ensures |r| == |s| + 1
  {
    if s == [] then
      [x]
    else if KeyLe(key(s[|s| - 1]), key(x)) then
      s + [x]
    else
      var front := s[..|s| - 1];
      var last := s[|s| - 1];
      assert s == front + [last];
      var placed := Place(front, x, key);
      assert forall i :: 0 <= i < |placed| ==> placed[i] in placed;
      placed + [last]
  }

  /** Python's `sorted(s, key=key)`. */
  function SortBy<T>(s: seq<T>, key: T -> SortKey): (r: seq<T>)
    ensures SortedBy(r, key)
    ensures multiset(r) == multiset(s)
    ensures |r| == |s|
  {
    if s == [] then
      []
    else
      assert s == s[..|s| - 1] + [s[|s| - 1]];
      Place(SortBy(s[..|s| - 1], key), s[|s| - 1], key)
  }

  const ASCENDING: int -> SortKey := (x: int) => (x, 0)

  /** Python's `sorted` over integers. */
  function SortInts(s: seq<int>): (r: seq<int>)
    ensures multiset(r) == multiset(s)
    ensures forall i, j :: 0 <= i < j < |r| ==> r[i] <= r[j]
  {
    var r := SortBy(s, ASCENDING);
    assert forall i, j :: 0 <= i < j < |r| ==> KeyLe(ASCENDING(r[i]), ASCENDING(r[j]));
    r
  }

  lemma SameElements<T>(a: seq<T>, b: seq<T>)
    requires multiset(a) == multiset(b)
    ensures forall x :: x in a <==> x in b
    ensures |a| == |b|
  {
    forall x ensures x in a <==> x in b {
      assert x in a <==> x in multiset(a);
      assert x in b <==> x in multiset(b);
    }
    assert |multiset(a)| == |a|;
    assert |multiset(b)| == |b|;
  }

  ghost predicate Increasing(s: seq<int>) {
    forall i, j :: 0 <= i < j < |s| ==> s[i] < s[j]
  }

  ghost predicate Distinct<T>(s: seq<T>) {
    forall i, j :: 0 <= i < j < |s| ==> s[i] != s[j]
  }

  /** Two increasing sequences over one set of values are the same sequence. */
  lemma {:induction false} IncreasingUnique(a: seq<int>, b: seq<int>)
    requires Increasing(a) && Increasing(b)
    requires forall x :: x in a <==> x in b
    ensures a == b
  {
    assert |a| > 0 ==> a[0] in a && a[0] in b;
    assert |b| > 0 ==> b[0] in b && b[0] in a;
    if a != [] {
      var i, j := |a| - 1, |b| - 1;
      assert a[i] in b && b[j] in a;
      assert a[i] == b[j];
      forall x ensures x in a[..i] <==> x in b[..j] {
        if x in a[..i] { assert x in a && x in b && x != b[j]; }
        if x in b[..j] { assert x in b && x in a && x != a[i]; }
      }
      IncreasingUnique(a[..i], b[..j]);
      assert a == a[..i] + [a[i]] && b == b[..j] + [b[j]];
    }
  }

  lemma CountedTwice<T>(s: seq<T>, i: nat, j: nat)
    requires i < j < |s| && s[i] == s[j]
    ensures multiset(s)[s[i]] >= 2
  {
    assert s == s[..i] + [s[i]] + s[i + 1..j] + [s[j]] + s[j + 1..];
  }

  /** Sorting distinct integers gives the increasing sequence of the same values. */
  lemma SortDistinct(s: seq<int>, sorted: seq<int>)
    requires Distinct(s) && Increasing(sorted)
    requires forall x :: x in s <==> x in sorted
    ensures SortInts(s) == sorted
  {
    var r := SortInts(s);
    SameElements(r, s);
    forall i, j | 0 <= i < j < |r| ensures r[i] < r[j] {
      if r[i] == r[j] {
        CountedTwice(r, i, j);
        DistinctCount(s, r[i]);
      }
    }
    IncreasingUnique(r, sorted);
  }

  lemma {:induction false} DistinctCount<T>(s: seq<T>, x: T)
    requires Distinct(s)
    ensures multiset(s)[x] <= 1
  {
    if s != [] {
      assert s == s[..|s| - 1] + [s[|s| - 1]];
      DistinctCount(s[..|s| - 1], x);
    }
  }

  lemma {:induction false} DistinctSize<T>(s: seq<T>)
    requires Distinct(s)
    ensures |set x | x in s| == |s|
  {
    if s != [] {
      var n := |s| - 1;
      DistinctSize(s[..n]);
      assert (set x | x in s) == (set x | x in s[..n]) + {s[n]};
    }
  }

  lemma SameLength<T>(a: seq<T>, b: seq<T>)
    requires Distinct(a) && Distinct(b) && forall x :: x in a <==> x in b
    ensures |a| == |b|
  {
    DistinctSize(a);
    DistinctSize(b);
    assert (set x | x in a) == (set x | x in b);
  }

  predicate IsLeast(m: int, s: set<int>) {
    m in s && forall x :: x in s ==> m <= x
  }

  lemma {:induction false} LeastExists(s: set<int>)
    requires s != {}
    ensures exists m :: m in s && IsLeast(m, s)
  {
    var y := AnyMember(s);
    var rest := s - {y};
    if rest == {} {
      assert s == {y};
      assert IsLeast(y, s);
    } else {
      LeastExists(rest);
      var m :| m in rest && IsLeast(m, rest);
      assert s == rest + {y};
      assert IsLeast(if m <= y then m else y, s);
    }
  }

  /** Python's `sorted` over a set of integers. */
  function SortedSet(s: set<int>): (r: seq<int>)
    ensures Increasing(r) && forall x :: x in r <==> x in s
  {
    if s == {} then
      []
    else
      LeastExists(s);
      var m :| m in s && IsLeast(m, s);
      var rest := SortedSet(s - {m});
      assert forall i :: 0 <= i < |rest| ==> rest[i] in rest;
      [m] + rest
  }

  /** The elements with one key, in order. */
  function Having<T>(s: seq<T>, key: T -> SortKey, k: SortKey): (r: seq<T>)
    ensures forall x :: x in r ==> x in s
  {
    if s == [] then
      []
    else
      var n := |s| - 1;
      Having(s[..n], key, k) + (if key(s[n]) == k then [s[n]] else [])
  }

  lemma HavingAppend<T>(s: seq<T>, x: T, key: T -> SortKey, k: SortKey)
    ensures Having(s + [x], key, k) == Having(s, key, k) + (if key(x) == k then [x] else [])
  {
    assert (s + [x])[..|s|] == s;
  }

  lemma HavingSwap<T>(s: seq<T>, x: T, y: T, key: T -> SortKey, k: SortKey)
    requires key(x) != key(y)
    ensures Having(s + [x] + [y], key, k) == Having(s + [y] + [x], key, k)
  {
    HavingAppend(s, x, key, k);
    HavingAppend(s, y, key, k);
    HavingAppend(s + [x], y, key, k);
    HavingAppend(s + [y], x, key, k);
  }

  lemma {:induction false} PlaceStable<T>(s: seq<T>, x: T, key: T -> SortKey, k: SortKey)
    requires SortedBy(s, key)
    ensures Having(Place(s, x, key), key, k) == Having(s + [x], key, k)
  {
    if s == [] {
      assert s + [x] == [x];
    } else if !KeyLe(key(s[|s| - 1]), key(x)) {
      var (front, last) := (s[..|s| - 1], s[|s| - 1]);
      PlaceStable(front, x, key, k);
      HavingAppend(Place(front, x, key), last, key, k);
      HavingAppend(front + [x], last, key, k);
      HavingSwap(front, x, last, key, k);
      assert s == front + [last];
    }
  }

  /** Sorting keeps the order of elements with equal keys. */
  lemma {:induction false} SortByStable<T>(s: seq<T>, key: T -> SortKey, k: SortKey)
    ensures Having(SortBy(s, key), key, k) == Having(s, key, k)
  {
    if s != [] {
      var n := |s| - 1;
      SortByStable(s[..n], key, k);
      PlaceStable(SortBy(s[..n], key), s[n], key, k);
      HavingAppend(SortBy(s[..n], key), s[n], key, k);
    }
  }

  /** When the elements with key k are exactly those from lo to hi, they are that slice. */
  lemma {:induction false} HavingSlice<T>(s: seq<T>, key: T -> SortKey, k: SortKey, lo: nat, hi: nat)
    requires lo <= hi <= |s|
    requires forall j :: 0 <= j < |s| ==> (key(s[j]) == k <==> lo <= j < hi)
    ensures Having(s, key, k) == s[lo..hi]
  {
    if s != [] {
      var n := |s| - 1;
      if lo == |s| {
        HavingSlice(s[..n], key, k, n, n);
      } else if hi == |s| {
        HavingSlice(s[..n], key, k, lo, n);
        assert s[lo..hi] == s[..n][lo..n] + [s[n]];
      } else {
        HavingSlice(s[..n], key, k, lo, hi);
        assert s[lo..hi] == s[..n][lo..hi];
      }
    }
  }
}
