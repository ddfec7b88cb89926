/** Permutations of positions, and numpy's stable argsort. */
module Permutations {
  import opened Sorting

  function Iota(n: nat): (r: seq<int>)
    ensures |r| == n && forall i :: 0 <= i < n ==> r[i] == i
  {
    seq(n, i => i)
  }

  predicate Within(at: seq<int>, n: nat) {
    forall j :: 0 <= j < |at| ==> 0 <= at[j] < n
  }

  function KeyOf(keys: seq<int>): int -> SortKey {
    i => (if 0 <= i < |keys| then keys[i] else 0, 0)
  }

  /** `values[at]` */
  function Gather(values: seq<int>, at: seq<int>): (r: seq<int>)
    requires Within(at, |values|)
    ensures |r| == |at|
  {
    seq(|at|, j requires 0 <= j < |at| => values[at[j]])
  }

  /** `np.argsort(keys, kind="stable")` */
  function ArgSort(keys: seq<int>): (r: seq<int>)
    ensures |r| == |keys| && Within(r, |keys|)
    ensures multiset(r) == multiset(Iota(|keys|))
    ensures forall i, j :: 0 <= i < j < |r| ==> keys[r[i]] <= keys[r[j]]
  {
    var r := SortBy(Iota(|keys|), KeyOf(keys));
    SameElements(r, Iota(|keys|));
    assert forall j :: 0 <= j < |r| ==> r[j] in r && r[j] in Iota(|keys|);
    assert forall i, j :: 0 <= i < j < |r| ==> KeyLe(KeyOf(keys)(r[i]), KeyOf(keys)(r[j]));
    r
  }

  /** Every position below n, exactly once. */
  ghost predicate Permutes(order: seq<int>, n: nat) {
    && |order| == n && Within(order, n) && Distinct(order)
    && forall i :: 0 <= i < n ==> i in order
  }

  lemma OrderPermutes(order: seq<int>, n: nat)
    requires |order| == n && multiset(order) == multiset(Iota(n))
    ensures Permutes(order, n)
  {
    SameElements(order, Iota(n));
    forall j | 0 <= j < n ensures 0 <= order[j] < n {
      assert order[j] in order && order[j] in Iota(n);
    }
    forall i | 0 <= i < n ensures i in order {
      assert Iota(n)[i] == i;
    }
    forall i, j | 0 <= i < j < n ensures order[i] != order[j] {
      if order[i] == order[j] {
        DistinctCount(Iota(n), order[i]);
        CountedTwice(order, i, j);
      }
    }
  }

  /** Where each position is in the order. */
  method Invert(order: seq<int>) returns (at: seq<nat>)
    requires Permutes(order, |order|)
    ensures |at| == |order|
    ensures forall i :: 0 <= i < |order| ==> at[i] < |order| && order[at[i]] == i
  {
    at := seq(|order|, _ => 0);
    for position := 0 to |order|
      invariant |at| == |order|
      invariant forall p :: 0 <= p < position ==> at[order[p]] == p
    {
      at := at[order[position] := position];
    }
    forall i | 0 <= i < |order| ensures at[i] < |order| && order[at[i]] == i {
      assert i in order;
      var p :| 0 <= p < |order| && order[p] == i;
    }
  }
}
