/** Unions of elapsed-time intervals, and how much of a stretch they cover
    (`merge_intervals`, and the prefix-sum measure of `aggregate_intervals`).  Times are whole ticks. */
module TraceIntervals {
  import opened Common
  import opened Sorting

  type Interval = (int, int)

  ghost predicate Covers(intervals: seq<Interval>, t: int) {
    exists i :: 0 <= i < |intervals| && Inside(intervals[i], t)
  }

  predicate Inside(interval: Interval, t: int) {
    interval.0 <= t < interval.1
  }

  /** Nonempty intervals in order, with a gap between any two. */
  ghost predicate Separated(merged: seq<Interval>) {
    && (forall i :: 0 <= i < |merged| ==> merged[i].0 < merged[i].1)
    && forall i, j :: 0 <= i < j < |merged| ==> merged[i].1 < merged[j].0
  }

  lemma CoversAppend(intervals: seq<Interval>, last: Interval, t: int)
    ensures Covers(intervals + [last], t) <==> Covers(intervals, t) || Inside(last, t)
  {
    var all := intervals + [last];
    if Inside(last, t) {
      assert Inside(all[|intervals|], t);
    }
    if i :| 0 <= i < |intervals| && Inside(intervals[i], t) {
      assert Inside(all[i], t);
    }
  }

  /** One interval of the sorted list joins the union. */
  lemma Extends(merged: seq<Interval>, next: Interval, t: int)
    requires merged != [] && merged[|merged| - 1].0 <= next.0 <= merged[|merged| - 1].1 && next.0 < next.1
    ensures var n := |merged| - 1;
      Covers(merged[..n] + [(merged[n].0, Max(next.1, merged[n].1))], t) <==> Covers(merged, t) || Inside(next, t)
  {
    var n := |merged| - 1;
    CoversAppend(merged[..n], merged[n], t);
    CoversAppend(merged[..n], (merged[n].0, Max(next.1, merged[n].1)), t);
    assert merged == merged[..n] + [merged[n]];
  }

  const BY_START: Interval -> SortKey := (i: Interval) => (i.0, i.1)

  /** Both cover the same ticks. */
  ghost predicate SameCover(a: seq<Interval>, b: seq<Interval>) {
    forall t :: Covers(a, t) <==> Covers(b, t)
  }

  /** The union with one more interval, that starts no earlier than the last. */
  function Joined(merged: seq<Interval>, next: Interval): seq<Interval> {
    var n := |merged| - 1;
    if next.1 <= next.0 then merged
    else if merged != [] && next.0 <= merged[n].1 then merged[..n] + [(merged[n].0, Max(next.1, merged[n].1))]
    else merged + [next]
  }

  lemma JoinedCovers(merged: seq<Interval>, next: Interval, before: seq<Interval>)
    requires SameCover(merged, before) && (merged != [] ==> merged[|merged| - 1].0 <= next.0)
    ensures SameCover(Joined(merged, next), before + [next])
  {
    forall t ensures Covers(Joined(merged, next), t) <==> Covers(before + [next], t) {
      CoversAppend(before, next, t);
      CoversAppend(merged, next, t);
      if merged != [] && next.0 <= merged[|merged| - 1].1 && next.0 < next.1 {
        Extends(merged, next, t);
      }
    }
  }

  lemma JoinedSeparated(merged: seq<Interval>, next: Interval)
    requires Separated(merged) && (merged != [] ==> merged[|merged| - 1].0 <= next.0)
    ensures Separated(Joined(merged, next))
    ensures Joined(merged, next) != [] && merged != [] ==> Joined(merged, next)[|Joined(merged, next)| - 1].0 <= next.0
  {
  }

  /** `sorted(intervals)` */
  method SortedByStart(intervals: seq<Interval>) returns (sorted: seq<Interval>)
    ensures forall i :: 0 < i < |sorted| ==> sorted[i - 1].0 <= sorted[i].0
    ensures SameCover(sorted, intervals)
  {
    sorted := SortBy(intervals, BY_START);
    forall i | 0 < i < |sorted| ensures sorted[i - 1].0 <= sorted[i].0 {
      assert KeyLe(BY_START(sorted[i - 1]), BY_START(sorted[i]));
    }
    SameElements(sorted, intervals);
    forall t ensures Covers(sorted, t) <==> Covers(intervals, t) {
      CoversSame(sorted, intervals, t);
    }
  }

  /** The union with one more interval; it starts no earlier than the last one. */
  method MergeNext(merged: seq<Interval>, next: Interval, ghost before: seq<Interval>) returns (joined: seq<Interval>)
    requires Separated(merged) && SameCover(merged, before) && (merged != [] ==> merged[|merged| - 1].0 <= next.0)
    ensures Separated(joined) && SameCover(joined, before + [next])
    ensures joined != [] ==> joined[|joined| - 1].0 <= next.0
  {
    var ((start, end), n) := (next, |merged| - 1);
    JoinedCovers(merged, next, before);
    JoinedSeparated(merged, next);
    joined := merged;
    if end > start {
      if merged != [] && start <= merged[n].1 {
        joined := merged[..n] + [(merged[n].0, Max(end, merged[n].1))];
      } else {
        joined := merged + [(start, end)];
      }
    }
  }

  /** `merge_intervals`: the union of the intervals. */
  method MergeIntervals(intervals: seq<Interval>) returns (merged: seq<Interval>)
    ensures Separated(merged)
    ensures forall t :: Covers(merged, t) <==> Covers(intervals, t)
  {
    var sorted := SortedByStart(intervals);
    merged := [];
    for i := 0 to |sorted|
      invariant Separated(merged) && SameCover(merged, sorted[..i])
      invariant merged != [] ==> i > 0 && merged[|merged| - 1].0 <= sorted[i - 1].0
    {
      merged := MergeNext(merged, sorted[i], sorted[..i]);
      assert sorted[..i + 1] == sorted[..i] + [sorted[i]];
    }
    assert sorted[..|sorted|] == sorted;
  }

  lemma CoversSame(a: seq<Interval>, b: seq<Interval>, t: int)
    requires forall x :: x in a <==> x in b
    ensures Covers(a, t) <==> Covers(b, t)
  {
    if i :| 0 <= i < |a| && Inside(a[i], t) {
      assert a[i] in b;
      var j :| 0 <= j < |b| && b[j] == a[i];
    }
    if i :| 0 <= i < |b| && Inside(b[i], t) {
      assert b[i] in a;
      var j :| 0 <= j < |a| && a[j] == b[i];
    }
  }

  /** `cumulative`: the lengths of the first intervals, added up. */
  function Cumulative(gpu: seq<Interval>): int {
    if gpu == [] then 0 else Cumulative(gpu[..|gpu| - 1]) + gpu[|gpu| - 1].1 - gpu[|gpu| - 1].0
  }

  /** `bisect_right(starts, t)`: how many intervals start at or before t. */
  function BisectRight(gpu: seq<Interval>, t: int): (r: nat)
    requires Separated(gpu)
    ensures r <= |gpu|
    ensures forall i :: 0 <= i < |gpu| ==> (gpu[i].0 <= t <==> i < r)
  {
    if gpu == [] then 0
    else if gpu[|gpu| - 1].0 <= t then |gpu|
    else BisectRight(gpu[..|gpu| - 1], t)
  }

  /** `gpu_before` */
  function GpuBefore(gpu: seq<Interval>, t: int): int
    requires Separated(gpu)
  {
    var index := BisectRight(gpu, t) - 1;
    if index < 0 then 0 else Cumulative(gpu[..index]) + Min(t, gpu[index].1) - gpu[index].0
  }

  /** `overlap` */
  function Overlap(gpu: seq<Interval>, start: int, end: int): int
    requires Separated(gpu)
  {
    GpuBefore(gpu, end) - GpuBefore(gpu, start)
  }

  /** Covered ticks from `start` to `end`. */
  ghost function CoveredTicks(gpu: seq<Interval>, start: int, end: int): nat
    decreases end - start
  {
    if end <= start then 0 else CoveredTicks(gpu, start, end - 1) + (if Covers(gpu, end - 1) then 1 else 0)
  }

  lemma GpuBeforeStep(gpu: seq<Interval>, t: int)
    requires Separated(gpu)
    ensures GpuBefore(gpu, t + 1) == GpuBefore(gpu, t) + (if Covers(gpu, t) then 1 else 0)
  {
    var (k, m) := (BisectRight(gpu, t) - 1, BisectRight(gpu, t + 1) - 1);
    if k >= 0 {
      assert Inside(gpu[k], t) <==> t < gpu[k].1;
      assert forall i :: 0 <= i < k ==> !Inside(gpu[i], t);
    }
    if m > k {
      assert gpu[k + 1].0 == t + 1 == gpu[m].0;
      assert m == k + 1;
      if k >= 0 {
        assert gpu[..m][..k] == gpu[..k] && gpu[..m][k] == gpu[k];
      }
    }
  }

  /** The prefix-sum measure is the number of covered ticks. */
  lemma {:induction false} OverlapIsCovered(gpu: seq<Interval>, start: int, end: int)
    requires Separated(gpu) && start <= end
    ensures Overlap(gpu, start, end) == CoveredTicks(gpu, start, end)
    decreases end - start
  {
    if start < end {
      OverlapIsCovered(gpu, start, end - 1);
      GpuBeforeStep(gpu, end - 1);
    }
  }
}
