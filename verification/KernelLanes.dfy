/** Lanes for the GPU events of one stream that overlap (`_kernel_lanes`). */
module KernelLanes {
  import opened Common
  import opened Sorting
  import opened Permutations

  datatype Slice = Slice(ts: int, dur: nat) {
    function End(): int {
      ts + dur
    }
  }

  function StartTimes(items: seq<Slice>): (r: seq<int>)
    ensures |r| == |items|
  {
    seq(|items|, i requires 0 <= i < |items| => items[i].ts)
  }

  /** The events active at a time. */
  function Active(items: seq<Slice>, t: int): set<nat> {
    set i | 0 <= i < |items| && items[i].ts <= t < items[i].End()
  }

  predicate Apart(a: Slice, b: Slice) {
    a.End() <= b.ts || b.End() <= a.ts
  }

  /** No two events of one lane overlap. */
  ghost predicate LanesApart(items: seq<Slice>, lane: seq<nat>) {
    |lane| == |items| && forall i, j :: 0 <= i < j < |items| && lane[i] == lane[j] ==> Apart(items[i], items[j])
  }

  /** The first lane whose last event has ended. */
  method FirstFree(ends: seq<int>, ts: int) returns (lane: nat)
    ensures lane <= |ends| && (lane < |ends| ==> ends[lane] <= ts)
    ensures forall l :: 0 <= l < lane ==> ends[l] > ts
  {
    lane := 0;
    while lane < |ends| && ends[lane] > ts
      invariant lane <= |ends| && forall l :: 0 <= l < lane ==> ends[l] > ts
    {
      lane := lane + 1;
    }
  }

  /** The lanes after the first events in time order: `placed` holds their lanes, and `last` the
      latest event of each lane. */
  ghost predicate Placed(sorted: seq<Slice>, placed: seq<nat>, ends: seq<int>, last: seq<nat>) {
    && |placed| <= |sorted| && |last| == |ends|
    && (forall a :: 0 <= a < |placed| ==> placed[a] < |ends| && sorted[a].End() <= ends[placed[a]])
    && (forall l :: 0 <= l < |ends| ==> LastOf(sorted, placed, ends, last, l))
    && (forall a, b :: 0 <= a < b < |placed| && placed[a] == placed[b] ==> sorted[a].End() <= sorted[b].ts)
  }

  ghost predicate LastOf(sorted: seq<Slice>, placed: seq<nat>, ends: seq<int>, last: seq<nat>, l: nat)
    requires |placed| <= |sorted| && |last| == |ends| && l < |ends|
  {
    last[l] < |placed| && placed[last[l]] == l && ends[l] == sorted[last[l]].End()
  }

  lemma PlaceNext(sorted: seq<Slice>, placed: seq<nat>, ends: seq<int>, last: seq<nat>, lane: nat)
    requires Placed(sorted, placed, ends, last) && |placed| < |sorted| && lane <= |ends|
    requires lane < |ends| ==> ends[lane] <= sorted[|placed|].ts
    ensures var k := |placed|;
      Placed(sorted, placed + [lane],
             if lane == |ends| then ends + [sorted[k].End()] else ends[lane := sorted[k].End()],
             if lane == |ends| then last + [k] else last[lane := k])
  {
    var k := |placed|;
    var (ends', last') := (if lane == |ends| then ends + [sorted[k].End()] else ends[lane := sorted[k].End()],
                           if lane == |ends| then last + [k] else last[lane := k]);
    forall l | 0 <= l < |ends'| ensures LastOf(sorted, placed + [lane], ends', last', l) {
      if l != lane {
        assert LastOf(sorted, placed, ends, last, l);
      }
    }
  }

  /** All lanes are busy when a lane is added, so that many events are active at once, and one more. */
  lemma AllBusy(sorted: seq<Slice>, placed: seq<nat>, ends: seq<int>, last: seq<nat>)
    requires Placed(sorted, placed, ends, last) && |placed| < |sorted| && sorted[|placed|].dur > 0
    requires forall l :: 0 <= l < |ends| ==> ends[l] > sorted[|placed|].ts
    requires InTimeOrder(sorted)
    ensures |Active(sorted, sorted[|placed|].ts)| >= |ends| + 1
  {
    var (k, t) := (|placed|, sorted[|placed|].ts);
    forall l | 0 <= l < |ends| ensures last[l] in Active(sorted, t) - {k} {
      assert LastOf(sorted, placed, ends, last, l);
    }
    forall l, m | 0 <= l < m < |last| ensures last[l] != last[m] {
      assert LastOf(sorted, placed, ends, last, l) && LastOf(sorted, placed, ends, last, m);
    }
    AtLeast(last, Active(sorted, t) - {k});
    assert k in Active(sorted, t);
  }

  lemma {:induction false} AtLeast(s: seq<nat>, within: set<nat>)
    requires Distinct(s) && forall i :: 0 <= i < |s| ==> s[i] in within
    ensures |within| >= |s|
  {
    if s != [] {
      var n := |s| - 1;
      AtLeast(s[..n], within - {s[n]});
    }
  }

  function InLane(lane: seq<nat>, active: set<nat>, l: nat): set<nat>
    requires forall i :: i in active ==> i < |lane|
  {
    set i | i in active && lane[i] == l
  }

  lemma SameLane(items: seq<Slice>, lane: seq<nat>, i: nat, j: nat, t: int)
    requires LanesApart(items, lane) && i in Active(items, t) && j in Active(items, t) && lane[i] == lane[j]
    ensures i == j
  {
  }

  lemma OneInLane(items: seq<Slice>, lane: seq<nat>, l: nat, t: int, active: set<nat>)
    requires LanesApart(items, lane) && active <= Active(items, t)
    ensures |InLane(lane, active, l)| <= 1
  {
    forall i, j | i in InLane(lane, active, l) && j in InLane(lane, active, l) ensures i == j {
      SameLane(items, lane, i, j, t);
    }
    AtMostOne(InLane(lane, active, l));
  }

  /** Events active at once are in different lanes. */
  lemma {:induction false} AtMostLanes(items: seq<Slice>, lane: seq<nat>, lanes: nat, t: int, active: set<nat>)
    requires LanesApart(items, lane) && active <= Active(items, t)
    requires forall i :: i in active ==> lane[i] < lanes
    ensures |active| <= lanes
  {
    if lanes == 0 {
      assert active == {};
    } else {
      var mine := InLane(lane, active, lanes - 1);
      OneInLane(items, lane, lanes - 1, t, active);
      AtMostLanes(items, lane, lanes - 1, t, active - mine);
      assert active == (active - mine) + mine;
    }
  }

  lemma AtMostOne(s: set<nat>)
    requires forall i, j :: i in s && j in s ==> i == j
    ensures |s| <= 1
  {
    if s != {} {
      var i := AnyMember(s);
      assert s == {i};
    }
  }

  /** As many lanes as events are ever active at once. */
  ghost predicate Fewest(items: seq<Slice>, lanes: nat) {
    && (forall t :: |Active(items, t)| <= lanes)
    && (lanes > 0 ==> exists t :: |Active(items, t)| == lanes)
  }

  ghost predicate InTimeOrder(sorted: seq<Slice>) {
    forall a, b :: 0 <= a < b < |sorted| ==> sorted[a].ts <= sorted[b].ts
  }

  /** An earlier event of this lane still runs when the event starts. */
  ghost predicate BlockedBy(sorted: seq<Slice>, placed: seq<nat>, a: nat, l: nat)
    requires a < |placed| <= |sorted|
  {
    exists b :: 0 <= b < a && placed[b] == l && sorted[b].End() > sorted[a].ts
  }

  /** Every event is in the first lane that is free when it starts. */
  ghost predicate FirstFits(sorted: seq<Slice>, placed: seq<nat>) {
    |placed| <= |sorted| && forall a, l: nat :: 0 <= a < |placed| && l < placed[a] ==> BlockedBy(sorted, placed, a, l)
  }

  lemma FitsNext(sorted: seq<Slice>, placed: seq<nat>, ends: seq<int>, last: seq<nat>, lane: nat)
    requires Placed(sorted, placed, ends, last) && |placed| < |sorted| && FirstFits(sorted, placed)
    requires lane <= |ends| && forall l :: 0 <= l < lane ==> ends[l] > sorted[|placed|].ts
    ensures FirstFits(sorted, placed + [lane])
  {
    var all := placed + [lane];
    forall a, l: nat | 0 <= a < |all| && l < all[a] ensures BlockedBy(sorted, all, a, l) {
      if a < |placed| {
        assert BlockedBy(sorted, placed, a, l);
        var b :| 0 <= b < a && placed[b] == l && sorted[b].End() > sorted[a].ts;
        assert all[b] == l;
      } else {
        assert LastOf(sorted, placed, ends, last, l);
        assert all[last[l]] == l;
      }
    }
  }

  /** Another event, which started no later, still runs in this lane when the event starts. */
  ghost predicate Blocked(items: seq<Slice>, lane: seq<nat>, i: nat, l: nat)
    requires i < |items| == |lane|
  {
    exists j :: 0 <= j < |items| && j != i && lane[j] == l && items[j].ts <= items[i].ts < items[j].End()
  }

  /** Every lane below an event's own is blocked; one that meets no running event is in lane 0. */
  ghost predicate LowestLanes(items: seq<Slice>, lane: seq<nat>) {
    |items| == |lane| && forall i, l: nat :: 0 <= i < |items| && l < lane[i] ==> Blocked(items, lane, i, l)
  }

  lemma FitsInverted(items: seq<Slice>, sorted: seq<Slice>, placed: seq<nat>, order: seq<int>, at: seq<nat>, lane: seq<nat>)
    requires Permutes(order, |items|) && sorted == Reordered(items, order) && InTimeOrder(sorted)
    requires FirstFits(sorted, placed) && |placed| == |at| == |lane| == |items|
    requires forall i :: 0 <= i < |lane| ==> at[i] < |placed| && order[at[i]] == i && lane[i] == placed[at[i]]
    ensures LowestLanes(items, lane)
  {
    forall i, l: nat | 0 <= i < |items| && l < lane[i] ensures Blocked(items, lane, i, l) {
      assert BlockedBy(sorted, placed, at[i], l);
      var b :| 0 <= b < at[i] && placed[b] == l && sorted[b].End() > sorted[at[i]].ts;
      var j := order[b];
      assert order[at[j]] == order[b] && sorted[b] == items[j] && sorted[at[i]] == items[i];
      assert at[j] == b;
    }
  }

  /** Place one event: in the first free lane, or in a new one when all are busy. */
  method PlaceOne(sorted: seq<Slice>, placed: seq<nat>, ends: seq<int>, ghost last: seq<nat>)
    returns (lane: nat, ends': seq<int>, ghost last': seq<nat>)
    requires Placed(sorted, placed, ends, last) && |placed| < |sorted| && InTimeOrder(sorted)
    ensures Placed(sorted, placed + [lane], ends', last')
    ensures FirstFits(sorted, placed) ==> FirstFits(sorted, placed + [lane])
    ensures |ends'| == |ends|
      || (|ends'| == |ends| + 1 && (sorted[|placed|].dur > 0 ==> |Active(sorted, sorted[|placed|].ts)| >= |ends'|))
  {
    ghost var k := |placed|;
    var end := sorted[|placed|].End();
    lane := FirstFree(ends, sorted[|placed|].ts);
    PlaceNext(sorted, placed, ends, last, lane);
    if FirstFits(sorted, placed) {
      FitsNext(sorted, placed, ends, last, lane);
    }
    if lane < |ends| {
      return lane, ends[lane := end], last[lane := k];
    }
    if sorted[k].dur > 0 {
      AllBusy(sorted, placed, ends, last);
    }
    return lane, ends + [end], last + [k];
  }

  ghost predicate AllPositive(items: seq<Slice>) {
    forall a :: 0 <= a < |items| ==> items[a].dur > 0
  }

  lemma PlacedApart(sorted: seq<Slice>, placed: seq<nat>, ends: seq<int>, last: seq<nat>)
    requires Placed(sorted, placed, ends, last) && |placed| == |sorted|
    ensures LanesApart(sorted, placed) && forall a :: 0 <= a < |placed| ==> placed[a] < |ends|
    ensures forall t :: |Active(sorted, t)| <= |ends|
  {
    forall t ensures |Active(sorted, t)| <= |ends| {
      AtMostLanes(sorted, placed, |ends|, t, Active(sorted, t));
    }
  }

  /** Every lane has an event. */
  ghost predicate AllUsed(lane: seq<nat>, lanes: nat) {
    forall l: nat :: l < lanes ==> l in lane
  }

  lemma PlacedUsed(sorted: seq<Slice>, placed: seq<nat>, ends: seq<int>, last: seq<nat>)
    requires Placed(sorted, placed, ends, last)
    ensures AllUsed(placed, |ends|)
  {
    forall l: nat | l < |ends| ensures l in placed {
      assert LastOf(sorted, placed, ends, last, l);
    }
  }

  /** Place the events in time order. */
  method PlaceAll(sorted: seq<Slice>) returns (placed: seq<nat>, lanes: nat)
    requires InTimeOrder(sorted)
    ensures LanesApart(sorted, placed) && forall a :: 0 <= a < |placed| ==> placed[a] < lanes
    ensures AllPositive(sorted) ==> Fewest(sorted, lanes)
    ensures AllUsed(placed, lanes) && FirstFits(sorted, placed)
  {
    placed := [];
    var ends: seq<int> := [];
    ghost var last: seq<nat>, busiest := [], 0;
    for k := 0 to |sorted|
      invariant |placed| == k && Placed(sorted, placed, ends, last) && FirstFits(sorted, placed)
      invariant AllPositive(sorted) && ends != [] ==> |Active(sorted, busiest)| >= |ends|
    {
      ghost var before := |ends|;
      var lane;
      lane, ends, last := PlaceOne(sorted, placed, ends, last);
      placed := placed + [lane];
      if |ends| > before {
        busiest := sorted[k].ts;
      }
    }
    PlacedApart(sorted, placed, ends, last);
    PlacedUsed(sorted, placed, ends, last);
    lanes := |ends|;
  }

  function Reordered(items: seq<Slice>, order: seq<int>): (r: seq<Slice>)
    requires Within(order, |items|)
    ensures |r| == |order|
  {
    seq(|order|, k requires 0 <= k < |order| => items[order[k]])
  }

  /** Reordering the events does not change how many are active. */
  lemma ActiveReordered(items: seq<Slice>, order: seq<int>, t: int)
    requires Permutes(order, |items|)
    ensures |Active(Reordered(items, order), t)| == |Active(items, t)|
  {
    var here := Active(Reordered(items, order), t);
    var image := set k | k in here :: order[k];
    ImageSize(order, here);
    var there: set<int> := set i: int | i in Active(items, t);
    forall i: int ensures i in image <==> i in there {
      if i in there {
        assert i in order;
        var k :| 0 <= k < |order| && order[k] == i;
        assert k in here;
      }
      if i in image {
        var k :| k in here && order[k] == i;
        assert 0 <= order[k] && order[k] in Active(items, t);
      }
    }
    assert image == there;
    assert forall i: int :: i in there <==> i >= 0 && i in Active(items, t);
    SameSize(there, Active(items, t));
  }

  lemma {:induction false} ImageSize(order: seq<int>, s: set<nat>)
    requires Distinct(order) && forall k :: k in s ==> k < |order|
    ensures |set k | k in s :: order[k]| == |s|
  {
    var image := set k | k in s :: order[k];
    if s != {} {
      var k := AnyMember(s);
      var rest := set j | j in s - {k} :: order[j];
      ImageSize(order, s - {k});
      assert order[k] !in rest;
      assert image == rest + {order[k]};
    } else {
      assert image == {};
    }
  }

  lemma {:induction false} SameSize(a: set<int>, b: set<nat>)
    requires forall i: int :: i in a <==> i >= 0 && i in b
    ensures |a| == |b|
    decreases b
  {
    if b == {} {
      assert forall i: int :: i !in a;
    } else {
      var i := AnyMember(b);
      SameSize(a - {i}, b - {i});
    }
  }

  lemma UsedInverted(order: seq<int>, at: seq<nat>, placed: seq<nat>, lane: seq<nat>, lanes: nat)
    requires Permutes(order, |placed|) && |at| == |lane| == |placed| && AllUsed(placed, lanes)
    requires forall i :: 0 <= i < |lane| ==> at[i] < |placed| && order[at[i]] == i && lane[i] == placed[at[i]]
    ensures AllUsed(lane, lanes)
  {
    forall l: nat | l < lanes ensures l in lane {
      assert l in placed;
      var k :| 0 <= k < |placed| && placed[k] == l;
      assert at[order[k]] == k && lane[order[k]] == l;
    }
  }

  /** The lanes of one stream: every event keeps its place and gets the lowest lane that is free when it starts, no two
      overlapping events share one, no lane is empty, and when every event lasts there are no more lanes than needed. */
  method AssignLanes(items: seq<Slice>) returns (lane: seq<nat>, lanes: nat)
    ensures LanesApart(items, lane) && forall i :: 0 <= i < |items| ==> lane[i] < lanes
    ensures AllPositive(items) ==> Fewest(items, lanes)
    ensures AllUsed(lane, lanes) && LowestLanes(items, lane)
  {
    var order := ArgSort(StartTimes(items));
    OrderPermutes(order, |items|);
    var sorted := Reordered(items, order);
    var placed;
    placed, lanes := PlaceAll(sorted);
    var at := Invert(order);
    lane := seq(|items|, i requires 0 <= i < |items| => placed[at[i]]);
    forall i, j | 0 <= i < j < |items| && lane[i] == lane[j] ensures Apart(items[i], items[j]) {
      assert sorted[at[i]] == items[i] && sorted[at[j]] == items[j];
      assert at[i] != at[j];
      assert at[i] < at[j] ==> Apart(sorted[at[i]], sorted[at[j]]);
      assert at[j] < at[i] ==> Apart(sorted[at[j]], sorted[at[i]]);
    }
    UsedInverted(order, at, placed, lane, lanes);
    FitsInverted(items, sorted, placed, order, at, lane);
    if AllPositive(items) {
      forall t ensures |Active(sorted, t)| == |Active(items, t)| {
        ActiveReordered(items, order, t);
      }
    }
  }
}
