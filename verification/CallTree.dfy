/** A tree of nested CPU events, and the time its paths are active.  Times are whole ticks. */
module CallTree {
  import opened Common
  import opened Sorting
  import opened TraceIntervals

  type Name = string
  type Path = seq<Name>

  datatype Event = Event(start: int, end: int, name: Name)

  /** A node of the tree, with its children's names in the order they were first seen. */
  datatype Node = Node(us: int, gpuUs: int, calls: nat, children: seq<Name>)

  /** The tree, by path from the root. */
  type Tree = map<Path, Node>

  /** The names of the events that contain a tick, outermost first. */
  function ActiveAt(events: seq<Event>, t: int): Path {
    if events == [] then
      []
    else
      var last := events[|events| - 1];
      ActiveAt(events[..|events| - 1], t) + (if last.start <= t < last.end then [last.name] else [])
  }

  function Active(events: seq<Event>, duration: nat): (r: seq<Path>)
    ensures |r| == duration && forall t :: 0 <= t < duration ==> r[t] == ActiveAt(events, t)
  {
    seq(duration, t => ActiveAt(events, t))
  }

  /** Marked ticks at which p is on the active path. */
  ghost function Count(active: seq<Path>, mask: seq<bool>, p: Path): nat
    requires |mask| == |active|
  {
    if active == [] then
      0
    else
      var n := |active| - 1;
      Count(active[..n], mask[..n], p) + (if mask[n] && p <= active[n] then 1 else 0)
  }

  /** Marked ticks at which p is the whole active path. */
  ghost function Exactly(active: seq<Path>, mask: seq<bool>, p: Path): nat
    requires |mask| == |active|
  {
    if active == [] then
      0
    else
      var n := |active| - 1;
      Exactly(active[..n], mask[..n], p) + (if mask[n] && p == active[n] then 1 else 0)
  }

  ghost function SumCounts(active: seq<Path>, mask: seq<bool>, p: Path, names: seq<Name>): nat
    requires |mask| == |active|
  {
    if names == [] then
      0
    else
      var n := |names| - 1;
      SumCounts(active, mask, p, names[..n]) + Count(active, mask, p + [names[n]])
  }

  lemma ChildOnPath(p: Path, c: Name, a: Path)
    ensures p + [c] <= a <==> p < a && a[|p|] == c
  {
    if p + [c] <= a {
      assert a[..|p| + 1] == p + [c];
    }
    if p < a && a[|p|] == c {
      assert a[..|p| + 1] == a[..|p|] + [c];
    }
  }

  lemma {:induction false} SumCountsStep(active: seq<Path>, mask: seq<bool>, p: Path, names: seq<Name>)
    requires |mask| == |active| > 0 && Distinct(names)
    ensures var n := |active| - 1;
      SumCounts(active, mask, p, names) == SumCounts(active[..n], mask[..n], p, names)
        + (if mask[n] && p < active[n] && active[n][|p|] in names then 1 else 0)
  {
    if names != [] {
      var k := |names| - 1;
      SumCountsStep(active, mask, p, names[..k]);
      ChildOnPath(p, names[k], active[|active| - 1]);
      assert names == names[..k] + [names[k]];
      assert names[k] !in names[..k];
    }
  }

  /** Time on a path is time exactly there, and time on each of its children. */
  lemma {:induction false} CountSplits(active: seq<Path>, mask: seq<bool>, p: Path, names: seq<Name>)
    requires |mask| == |active| && Distinct(names)
    requires forall t :: 0 <= t < |active| && p < active[t] ==> active[t][|p|] in names
    ensures Count(active, mask, p) == Exactly(active, mask, p) + SumCounts(active, mask, p, names)
  {
    if active == [] {
      NoTicks(p, names);
    } else {
      var n := |active| - 1;
      CountSplits(active[..n], mask[..n], p, names);
      SumCountsStep(active, mask, p, names);
    }
  }

  lemma {:induction false} NoTicks(p: Path, names: seq<Name>)
    ensures SumCounts([], [], p, names) == 0
  {
    if names != [] {
      NoTicks(p, names[..|names| - 1]);
    }
  }

  /** No more ticks are marked twice than once. */
  lemma {:induction false} ExactlyMasked(active: seq<Path>, less: seq<bool>, more: seq<bool>, p: Path)
    requires |less| == |more| == |active| && forall t :: 0 <= t < |active| && less[t] ==> more[t]
    ensures Exactly(active, less, p) <= Exactly(active, more, p)
  {
    if active != [] {
      var n := |active| - 1;
      ExactlyMasked(active[..n], less[..n], more[..n], p);
    }
  }

  /** Marked ticks from `start` to `end`. */
  ghost function Marked(mask: seq<bool>, start: int, end: int): nat
    requires 0 <= start && end <= |mask|
    decreases end - start
  {
    if end <= start then 0 else Marked(mask, start, end - 1) + (if mask[end - 1] then 1 else 0)
  }

  /** Putting a child on the active path from `start` to `end` adds those ticks to the child alone. */
  lemma {:induction false} CountPush(before: seq<Path>, after: seq<Path>, mask: seq<bool>, q: Path, c: Name, p: Path,
                                     start: nat, end: nat)
    requires |before| == |after| == |mask| && start <= end
    requires forall t :: 0 <= t < |before| ==>
      if start <= t < end then before[t] == q && after[t] == q + [c] else after[t] == before[t]
    ensures Count(after, mask, p) == Count(before, mask, p)
      + (if p == q + [c] then Marked(mask, start, Min(end, |mask|)) else 0)
  {
    if before != [] {
      var n := |before| - 1;
      CountPush(before[..n], after[..n], mask[..n], q, c, p, start, end);
      MarkedPrefix(mask, n, start, Min(end, n));
      if start <= n < end {
        assert p <= q + [c] <==> p <= q || p == q + [c] by { OnePathLonger(p, q, c); }
      }
    }
  }

  lemma OnePathLonger(p: Path, q: Path, c: Name)
    ensures p <= q + [c] <==> p <= q || p == q + [c]
  {
    if p <= q + [c] && |p| <= |q| {
      assert p == (q + [c])[..|p|] == q[..|p|];
    }
  }

  lemma {:induction false} MarkedPrefix(mask: seq<bool>, n: nat, start: nat, end: nat)
    requires end <= n <= |mask|
    ensures Marked(mask[..n], start, end) == Marked(mask, start, end)
    decreases end
  {
    if end > start {
      MarkedPrefix(mask, n, start, end - 1);
    }
  }

  ghost function Everywhere(duration: nat): (r: seq<bool>)
    ensures |r| == duration && forall t :: 0 <= t < duration ==> r[t]
  {
    seq(duration, _ => true)
  }

  ghost function OnGpu(gpu: seq<Interval>, duration: nat): (r: seq<bool>)
    ensures |r| == duration && forall t :: 0 <= t < duration ==> r[t] == Covers(gpu, t)
  {
    seq(duration, t => Covers(gpu, t))
  }

  lemma {:induction false} MarkedEverywhere(duration: nat, start: nat, end: nat)
    requires start <= end <= duration
    ensures Marked(Everywhere(duration), start, end) == end - start
    decreases end
  {
    if end > start {
      MarkedEverywhere(duration, start, end - 1);
    }
  }

  lemma {:induction false} MarkedOnGpu(gpu: seq<Interval>, duration: nat, start: nat, end: nat)
    requires start <= end <= duration
    ensures Marked(OnGpu(gpu, duration), start, end) == CoveredTicks(gpu, start, end)
    decreases end
  {
    if end > start {
      MarkedOnGpu(gpu, duration, start, end - 1);
    }
  }

  /** The root holds every marked tick. */
  lemma {:induction false} CountRoot(active: seq<Path>, mask: seq<bool>)
    requires |mask| == |active|
    ensures Count(active, mask, []) == Marked(mask, 0, |mask|)
  {
    if active != [] {
      var n := |active| - 1;
      CountRoot(active[..n], mask[..n]);
      MarkedPrefix(mask, n, 0, n);
    }
  }

  /** Every node but the root is listed by its parent, and every listed child is a node. */
  ghost predicate Shaped(tree: Tree) {
    && [] in tree
    && (forall p {:trigger Listed(tree, p)} :: p in tree && p != [] ==> Listed(tree, p))
    && (forall p {:trigger ChildrenIn(tree, p)} :: p in tree ==> ChildrenIn(tree, p))
  }

  ghost predicate ChildrenIn(tree: Tree, p: Path)
    requires p in tree
  {
    Distinct(tree[p].children) && forall c :: c in tree[p].children ==> p + [c] in tree
  }

  ghost predicate Listed(tree: Tree, p: Path)
    requires p != []
  {
    p[..|p| - 1] in tree && p[|p| - 1] in tree[p[..|p| - 1]].children
  }

  /** A root that holds the whole duration. */
  function RootTree(duration: nat, gpuUs: int): (r: Tree)
    ensures Shaped(r)
  {
    map[[] := Node(duration, gpuUs, 1, [])]
  }

  type ShapedTree = t: Tree | Shaped(t) ghost witness RootTree(0, 0)

  /** Every node's time is the time its path was active. */
  ghost predicate Timed(tree: Tree, active: seq<Path>, gpu: seq<Interval>) {
    && (forall t :: 0 <= t < |active| ==> active[t] in tree)
    && (forall p :: p in tree ==> TimedAt(tree, active, gpu, p))
  }

  ghost predicate TimedAt(tree: Tree, active: seq<Path>, gpu: seq<Interval>, p: Path)
    requires p in tree
  {
    && tree[p].us == Count(active, Everywhere(|active|), p)
    && tree[p].gpuUs == Count(active, OnGpu(gpu, |active|), p)
  }

  lemma {:induction false} PrefixIn(tree: Tree, p: Path, k: nat)
    requires Shaped(tree) && p in tree && k <= |p|
    ensures p[..k] in tree
    ensures k < |p| ==> p[k] in tree[p[..k]].children
    decreases |p|
  {
    if k < |p| {
      var up := p[..|p| - 1];
      assert Listed(tree, p);
      PrefixIn(tree, up, k);
      assert up[..k] == p[..k];
    } else {
      assert p[..k] == p;
    }
  }

  /** A path outside the tree has never been active. */
  lemma {:induction false} AbsentZero(tree: Tree, active: seq<Path>, mask: seq<bool>, p: Path)
    requires Shaped(tree) && |mask| == |active| && p !in tree
    requires forall t :: 0 <= t < |active| ==> active[t] in tree
    ensures Count(active, mask, p) == 0
  {
    if active != [] {
      var n := |active| - 1;
      AbsentZero(tree, active[..n], mask[..n], p);
      if p <= active[n] {
        PathIn(tree, active[n], p);
      }
    }
  }

  lemma PathIn(tree: Tree, a: Path, p: Path)
    requires Shaped(tree) && a in tree && p <= a
    ensures p in tree
  {
    PrefixIn(tree, a, |p|);
    assert a[..|p|] == p;
  }

  /** The child of q with this name, made when it is new. */
  function AddChild(tree: Tree, q: Path, name: Name): (r: Tree)
    requires q in tree
    ensures r.Keys == tree.Keys + {q + [name]}
  {
    if q + [name] in tree then
      tree
    else
      tree[q + [name] := Node(0, 0, 0, [])][q := tree[q].(children := tree[q].children + [name])]
  }

  lemma AddChildShaped(tree: Tree, q: Path, name: Name)
    requires Shaped(tree) && q in tree
    ensures Shaped(AddChild(tree, q, name))
  {
    var (p, after) := (q + [name], AddChild(tree, q, name));
    if p !in tree {
      forall r | r in after && r != [] ensures Listed(after, r) {
        ListedKept(tree, q, name, r);
      }
      assert q + [name] in tree || name !in tree[q].children by {
        assert ChildrenIn(tree, q);
      }
      forall r | r in after ensures ChildrenIn(after, r) {
        ChildrenKept(tree, q, name, r);
      }
    }
  }

  lemma ChildrenKept(tree: Tree, q: Path, name: Name, r: Path)
    requires q in tree && q + [name] !in tree && name !in tree[q].children
    requires r == q + [name] || (r in tree && ChildrenIn(tree, r))
    ensures ChildrenIn(AddChild(tree, q, name), r)
  {
  }

  lemma ListedKept(tree: Tree, q: Path, name: Name, r: Path)
    requires q in tree && q + [name] !in tree && r != []
    requires r == q + [name] || (r in tree && Listed(tree, r))
    ensures Listed(AddChild(tree, q, name), r)
  {
    if r == q + [name] {
      assert r[..|r| - 1] == q;
    }
  }

  /** A node with more time, in a tree. */
  function AddTo(tree: Tree, p: Path, us: int, gpuUs: int): (r: Tree)
    requires p in tree
    ensures r.Keys == tree.Keys
  {
    var node := tree[p];
    tree[p := node.(us := node.us + us, gpuUs := node.gpuUs + gpuUs, calls := node.calls + 1)]
  }

  lemma AddToShaped(tree: Tree, p: Path, us: int, gpuUs: int)
    requires Shaped(tree) && p in tree
    ensures Shaped(AddTo(tree, p, us, gpuUs))
  {
    var after := AddTo(tree, p, us, gpuUs);
    assert forall r :: r in tree ==> after[r].children == tree[r].children;
    forall r | r in after && r != [] ensures Listed(after, r) {
      assert Listed(tree, r);
    }
    forall r | r in after ensures ChildrenIn(after, r) {
      assert ChildrenIn(tree, r);
    }
  }

  /** Add an event's time to the child of q with this name. */
  function Visit(tree: ShapedTree, q: Path, name: Name, us: int, gpuUs: int): (r: ShapedTree)
    requires q in tree
    ensures r.Keys == tree.Keys + {q + [name]}
  {
    AddChildShaped(tree, q, name);
    var grown := AddChild(tree, q, name);
    AddToShaped(grown, q + [name], us, gpuUs);
    AddTo(grown, q + [name], us, gpuUs)
  }

  lemma VisitNode(tree: ShapedTree, q: Path, name: Name, us: int, gpuUs: int, r: Path)
    requires q in tree && r in Visit(tree, q, name, us, gpuUs)
    ensures var node := Visit(tree, q, name, us, gpuUs)[r];
      && node.us == (if r in tree then tree[r].us else 0) + (if r == q + [name] then us else 0)
      && node.gpuUs == (if r in tree then tree[r].gpuUs else 0) + (if r == q + [name] then gpuUs else 0)
      && node.calls == (if r in tree then tree[r].calls else 0) + (if r == q + [name] then 1 else 0)
  {
  }

  /** How many of the events open at a path: the path active when they start, which ends with their own name. */
  ghost function Openings(events: seq<Event>, p: Path): nat {
    if events == [] then
      0
    else
      var n := |events| - 1;
      Openings(events[..n], p) + if ActiveAt(events, events[n].start) == p then 1 else 0
  }

  lemma OpeningsNext(events: seq<Event>, e: Event, p: Path)
    ensures Openings(events + [e], p) == Openings(events, p) + if ActiveAt(events + [e], e.start) == p then 1 else 0
  {
    assert (events + [e])[..|events|] == events;
  }

  /** The nodes are the root and the paths at which events open, and hold how many do; the root holds one call. */
  ghost predicate Called(tree: Tree, events: seq<Event>) {
    forall p :: (p in tree <==> p == [] || Openings(events, p) > 0) && (p in tree ==> CalledAt(tree, events, p))
  }

  ghost predicate CalledAt(tree: Tree, events: seq<Event>, p: Path)
    requires p in tree
  {
    tree[p].calls == if p == [] then 1 else Openings(events, p)
  }

  /** One more call at p, which may be new. */
  ghost predicate Visited(tree: Tree, grown: Tree, p: Path) {
    && grown.Keys == tree.Keys + {p}
    && forall r :: r in grown ==>
         grown[r].calls == (if r in tree then tree[r].calls else 0) + (if r == p then 1 else 0)
  }

  lemma VisitVisited(tree: ShapedTree, q: Path, name: Name, us: int, gpuUs: int)
    requires q in tree
    ensures Visited(tree, Visit(tree, q, name, us, gpuUs), q + [name])
  {
    forall r | r in Visit(tree, q, name, us, gpuUs)
      ensures Visit(tree, q, name, us, gpuUs)[r].calls
        == (if r in tree then tree[r].calls else 0) + (if r == q + [name] then 1 else 0)
    {
      VisitNode(tree, q, name, us, gpuUs, r);
    }
  }

  lemma VisitCalled(tree: Tree, grown: Tree, events: seq<Event>, e: Event, p: Path)
    requires Called(tree, events) && Visited(tree, grown, p) && p != [] && ActiveAt(events + [e], e.start) == p
    ensures Called(grown, events + [e])
  {
    forall r
      ensures r in grown <==> r == [] || Openings(events + [e], r) > 0
      ensures r in grown ==> CalledAt(grown, events + [e], r)
    {
      OpeningsNext(events, e, r);
      assert r in tree <==> r == [] || Openings(events, r) > 0;
      assert r in tree ==> CalledAt(tree, events, r);
    }
  }

  /** A path at which events open is below others. */
  ghost predicate OpenedDown(events: seq<Event>) {
    forall p, k {:trigger p[..k]} :: 0 < k <= |p| && Openings(events, p) > 0 ==> Openings(events, p[..k]) > 0
  }

  lemma TreeOpenedDown(tree: ShapedTree, events: seq<Event>)
    requires Called(tree, events)
    ensures OpenedDown(events)
  {
    forall p, k | 0 < k <= |p| && Openings(events, p) > 0 ensures Openings(events, p[..k]) > 0 {
      assert p in tree;
      PrefixIn(tree, p, k);
      assert p[..k] in tree;
    }
  }

  /** What the ticks of one event add to the count of a path that may be new. */
  lemma CountVisit(tree: ShapedTree, before: seq<Path>, after: seq<Path>, mask: seq<bool>, q: Path, name: Name, r: Path,
                   start: nat, end: nat)
    requires (forall t :: 0 <= t < |before| ==> before[t] in tree)
    requires start <= end <= |before| == |after| == |mask|
    requires Pushes(before, after, q, name, start, end)
    ensures Count(after, mask, r) == (if r in tree then Count(before, mask, r) else 0)
      + (if r == q + [name] then Marked(mask, start, end) else 0)
  {
    CountPush(before, after, mask, q, name, r, start, end);
    if r !in tree {
      AbsentZero(tree, before, mask, r);
    }
  }

  /** From `start` to `end` the active path goes from q to its child; elsewhere it stays. */
  ghost predicate Pushes(before: seq<Path>, after: seq<Path>, q: Path, name: Name, start: int, end: int) {
    && |before| == |after|
    && forall t :: 0 <= t < |before| ==>
         if start <= t < end then before[t] == q && after[t] == q + [name] else after[t] == before[t]
  }

  lemma VisitTimed(tree: ShapedTree, before: seq<Path>, after: seq<Path>, gpu: seq<Interval>, q: Path, name: Name,
                   start: nat, end: nat, gpuUs: int)
    requires Timed(tree, before, gpu) && q in tree && start <= end <= |before|
    requires Pushes(before, after, q, name, start, end) && gpuUs == CoveredTicks(gpu, start, end)
    ensures Timed(Visit(tree, q, name, end - start, gpuUs), after, gpu)
  {
    var grown := Visit(tree, q, name, end - start, gpuUs);
    forall r | r in grown ensures TimedAt(grown, after, gpu, r) {
      VisitTimedAt(tree, before, after, gpu, q, name, start, end, gpuUs, r);
    }
  }

  lemma VisitTimedAt(tree: ShapedTree, before: seq<Path>, after: seq<Path>, gpu: seq<Interval>, q: Path, name: Name,
                     start: nat, end: nat, gpuUs: int, r: Path)
    requires (forall t :: 0 <= t < |before| ==> before[t] in tree) && q in tree && start <= end <= |before|
    requires Pushes(before, after, q, name, start, end) && gpuUs == CoveredTicks(gpu, start, end)
    requires r in tree ==> TimedAt(tree, before, gpu, r)
    requires r in tree || r == q + [name]
    ensures TimedAt(Visit(tree, q, name, end - start, gpuUs), after, gpu, r)
  {
    var d := |before|;
    MarkedEverywhere(d, start, end);
    MarkedOnGpu(gpu, d, start, end);
    VisitNode(tree, q, name, end - start, gpuUs, r);
    CountVisit(tree, before, after, Everywhere(d), q, name, r, start, end);
    CountVisit(tree, before, after, OnGpu(gpu, d), q, name, r, start, end);
  }

  ghost predicate Shallow(tree: ShapedTree, depth: nat) {
    forall p {:trigger p in tree} :: p in tree ==> |p| <= depth
  }

  /** The tree holds exactly the time its paths were active. */
  ghost predicate TreeOk(tree: ShapedTree, active: seq<Path>, depth: nat, gpu: seq<Interval>) {
    Timed(tree, active, gpu) && Shallow(tree, depth)
  }

  lemma RootTreeOk(duration: nat, gpu: seq<Interval>)
    requires Separated(gpu)
    ensures TreeOk(RootTree(duration, Overlap(gpu, 0, duration)), Active([], duration), 0, gpu)
  {
    var (tree, active) := (RootTree(duration, Overlap(gpu, 0, duration)), Active([], duration));
    CountRoot(active, Everywhere(duration));
    CountRoot(active, OnGpu(gpu, duration));
    MarkedEverywhere(duration, 0, duration);
    MarkedOnGpu(gpu, duration, 0, duration);
    OverlapIsCovered(gpu, 0, duration);
    assert TimedAt(tree, active, gpu, []);
  }

  /** An event's time goes to the child of the innermost open one. */
  lemma VisitTreeOk(tree: ShapedTree, before: seq<Path>, after: seq<Path>, depth: nat, gpu: seq<Interval>, q: Path, name: Name,
                    start: nat, end: nat, gpuUs: int)
    requires TreeOk(tree, before, depth, gpu) && q in tree && start <= end <= |before|
    requires Pushes(before, after, q, name, start, end) && gpuUs == CoveredTicks(gpu, start, end)
    ensures TreeOk(Visit(tree, q, name, end - start, gpuUs), after, depth + 1, gpu)
  {
    VisitTimed(tree, before, after, gpu, q, name, start, end, gpuUs);
    VisitShallow(tree, depth, q, name, end - start, gpuUs);
  }

  lemma VisitShallow(tree: ShapedTree, depth: nat, q: Path, name: Name, us: int, gpuUs: int)
    requires Shallow(tree, depth) && q in tree
    ensures Shallow(Visit(tree, q, name, us, gpuUs), depth + 1)
  {
  }
}
