/** Nested CPU intervals, and their overlap with GPU activity (`aggregate_intervals`).  Times are
    whole ticks; `tolerance` is the source's 0.01 microseconds. */
module Flamegraph {
  import opened Common
  import opened Sorting
  import opened TraceIntervals
  import opened CallTree
  import opened Nesting

  /** Close the events that ended by `start`. */
  method CloseEnded(ghost read: seq<Event>, stack: seq<Entry>, ghost clipped: seq<Event>, ghost tree: ShapedTree, start: int,
                    ghost duration: nat, ghost tolerance: nat)
    returns (left: seq<Entry>)
    requires OpenOk(read, stack, clipped, start, duration, tolerance) && StackOk(stack, tree.Keys, duration)
    ensures OpenOk(read, left, clipped, start, duration, tolerance) && StackOk(left, tree.Keys, duration)
    ensures left != [] ==> start < left[|left| - 1].end
  {
    left := stack;
    while left != [] && start >= left[|left| - 1].end
      invariant OpenOk(read, left, clipped, start, duration, tolerance) && StackOk(left, tree.Keys, duration)
    {
      OpenPop(read, left, clipped, start, duration, tolerance);
      left := left[..|left| - 1];
    }
  }

  /** Read one event. */
  method ReadEvent(ghost read: seq<Event>, duration: nat, gpu: seq<Interval>, tolerance: nat, tree: ShapedTree, stack: seq<Entry>,
                   ghost clipped: seq<Event>, ghost now: int, e: Event)
    returns (ok: bool, tree': ShapedTree, stack': seq<Entry>, ghost clipped': seq<Event>)
    requires Separated(gpu) && TreeOk(tree, Active(clipped, duration), |clipped|, gpu) && StackOk(stack, tree.Keys, duration)
    requires OpenOk(read, stack, clipped, now, duration, tolerance) && now <= e.start && Called(tree, clipped)
    requires e.start < e.end ==> 0 <= e.start && e.end <= duration
    ensures ok ==> TreeOk(tree', Active(clipped', duration), |clipped'|, gpu) && StackOk(stack', tree'.Keys, duration)
    ensures ok ==> OpenOk(read + [e], stack', clipped', e.start, duration, tolerance) && Called(tree', clipped')
    ensures !ok ==> Outlasts(read, e, tolerance)
    ensures !ok <==> Overruns(Cuts(read), e, tolerance)
  {
    ok, tree', stack', clipped' := true, tree, stack, clipped;
    OpenLater(read, stack, clipped, now, e.start, duration, tolerance);
    if e.end <= e.start {
      OpenSkip(read, stack, clipped, e.start, duration, tolerance, e);
      return;
    }
    stack' := CloseEnded(read, stack, clipped, tree, e.start, duration, tolerance);
    var end := e.end;
    if stack' != [] && end > stack'[|stack'| - 1].end {
      if end - stack'[|stack'| - 1].end > tolerance {
        assert EndsAt(read, stack', |stack'| - 1, e.start);
        CutEndIs(stack', clipped, duration, e, Event(e.start, stack'[|stack'| - 1].end, e.name));
        return false, tree', stack', clipped';
      }
      end := stack'[|stack'| - 1].end;
    }
    CutEndIs(stack', clipped, duration, e, Event(e.start, end, e.name));
    tree', stack', clipped' := Enter(read, duration, gpu, tolerance, tree, stack', clipped, e, end);
  }

  /** Add an event's time, and its overlap with the GPU, under q. */
  method AddTime(tree: ShapedTree, gpu: seq<Interval>, ghost before: seq<Path>, ghost after: seq<Path>, ghost depth: nat, q: Path,
                 name: Name, start: nat, end: nat)
    returns (grown: ShapedTree)
    requires Separated(gpu) && TreeOk(tree, before, depth, gpu) && q in tree
    requires start <= end <= |before| && Pushes(before, after, q, name, start, end)
    ensures TreeOk(grown, after, depth + 1, gpu)
    ensures tree.Keys <= grown.Keys && q + [name] in grown && Visited(tree, grown, q + [name])
  {
    OverlapIsCovered(gpu, start, end);
    var gpuUs := Overlap(gpu, start, end);
    VisitTreeOk(tree, before, after, depth, gpu, q, name, start, end, gpuUs);
    VisitVisited(tree, q, name, end - start, gpuUs);
    grown := Visit(tree, q, name, end - start, gpuUs);
  }

  /** Open an event under the innermost open one. */
  method Enter(ghost read: seq<Event>, duration: nat, gpu: seq<Interval>, ghost tolerance: nat, tree: ShapedTree, stack: seq<Entry>,
               ghost clipped: seq<Event>, e: Event, end: int)
    returns (tree': ShapedTree, stack': seq<Entry>, ghost clipped': seq<Event>)
    requires Separated(gpu) && TreeOk(tree, Active(clipped, duration), |clipped|, gpu) && StackOk(stack, tree.Keys, duration)
    requires OpenOk(read, stack, clipped, e.start, duration, tolerance)
    requires 0 <= e.start && e.end <= duration && Clips(e, Event(e.start, end, e.name), tolerance)
    requires CutsAt(stack, e, Event(e.start, end, e.name)) && Called(tree, clipped)
    ensures TreeOk(tree', Active(clipped', duration), |clipped'|, gpu) && Called(tree', clipped')
    ensures StackOk(stack', tree'.Keys, duration)
    ensures OpenOk(read + [e], stack', clipped', e.start, duration, tolerance)
  {
    ghost var cut := Event(e.start, end, e.name);
    var parent := TopPath(stack);
    assert parent in tree;
    OpenPush(read, stack, clipped, duration, tolerance, e, cut);
    clipped' := clipped + [cut];
    tree' := AddTime(tree, gpu, Active(clipped, duration), Active(clipped', duration), |clipped|, parent, e.name, e.start, end);
    assert Active(clipped', duration)[e.start] == parent + [e.name];
    VisitCalled(tree, tree', clipped, cut, parent + [e.name]);
    StackPush(stack, tree.Keys, tree'.Keys, duration, Entry(end, parent + [e.name]));
    stack' := stack + [Entry(end, parent + [e.name])];
  }

  method NewTree(duration: nat, gpu: seq<Interval>) returns (tree: ShapedTree)
    requires Separated(gpu)
    ensures TreeOk(tree, Active([], duration), 0, gpu) && Called(tree, [])
  {
    RootTreeOk(duration, gpu);
    tree := RootTree(duration, Overlap(gpu, 0, duration));
  }

  ghost predicate Inside(events: seq<Event>, duration: nat) {
    forall e :: e in events && e.start < e.end ==> 0 <= e.start && e.end <= duration
  }

  /** Read every event in order.  On success the tree holds exactly the time each path was active. */
  method ReadEvents(events: seq<Event>, duration: nat, gpu: seq<Interval>, tolerance: nat)
    returns (ok: bool, tree: ShapedTree, ghost clipped: seq<Event>)
    requires Separated(gpu) && SortedByNesting(events) && Inside(events, duration)
    ensures ok ==> TreeOk(tree, Active(clipped, duration), |clipped|, gpu) && Called(tree, clipped)
    ensures ok ==> clipped == Cuts(events)
    ensures ok ==> Laminar(clipped) && ClipsAll(events, clipped, tolerance)
    ensures !ok ==> SomeCross(events, tolerance)
    ensures !ok <==> SomeOverruns(events, tolerance)
  {
    ok, clipped := true, [];
    tree := NewTree(duration, gpu);
    var stack: seq<Entry> := [];
    ghost var now := if events == [] then 0 else events[0].start;
    for i := 0 to |events|
      invariant ok && TreeOk(tree, Active(clipped, duration), |clipped|, gpu) && StackOk(stack, tree.Keys, duration)
      invariant OpenOk(events[..i], stack, clipped, now, duration, tolerance) && Called(tree, clipped)
      invariant i < |events| ==> now <= events[i].start
      invariant forall j :: 0 <= j < i ==> !Overruns(Cuts(events[..j]), events[j], tolerance)
    {
      assert events[i] in events;
      TakeNext(events, i);
      ok, tree, stack, clipped := ReadEvent(events[..i], duration, gpu, tolerance, tree, stack, clipped, now, events[i]);
      if !ok {
        CrossFound(events, i, tolerance);
        return;
      }
      now := events[i].start;
      assert i + 1 < |events| ==> KeyLe(BY_NESTING(events[i]), BY_NESTING(events[i + 1]));
    }
    assert events[..|events|] == events;
  }

  /** A finished node. */
  datatype Frame = Frame(name: Name, us: int, selfUs: int, calls: nat, gpuUs: int, gpuIdleUs: int, selfGpuUs: int,
                         children: seq<Frame>)

  datatype Finished = Inconsistent | Finished(frame: Frame)

  function LongestFirst(tree: ShapedTree, p: Path): Name -> SortKey {
    c => (if p + [c] in tree then -tree[p + [c]].us else 0, 0)
  }

  ghost predicate AllIn(tree: ShapedTree, p: Path, names: seq<Name>) {
    forall i :: 0 <= i < |names| ==> p + [names[i]] in tree
  }

  function SumUs(tree: ShapedTree, p: Path, names: seq<Name>): int
    requires AllIn(tree, p, names)
  {
    if names == [] then 0 else SumUs(tree, p, names[..|names| - 1]) + tree[p + [names[|names| - 1]]].us
  }

  function SumGpu(tree: ShapedTree, p: Path, names: seq<Name>): int
    requires AllIn(tree, p, names)
  {
    if names == [] then 0 else SumGpu(tree, p, names[..|names| - 1]) + tree[p + [names[|names| - 1]]].gpuUs
  }

  /** The children of a node, the longest first. */
  function ChildrenOf(tree: ShapedTree, p: Path): (names: seq<Name>)
    requires p in tree
    ensures multiset(names) == multiset(tree[p].children) && AllIn(tree, p, names)
  {
    var names := SortBy(tree[p].children, LongestFirst(tree, p));
    SameElements(names, tree[p].children);
    assert ChildrenIn(tree, p);
    assert forall i :: 0 <= i < |names| ==> names[i] in names;
    names
  }

  /** A node's time less its children's. */
  function OwnUs(tree: ShapedTree, p: Path): int
    requires p in tree
  {
    tree[p].us - SumUs(tree, p, ChildrenOf(tree, p))
  }

  function OwnGpu(tree: ShapedTree, p: Path): int
    requires p in tree
  {
    tree[p].gpuUs - SumGpu(tree, p, ChildrenOf(tree, p))
  }

  function FrameOf(node: Node, name: Name, self: int, selfGpu: int, frames: seq<Frame>): Frame {
    Frame(name, node.us, Max(0, self), node.calls, node.gpuUs, Max(0, node.us - node.gpuUs), Max(0, selfGpu), frames)
  }

  /** The two checks of a node. */
  predicate Passes(tree: ShapedTree, tolerance: nat, p: Path)
    requires p in tree
  {
    0 - tolerance <= OwnUs(tree, p) && 0 - tolerance <= OwnGpu(tree, p) <= OwnUs(tree, p) + tolerance
  }

  /** The frame of a node whose checks pass, and of everything below it. */
  function FrameAt(tree: ShapedTree, depth: nat, p: Path, name: Name): Frame
    requires Shallow(tree, depth) && p in tree
    decreases 2 * (depth - |p|) + 1, 0
  {
    FrameOf(tree[p], name, OwnUs(tree, p), OwnGpu(tree, p), FramesOf(tree, depth, p, ChildrenOf(tree, p)))
  }

  function FramesOf(tree: ShapedTree, depth: nat, p: Path, names: seq<Name>): seq<Frame>
    requires Shallow(tree, depth) && p in tree && AllIn(tree, p, names)
    decreases 2 * (depth - |p|), |names|
  {
    if names == [] then
      []
    else
      var n := |names| - 1;
      assert p + [names[n]] in tree;
      FramesOf(tree, depth, p, names[..n]) + [FrameAt(tree, depth, p + [names[n]], names[n])]
  }

  predicate AllPass(tree: ShapedTree, tolerance: nat) {
    forall p :: p in tree ==> Passes(tree, tolerance, p)
  }

  /** `finish` of the root, which visits every node and raises when one fails its checks. */
  function Finish(tree: ShapedTree, depth: nat, tolerance: nat): Finished
    requires Shallow(tree, depth)
  {
    if AllPass(tree, tolerance) then
      Finished(FrameAt(tree, depth, [], ROOT_NAME))
    else
      Inconsistent
  }

  /** Own time over a whole frame. */
  function TotalSelf(f: Frame): int {
    f.selfUs + TotalSelfAll(f.children)
  }

  function TotalSelfAll(frames: seq<Frame>): int {
    if frames == [] then 0 else TotalSelfAll(frames[..|frames| - 1]) + TotalSelf(frames[|frames| - 1])
  }

  function TotalSelfGpu(f: Frame): int {
    f.selfGpuUs + TotalSelfGpuAll(f.children)
  }

  function TotalSelfGpuAll(frames: seq<Frame>): int {
    if frames == [] then 0 else TotalSelfGpuAll(frames[..|frames| - 1]) + TotalSelfGpu(frames[|frames| - 1])
  }

  /** Own times are not negative, and own GPU time fits in own time, all the way down. */
  predicate Sound(f: Frame) {
    0 <= f.selfGpuUs <= f.selfUs && SoundAll(f.children)
  }

  predicate SoundAll(frames: seq<Frame>) {
    frames == [] || (SoundAll(frames[..|frames| - 1]) && Sound(frames[|frames| - 1]))
  }

  /** A node's own time is the time its path was the whole active path. */
  lemma OwnTime(tree: ShapedTree, active: seq<Path>, gpu: seq<Interval>, p: Path)
    requires Timed(tree, active, gpu) && p in tree
    ensures OwnUs(tree, p) == Exactly(active, Everywhere(|active|), p)
    ensures OwnGpu(tree, p) == Exactly(active, OnGpu(gpu, |active|), p)
  {
    var names := ChildrenOf(tree, p);
    assert ChildrenIn(tree, p);
    SortedDistinct(names, tree[p].children);
    forall t | 0 <= t < |active| && p < active[t] ensures active[t][|p|] in names {
      PrefixIn(tree, active[t], |p|);
      assert active[t][..|p|] == p;
      SameElements(names, tree[p].children);
    }
    CountSplits(active, Everywhere(|active|), p, names);
    CountSplits(active, OnGpu(gpu, |active|), p, names);
    SumsAreCounts(tree, active, gpu, p, names);
    assert TimedAt(tree, active, gpu, p);
  }

  lemma SortedDistinct(names: seq<Name>, children: seq<Name>)
    requires multiset(names) == multiset(children) && Distinct(children)
    ensures Distinct(names)
  {
    forall i, j | 0 <= i < j < |names| ensures names[i] != names[j] {
      if names[i] == names[j] {
        DistinctCount(children, names[i]);
        CountedTwice(names, i, j);
      }
    }
  }

  lemma {:induction false} SumsAreCounts(tree: ShapedTree, active: seq<Path>, gpu: seq<Interval>, p: Path, names: seq<Name>)
    requires Timed(tree, active, gpu) && AllIn(tree, p, names)
    ensures SumUs(tree, p, names) == SumCounts(active, Everywhere(|active|), p, names)
    ensures SumGpu(tree, p, names) == SumCounts(active, OnGpu(gpu, |active|), p, names)
  {
    if names != [] {
      var n := |names| - 1;
      SumsAreCounts(tree, active, gpu, p, names[..n]);
      assert p + [names[n]] in tree;
      assert TimedAt(tree, active, gpu, p + [names[n]]);
    }
  }

  /** No node's own time is negative, and own GPU time fits in it. */
  ghost predicate OwnTimesOk(tree: ShapedTree)
  {
    forall p {:trigger OwnUs(tree, p)} :: p in tree ==> 0 <= OwnGpu(tree, p) <= OwnUs(tree, p)
  }

  lemma TimedOwnTimes(tree: ShapedTree, active: seq<Path>, gpu: seq<Interval>)
    requires Timed(tree, active, gpu)
    ensures OwnTimesOk(tree)
  {
    forall p | p in tree ensures 0 <= OwnGpu(tree, p) <= OwnUs(tree, p) {
      OwnTime(tree, active, gpu, p);
      ExactlyMasked(active, OnGpu(gpu, |active|), Everywhere(|active|), p);
    }
  }

  /** A frame's own times are sound and add up to its node's times. */
  ghost predicate Accounts(node: Node, f: Frame) {
    && f.us == node.us == TotalSelf(f) && f.gpuUs == node.gpuUs == TotalSelfGpu(f) && Sound(f)
  }

  ghost predicate AccountsAll(tree: ShapedTree, p: Path, names: seq<Name>, frames: seq<Frame>)
    requires AllIn(tree, p, names)
  {
    TotalSelfAll(frames) == SumUs(tree, p, names) && TotalSelfGpuAll(frames) == SumGpu(tree, p, names) && SoundAll(frames)
  }

  /** A node's frame accounts for its time. */
  lemma {:induction false} FrameAccounts(tree: ShapedTree, depth: nat, p: Path, name: Name)
    requires Shallow(tree, depth) && OwnTimesOk(tree) && p in tree
    ensures Accounts(tree[p], FrameAt(tree, depth, p, name))
    decreases 2 * (depth - |p|) + 1, 0
  {
    FramesAccount(tree, depth, p, ChildrenOf(tree, p));
  }

  lemma {:induction false} FramesAccount(tree: ShapedTree, depth: nat, p: Path, names: seq<Name>)
    requires Shallow(tree, depth) && OwnTimesOk(tree) && p in tree && AllIn(tree, p, names)
    ensures AccountsAll(tree, p, names, FramesOf(tree, depth, p, names))
    decreases 2 * (depth - |p|), |names|
  {
    if names != [] {
      var n := |names| - 1;
      var c := p + [names[n]];
      assert c in tree;
      FramesAccount(tree, depth, p, names[..n]);
      FrameAccounts(tree, depth, c, names[n]);
      AccountsNext(tree, p, names, FramesOf(tree, depth, p, names[..n]), FrameAt(tree, depth, c, names[n]),
                   FramesOf(tree, depth, p, names));
    }
  }

  lemma AccountsNext(tree: ShapedTree, p: Path, names: seq<Name>, frames: seq<Frame>, f: Frame, all: seq<Frame>)
    requires names != [] && AllIn(tree, p, names) && AccountsAll(tree, p, names[..|names| - 1], frames)
    requires p + [names[|names| - 1]] in tree && Accounts(tree[p + [names[|names| - 1]]], f)
    requires all == frames + [f]
    ensures AccountsAll(tree, p, names, all)
  {
    AppendFrame(frames, f);
  }

  lemma AppendFrame(frames: seq<Frame>, f: Frame)
    ensures TotalSelfAll(frames + [f]) == TotalSelfAll(frames) + TotalSelf(f)
    ensures TotalSelfGpuAll(frames + [f]) == TotalSelfGpuAll(frames) + TotalSelfGpu(f)
    ensures SoundAll(frames + [f]) <==> SoundAll(frames) && Sound(f)
  {
    assert (frames + [f])[..|frames|] == frames;
  }

  datatype Aggregated = Crossing | Rejected | Aggregated(root: Frame)

  /** The time when no operation was recorded. */
  function Gap(us: int, gpuUs: int): Frame {
    Frame("[no recorded CPU operation]", us, us, 0, gpuUs, us - gpuUs, gpuUs, [])
  }

  const LONGEST_FRAME_FIRST: Frame -> SortKey := (f: Frame) => (-f.us, 0)

  /** The root with its own time moved to a child of its own, and the longest child first. */
  function WithGap(f: Frame): Frame {
    f.(selfUs := 0, selfGpuUs := 0,
       children := SortBy(f.children + [Gap(f.selfUs, f.selfGpuUs)], LONGEST_FRAME_FIRST))
  }

  /** Sorting frames changes no total. */
  lemma {:induction false} TotalsPlace(frames: seq<Frame>, f: Frame, key: Frame -> SortKey)
    requires SortedBy(frames, key)
    ensures Joins(frames, f, Place(frames, f, key))
  {
    if frames == [] {
      AppendFrame(frames, f);
      assert frames + [f] == [f];
    } else if KeyLe(key(frames[|frames| - 1]), key(f)) {
      AppendFrame(frames, f);
    } else {
      var n := |frames| - 1;
      TotalsPlace(frames[..n], f, key);
      JoinsLater(frames[..n], f, Place(frames[..n], f, key), frames[n]);
      assert frames == frames[..n] + [frames[n]];
    }
  }

  /** The frames of `after` are those of `before` and f. */
  ghost predicate Joins(before: seq<Frame>, f: Frame, after: seq<Frame>) {
    && TotalSelfAll(after) == TotalSelfAll(before) + TotalSelf(f)
    && TotalSelfGpuAll(after) == TotalSelfGpuAll(before) + TotalSelfGpu(f)
    && (SoundAll(after) <==> SoundAll(before) && Sound(f))
  }

  lemma JoinsLater(before: seq<Frame>, f: Frame, after: seq<Frame>, last: Frame)
    requires Joins(before, f, after)
    ensures Joins(before + [last], f, after + [last])
  {
    AppendFrame(before, last);
    AppendFrame(after, last);
  }

  lemma {:induction false} TotalsSorted(frames: seq<Frame>, key: Frame -> SortKey)
    ensures TotalSelfAll(SortBy(frames, key)) == TotalSelfAll(frames)
    ensures TotalSelfGpuAll(SortBy(frames, key)) == TotalSelfGpuAll(frames)
    ensures SoundAll(SortBy(frames, key)) <==> SoundAll(frames)
  {
    if frames != [] {
      var n := |frames| - 1;
      TotalsSorted(frames[..n], key);
      TotalsPlace(SortBy(frames[..n], key), frames[n], key);
    }
  }

  lemma WithGapTotals(f: Frame)
    requires Sound(f)
    ensures TotalSelf(WithGap(f)) == TotalSelf(f) && TotalSelfGpu(WithGap(f)) == TotalSelfGpu(f) && Sound(WithGap(f))
  {
    var gap := Gap(f.selfUs, f.selfGpuUs);
    GapTotals(f.selfUs, f.selfGpuUs);
    AppendFrame(f.children, gap);
    TotalsSorted(f.children + [gap], LONGEST_FRAME_FIRST);
  }

  lemma GapTotals(us: int, gpuUs: int)
    ensures TotalSelf(Gap(us, gpuUs)) == us && TotalSelfGpu(Gap(us, gpuUs)) == gpuUs
    ensures Sound(Gap(us, gpuUs)) <==> 0 <= gpuUs <= us
  {
    assert TotalSelfAll([]) == 0 && TotalSelfGpuAll([]) == 0 && SoundAll([]);
  }

  lemma {:induction false} LastingFewer(events: seq<Event>)
    ensures |Lasting(events)| <= |events|
  {
    if events != [] {
      LastingFewer(events[..|events| - 1]);
    }
  }

  lemma RootTimes(tree: ShapedTree, active: seq<Path>, gpu: seq<Interval>, depth: nat)
    requires TreeOk(tree, active, depth, gpu)
    ensures tree[[]].us == |active| && tree[[]].gpuUs == CoveredTicks(gpu, 0, |active|)
  {
    var d := |active|;
    assert TimedAt(tree, active, gpu, []);
    CountRoot(active, Everywhere(d));
    CountRoot(active, OnGpu(gpu, d));
    MarkedEverywhere(d, 0, d);
    MarkedOnGpu(gpu, d, 0, d);
  }

  /** The finished root accounts for the whole of its node's time. */
  lemma RootAccounts(tree: ShapedTree, depth: nat, tolerance: nat)
    requires Shallow(tree, depth) && OwnTimesOk(tree)
    ensures Finish(tree, depth, tolerance).Finished?
    ensures Accounts(tree[[]], Finish(tree, depth, tolerance).frame)
  {
    OwnTimesPass(tree, tolerance);
    FrameAccounts(tree, depth, [], ROOT_NAME);
  }

  lemma OwnTimesPass(tree: ShapedTree, tolerance: nat)
    requires OwnTimesOk(tree)
    ensures AllPass(tree, tolerance)
  {
    forall p | p in tree ensures Passes(tree, tolerance, p) {
      assert 0 <= OwnGpu(tree, p) <= OwnUs(tree, p);
    }
  }

  const ROOT_NAME := "Worker main thread"

  /** The frame at path p: its time is the time p was active, its own time the time p was all that was, and its calls are
      the events that open at p. It has one child for each path one name longer at which events open, the longest first,
      and each child is the frame at that path. */
  ghost predicate FrameRight(f: Frame, p: Path, events: seq<Event>, active: seq<Path>, gpu: seq<Interval>)
    decreases f
  {
    var (all, onGpu) := (Everywhere(|active|), OnGpu(gpu, |active|));
    && f.us == Count(active, all, p) && f.gpuUs == Count(active, onGpu, p) && f.gpuIdleUs == f.us - f.gpuUs
    && f.selfUs == Exactly(active, all, p) && f.selfGpuUs == Exactly(active, onGpu, p)
    && f.calls == (if p == [] then 1 else Openings(events, p))
    && ChildrenRight(f.children, p, events)
    && forall i :: 0 <= i < |f.children| ==> FrameRight(f.children[i], p + [f.children[i].name], events, active, gpu)
  }

  ghost predicate ChildrenRight(children: seq<Frame>, p: Path, events: seq<Event>) {
    && (forall i, j :: 0 <= i < j < |children| ==> children[i].name != children[j].name)
    && (forall i, j :: 0 <= i < j < |children| ==> children[i].us >= children[j].us)
    && forall name :: NameIn(children, name) <==> Openings(events, p + [name]) > 0
  }

  ghost predicate NameIn(children: seq<Frame>, name: Name) {
    exists i :: 0 <= i < |children| && children[i].name == name
  }

  /** A frame list, frame by frame. */
  ghost predicate FramesAre(tree: ShapedTree, depth: nat, p: Path, names: seq<Name>, frames: seq<Frame>)
    requires Shallow(tree, depth)
  {
    |frames| == |names| && forall i :: 0 <= i < |names| ==> FrameIs(tree, depth, p, names[i], frames[i])
  }

  ghost predicate FrameIs(tree: ShapedTree, depth: nat, p: Path, name: Name, f: Frame)
    requires Shallow(tree, depth)
  {
    p + [name] in tree && f == FrameAt(tree, depth, p + [name], name)
  }

  lemma {:induction false} FramesOfAre(tree: ShapedTree, depth: nat, p: Path, names: seq<Name>)
    requires Shallow(tree, depth) && p in tree && AllIn(tree, p, names)
    ensures FramesAre(tree, depth, p, names, FramesOf(tree, depth, p, names))
  {
    if names != [] {
      var n := |names| - 1;
      assert p + [names[n]] in tree;
      var (front, last) := (FramesOf(tree, depth, p, names[..n]), FrameAt(tree, depth, p + [names[n]], names[n]));
      FramesOfAre(tree, depth, p, names[..n]);
      assert FrameIs(tree, depth, p, names[n], last);
      FramesNext(tree, depth, p, names, front, last);
    }
  }

  lemma FramesNext(tree: ShapedTree, depth: nat, p: Path, names: seq<Name>, front: seq<Frame>, last: Frame)
    requires Shallow(tree, depth) && names != [] && FramesAre(tree, depth, p, names[..|names| - 1], front)
    requires FrameIs(tree, depth, p, names[|names| - 1], last)
    ensures FramesAre(tree, depth, p, names, front + [last])
  {
    forall i | 0 <= i < |names| ensures FrameIs(tree, depth, p, names[i], (front + [last])[i]) {
      if i < |front| {
        assert FrameIs(tree, depth, p, names[..|names| - 1][i], front[i]);
      }
    }
  }

  /** What a frame list shows of the nodes it was made from. */
  ghost predicate Shows(tree: ShapedTree, p: Path, names: seq<Name>, frames: seq<Frame>)
    requires AllIn(tree, p, names)
  {
    && |frames| == |names|
    && forall i :: 0 <= i < |frames| ==> frames[i].name == names[i] && frames[i].us == tree[p + [names[i]]].us
  }

  lemma FramesShow(tree: ShapedTree, depth: nat, p: Path, names: seq<Name>, frames: seq<Frame>)
    requires Shallow(tree, depth) && AllIn(tree, p, names) && FramesAre(tree, depth, p, names, frames)
    ensures Shows(tree, p, names, frames)
  {
    forall i | 0 <= i < |frames| ensures frames[i].name == names[i] && frames[i].us == tree[p + [names[i]]].us {
      assert FrameIs(tree, depth, p, names[i], frames[i]);
    }
  }

  lemma ChildNames(tree: ShapedTree, events: seq<Event>, p: Path, name: Name)
    requires p in tree && Called(tree, events)
    ensures name in ChildrenOf(tree, p) <==> Openings(events, p + [name]) > 0
  {
    SameElements(ChildrenOf(tree, p), tree[p].children);
    assert ChildrenIn(tree, p);
    assert p + [name] in tree <==> Openings(events, p + [name]) > 0;
    if p + [name] in tree {
      assert Listed(tree, p + [name]) && (p + [name])[..|p|] == p;
    }
  }

  /** The children of a frame, by name. */
  lemma ShownRight(tree: ShapedTree, events: seq<Event>, p: Path, frames: seq<Frame>)
    requires p in tree && Called(tree, events) && Shows(tree, p, ChildrenOf(tree, p), frames)
    ensures ChildrenRight(frames, p, events)
  {
    var names := ChildrenOf(tree, p);
    assert ChildrenIn(tree, p);
    SortedDistinct(names, tree[p].children);
    ShownOrder(tree, p, frames);
    forall name ensures NameIn(frames, name) <==> Openings(events, p + [name]) > 0 {
      ChildNames(tree, events, p, name);
      ShownNames(frames, names, name);
    }
  }

  lemma ShownOrder(tree: ShapedTree, p: Path, frames: seq<Frame>)
    requires p in tree && Shows(tree, p, ChildrenOf(tree, p), frames)
    ensures forall i, j :: 0 <= i < j < |frames| ==> frames[i].us >= frames[j].us
  {
    var names := ChildrenOf(tree, p);
    forall i, j | 0 <= i < j < |frames| ensures frames[i].us >= frames[j].us {
      assert p + [names[i]] in tree && p + [names[j]] in tree;
      assert KeyLe(LongestFirst(tree, p)(names[i]), LongestFirst(tree, p)(names[j]));
    }
  }

  lemma ShownNames(frames: seq<Frame>, names: seq<Name>, name: Name)
    requires |frames| == |names| && forall i :: 0 <= i < |frames| ==> frames[i].name == names[i]
    ensures NameIn(frames, name) <==> name in names
  {
    if name in names {
      var i :| 0 <= i < |names| && names[i] == name;
      assert frames[i].name == name;
    }
  }

  lemma {:induction false} FrameAtRight(tree: ShapedTree, events: seq<Event>, active: seq<Path>, gpu: seq<Interval>,
                                        depth: nat, p: Path, name: Name)
    requires Shallow(tree, depth) && p in tree && Timed(tree, active, gpu) && Called(tree, events)
    ensures FrameRight(FrameAt(tree, depth, p, name), p, events, active, gpu)
    decreases depth - |p|
  {
    var (names, f) := (ChildrenOf(tree, p), FrameAt(tree, depth, p, name));
    FramesOfAre(tree, depth, p, names);
    FramesShow(tree, depth, p, names, f.children);
    ShownRight(tree, events, p, f.children);
    NodeRight(tree, active, gpu, p);
    assert CalledAt(tree, events, p);
    forall i | 0 <= i < |f.children|
      ensures FrameRight(f.children[i], p + [f.children[i].name], events, active, gpu)
    {
      assert FrameIs(tree, depth, p, names[i], f.children[i]);
      FrameAtRight(tree, events, active, gpu, depth, p + [names[i]], names[i]);
    }
  }

  /** A node's times are those of its path, and its GPU time is part of its time. */
  lemma NodeRight(tree: ShapedTree, active: seq<Path>, gpu: seq<Interval>, p: Path)
    requires p in tree && Timed(tree, active, gpu)
    ensures tree[p].us == Count(active, Everywhere(|active|), p) && tree[p].gpuUs == Count(active, OnGpu(gpu, |active|), p)
    ensures OwnUs(tree, p) == Exactly(active, Everywhere(|active|), p) >= 0
    ensures OwnGpu(tree, p) == Exactly(active, OnGpu(gpu, |active|), p) >= 0
    ensures tree[p].gpuUs <= tree[p].us
  {
    OwnTime(tree, active, gpu, p);
    assert TimedAt(tree, active, gpu, p);
    CountMasked(active, OnGpu(gpu, |active|), Everywhere(|active|), p);
  }

  lemma {:induction false} CountMasked(active: seq<Path>, less: seq<bool>, more: seq<bool>, p: Path)
    requires |less| == |more| == |active| && forall t :: 0 <= t < |active| && less[t] ==> more[t]
    ensures Count(active, less, p) <= Count(active, more, p)
  {
    if active != [] {
      var n := |active| - 1;
      CountMasked(active[..n], less[..n], more[..n], p);
    }
  }

  /** A path of names leads from a frame down to one below it. */
  ghost predicate Reaches(f: Frame, p: Path)
    decreases f
  {
    p == [] || exists i :: 0 <= i < |f.children| && f.children[i].name == p[0] && Reaches(f.children[i], p[1..])
  }

  lemma ReachesChild(f: Frame, p: Path, i: nat)
    requires p != [] && i < |f.children| && f.children[i].name == p[0]
    requires forall j :: 0 <= j < |f.children| && j != i ==> f.children[j].name != p[0]
    ensures Reaches(f, p) <==> Reaches(f.children[i], p[1..])
  {
  }

  /** The frames below are at the paths at which events open. */
  lemma {:induction false} ReachesOpened(events: seq<Event>, active: seq<Path>, gpu: seq<Interval>, f: Frame, q: Path, p: Path)
    requires OpenedDown(events) && FrameRight(f, q, events, active, gpu) && p != []
    ensures Reaches(f, p) <==> Openings(events, q + p) > 0
    decreases f
  {
    var child := q + [p[0]];
    ChildOpened(events, q, p);
    assert ChildrenRight(f.children, q, events);
    if NameIn(f.children, p[0]) {
      var i :| 0 <= i < |f.children| && f.children[i].name == p[0];
      ReachesChild(f, p, i);
      if p[1..] != [] {
        ReachesOpened(events, active, gpu, f.children[i], child, p[1..]);
      }
    }
  }

  lemma ChildOpened(events: seq<Event>, q: Path, p: Path)
    requires OpenedDown(events) && p != []
    ensures Openings(events, q + p) > 0 ==> Openings(events, q + [p[0]]) > 0
    ensures q + p == if p[1..] == [] then q + [p[0]] else q + [p[0]] + p[1..]
  {
    assert (q + p)[..|q| + 1] == q + [p[0]];
    assert q + [p[0]] + p[1..] == q + p;
  }

  ghost predicate AllReached(f: Frame, events: seq<Event>) {
    forall p :: Reaches(f, p) <==> p == [] || Openings(events, p) > 0
  }

  lemma RootReaches(tree: ShapedTree, events: seq<Event>, active: seq<Path>, gpu: seq<Interval>, f: Frame)
    requires Called(tree, events) && FrameRight(f, [], events, active, gpu)
    ensures AllReached(f, events)
  {
    TreeOpenedDown(tree, events);
    forall p ensures Reaches(f, p) <==> p == [] || Openings(events, p) > 0 {
      if p != [] {
        ReachesOpened(events, active, gpu, f, [], p);
        assert [] + p == p;
      }
    }
  }

  /** The result: the frame of the root, its own time moved to a child of its own, the longest child first. */
  ghost predicate Describes(root: Frame, events: seq<Event>, duration: nat, gpu: seq<Interval>) {
    exists plain: Frame ::
      && FrameRight(plain, [], events, Active(events, duration), gpu)
      && AllReached(plain, events) && plain.name == ROOT_NAME && GapAdded(plain, root)
  }

  /** A frame without calls or children that only holds some own time. */
  ghost predicate HoldsOwn(f: Frame, us: int, gpuUs: int) {
    && f.us == f.selfUs == us && f.gpuUs == f.selfGpuUs == gpuUs && f.gpuIdleUs == us - gpuUs
    && f.calls == 0 && f.children == []
  }

  ghost predicate GapAdded(plain: Frame, root: Frame) {
    && root == plain.(selfUs := 0, selfGpuUs := 0, children := root.children)
    && (exists gap ::
          HoldsOwn(gap, plain.selfUs, plain.selfGpuUs) && multiset(root.children) == multiset(plain.children + [gap]))
    && forall i, j :: 0 <= i < j < |root.children| ==> root.children[i].us >= root.children[j].us
  }

  lemma WithGapAdds(plain: Frame)
    ensures GapAdded(plain, WithGap(plain))
  {
    var children := WithGap(plain).children;
    assert HoldsOwn(Gap(plain.selfUs, plain.selfGpuUs), plain.selfUs, plain.selfGpuUs);
    forall i, j | 0 <= i < j < |children| ensures children[i].us >= children[j].us {
      assert KeyLe(LONGEST_FRAME_FIRST(children[i]), LONGEST_FRAME_FIRST(children[j]));
    }
  }

  /** Finish the tree. */
  method FinishRoot(events: seq<Event>, duration: nat, ghost gpu: seq<Interval>, tolerance: nat, tree: ShapedTree,
                    ghost clipped: seq<Event>)
    returns (r: Aggregated)
    requires TreeOk(tree, Active(clipped, duration), |clipped|, gpu) && Called(tree, clipped)
    requires Laminar(clipped) && ClipsAll(events, clipped, tolerance)
    ensures r.Aggregated? && Sound(r.root) && r.root.us == TotalSelf(r.root) == duration
    ensures TotalSelfGpu(r.root) == CoveredTicks(gpu, 0, duration)
    ensures Describes(r.root, clipped, duration, gpu)
  {
    LastingFewer(events);
    assert Shallow(tree, |events|);
    RootTimes(tree, Active(clipped, duration), gpu, |clipped|);
    TimedOwnTimes(tree, Active(clipped, duration), gpu);
    RootAccounts(tree, |events|, tolerance);
    var finished := Finish(tree, |events|, tolerance);
    if finished.Inconsistent? {
      return Rejected;
    }
    WithGapTotals(finished.frame);
    FrameAtRight(tree, clipped, Active(clipped, duration), gpu, |events|, [], ROOT_NAME);
    RootReaches(tree, clipped, Active(clipped, duration), gpu, finished.frame);
    WithGapAdds(finished.frame);
    r := Aggregated(WithGap(finished.frame));
  }

  /** `aggregate_intervals`: events are rejected exactly when one of them outlasts by more than the tolerance where it
      is cut, which takes two that cross by more than that; without tolerance any two that cross do.  The two later
      checks never reject.  The frames are the paths at which the cut events open, each once, with the time each path was
      active, on and off the GPU, and its calls.  The own times are sound, and add up to the duration exactly, GPU time
      included. */
  method AggregateIntervals(events: seq<Event>, duration: nat, gpuIntervals: seq<Interval>, tolerance: nat)
    returns (r: Aggregated, ghost gpu: seq<Interval>)
    requires Inside(events, duration)
    ensures !r.Rejected? && (r.Crossing? <==> SomeOverruns(SortBy(events, BY_NESTING), tolerance))
    ensures r.Crossing? ==> SomeCross(events, tolerance)
    ensures tolerance == 0 && SomeCross(events, 0) ==> r.Crossing?
    ensures forall t :: Covers(gpu, t) <==> Covers(gpuIntervals, t)
    ensures r.Aggregated? ==> Sound(r.root) && r.root.us == TotalSelf(r.root) == duration
    ensures r.Aggregated? ==> TotalSelfGpu(r.root) == CoveredTicks(gpu, 0, duration)
    ensures r.Aggregated? ==> ClipsAll(SortBy(events, BY_NESTING), Cuts(SortBy(events, BY_NESTING)), tolerance)
    ensures r.Aggregated? ==> Describes(r.root, Cuts(SortBy(events, BY_NESTING)), duration, gpu)
  {
    var sorted := SortBy(events, BY_NESTING);
    SameElements(sorted, events);
    var merged := MergeIntervals(gpuIntervals);
    gpu := merged;
    ghost var clipped;
    var ok, tree;
    ok, tree, clipped := ReadEvents(sorted, duration, merged, tolerance);
    if !ok {
      return Crossing, gpu;
    }
    if tolerance == 0 {
      NoCross(sorted, clipped);
    }
    r := FinishRoot(sorted, duration, merged, tolerance, tree, clipped);
  }
}
