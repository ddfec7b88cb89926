/** The runs a greedy decode feeds (`fed_nodes`, `decode_runs`, `decode_round_tokens`). */
module Decoding {
  import opened Common
  import opened Prompts
  import opened Sorting
  import opened LabelTries

  /** `fed_nodes`: the nodes read and their ancestors. */
  function FedNodes(read: set<Node>): (r: set<Node>)
    ensures forall q :: q in r <==> exists x :: x in read && q <= x
  {
    var r := set x, k | x in read && 0 <= k <= |x| :: x[..k];
    assert forall q, x :: x in read && q <= x ==> x[..|q|] == q;
    r
  }

  /** The nodes a run feeds: those below its start, down to where it stops. */
  ghost function Chain(start: nat, stop: Node): (r: set<Node>)
    requires start <= |stop|
    ensures forall q :: q in r <==> start < |q| && q <= stop
  {
    var r := set k | start < k <= |stop| :: stop[..k];
    assert forall q :: q <= stop ==> stop[..|q|] == q;
    r
  }

  lemma {:induction false} ChainSize(start: nat, stop: Node)
    requires start <= |stop|
    ensures |Chain(start, stop)| == |stop| - start
    decreases |stop|
  {
    if start == |stop| {
      assert Chain(start, stop) == {};
    } else {
      var up := stop[..|stop| - 1];
      ChainSize(start, up);
      assert stop == up + [stop[|stop| - 1]];
      forall q ensures q in Chain(start, stop) <==> q in Chain(start, up) || q == stop {
        PrefixAppend(q, up, stop[|stop| - 1]);
      }
      assert Chain(start, stop) == Chain(start, up) + {stop};
    }
  }

  /** Nodes other than the root that a choice node needs fed. */
  ghost predicate IsFed(trie: Trie, q: Node) {
    q != [] && q in FedNodes(ChoiceNodes(trie))
  }

  /** Whether a run already feeds q: the run from the root, or the run of the choice last made above it. */
  ghost predicate Covered(trie: Trie, done: set<Edge>, q: Node) {
    IsFed(trie, q) && (LastChoice(trie, q, |q|) == -1 || LastEdge(trie, q) in done)
  }

  ghost function CoveredNodes(trie: Trie, done: set<Edge>): set<Node> {
    set q | q in FedNodes(ChoiceNodes(trie)) && Covered(trie, done, q)
  }

  /** A fed node below `start`, with no choice in between, is on the way from `start` to a choice node. */
  lemma FedSegment(trie: Trie, depth: nat, start: Node, q: Node)
    requires Rooted(trie, depth) && IsFed(trie, q) && start <= q
    requires LastChoice(trie, q, |q|) < |start|
    ensures IsChoice(trie, Follow(trie, depth, start)) && q <= Follow(trie, depth, start)
  {
    var x :| x in ChoiceNodes(trie) && q <= x;
    forall k | |start| <= k < |q| ensures ForcedAt(trie, q, k) {
      assert StepAt(trie, x, k);
      assert x[..k] == q[..k] && x[k] == q[k];
    }
    FollowThrough(trie, depth, start, q);
    FollowStays(trie, depth, q, x);
  }

  /** Every node above a choice node is fed. */
  lemma AboveChoice(trie: Trie, q: Node, x: Node)
    requires IsChoice(trie, x) && q <= x && q != []
    ensures IsFed(trie, q)
  {
    assert x in ChoiceNodes(trie);
  }

  /** No choice is made since `start` on the way to q. */
  lemma NoChoiceSince(trie: Trie, start: Node, q: Node, r: Node)
    requires Forced(trie, r, |start|) && start <= q <= r
    ensures LastChoice(trie, q, |q|) == LastChoice(trie, start, |start|)
  {
    var c := LastChoice(trie, start, |start|);
    forall k | c < k < |q| ensures !ChoiceAt(trie, q, k) {
      if k >= |start| {
        assert ForcedAt(trie, r, k);
        assert q[..k] == r[..k];
      } else {
        assert !ChoiceAt(trie, start, k);
        assert q[..k] == start[..k];
      }
    }
    if c >= 0 {
      assert q[..c] == start[..c];
    }
    LastChoiceIs(trie, q, |q|, c);
  }

  ghost predicate FedAfter(trie: Trie, q: Node, e: Edge) {
    IsFed(trie, q) && LastChoice(trie, q, |q|) >= 0 && LastEdge(trie, q) == e
  }

  /** A choice's run feeds exactly the nodes whose last choice it is. */
  lemma EdgeFeeds(trie: Trie, depth: nat, e: Edge, q: Node)
    requires Rooted(trie, depth) && IsEdge(trie, e)
    ensures var r := Target(trie, depth, e);
      r in trie && q in Chain(|e.0|, r) <==> FedAfter(trie, q, e)
  {
    var start := e.0 + [e.1];
    var r := Target(trie, depth, e);
    if r in trie && q in Chain(|e.0|, r) {
      OnPath(start, q, r);
      AboveChoice(trie, q, r);
      FollowForced(trie, depth, start);
      NoChoiceSince(trie, start, q, r);
      LastOfEdge(trie, e);
      assert q[..|e.0|] == start[..|e.0|] && q[|e.0|] == start[|e.0|];
    }
    if FedAfter(trie, q, e) {
      assert q[..|start|] == start;
      FedSegment(trie, depth, start, q);
    }
  }

  lemma LastOfEdge(trie: Trie, e: Edge)
    requires IsEdge(trie, e)
    ensures LastChoice(trie, e.0 + [e.1], |e.0| + 1) == |e.0|
  {
    assert (e.0 + [e.1])[..|e.0|] == e.0;
    assert ChoiceAt(trie, e.0 + [e.1], |e.0|);
  }

  ghost function FedBelow(trie: Trie, depth: nat, e: Edge): set<Node>
    requires Rooted(trie, depth)
  {
    if Target(trie, depth, e) in trie then Chain(|e.0|, Target(trie, depth, e)) else {}
  }

  /** The nodes newly covered by a choice's run are exactly those the run feeds. */
  lemma CoverEdge(trie: Trie, depth: nat, done: set<Edge>, e: Edge)
    requires Rooted(trie, depth) && IsEdge(trie, e) && e !in done
    ensures CoveredNodes(trie, done + {e}) == CoveredNodes(trie, done) + FedBelow(trie, depth, e)
    ensures CoveredNodes(trie, done) !! FedBelow(trie, depth, e)
  {
    forall q ensures q in FedBelow(trie, depth, e) <==> FedAfter(trie, q, e) {
      EdgeFeeds(trie, depth, e, q);
    }
    forall q ensures Covered(trie, done + {e}, q) <==> Covered(trie, done, q) || FedAfter(trie, q, e) {
    }
    forall q ensures !(Covered(trie, done, q) && FedAfter(trie, q, e)) {
    }
  }

  lemma OnPath(start: Node, q: Node, r: Node)
    requires start <= r && q <= r && |start| <= |q|
    ensures start <= q
  {
    assert r[..|start|] == start && q[..|start|] == start;
  }

  /** Before any choice, the nodes covered are those the run from the root feeds. */
  lemma CoverRoot(trie: Trie, depth: nat)
    requires Rooted(trie, depth)
    ensures var r := Follow(trie, depth, []);
      CoveredNodes(trie, {}) == if r in trie then Chain(0, r) else {}
  {
    var r := Follow(trie, depth, []);
    forall q | Covered(trie, {}, q) ensures r in trie && q in Chain(0, r) {
      FedSegment(trie, depth, [], q);
    }
    if r in trie {
      forall q | q in Chain(0, r) ensures Covered(trie, {}, q) {
        AboveChoice(trie, q, r);
        FollowForced(trie, depth, []);
        NoChoiceSince(trie, [], q, r);
      }
    }
  }

  /** Where a choice leads, and the run that feeds the way there, unless it ends a label. */
  datatype Hop = Hop(target: Node, run: Option<nat>)

  datatype DecodeRuns = DecodeRuns(runs: seq<Node>, first: Node, after: map<Edge, Hop>, rounds: nat)

  /** How often each node is fed when run i starts below bases[i]. */
  ghost function FedBy(bases: seq<Node>, runs: seq<Node>): multiset<Node>
    requires |bases| == |runs|
  {
    if runs == [] then
      multiset{}
    else
      var n := |runs| - 1;
      FedBy(bases[..n], runs[..n]) + multiset(Chain(|bases[n]|, bases[n] + runs[n]))
  }

  lemma FedByAppend(bases: seq<Node>, runs: seq<Node>, base: Node, run: Node)
    requires |bases| == |runs|
    ensures FedBy(bases + [base], runs + [run]) == FedBy(bases, runs) + multiset(Chain(|base|, base + run))
  {
    assert (bases + [base])[..|runs|] == bases && (runs + [run])[..|runs|] == runs;
  }

  function TotalLength(runs: seq<Node>): nat {
    if runs == [] then 0 else TotalLength(runs[..|runs| - 1]) + |runs[|runs| - 1]|
  }

  lemma {:induction false} FedBySize(bases: seq<Node>, runs: seq<Node>)
    requires |bases| == |runs|
    ensures |FedBy(bases, runs)| == TotalLength(runs)
  {
    if runs != [] {
      var n := |runs| - 1;
      FedBySize(bases[..n], runs[..n]);
      ChainSize(|bases[n]|, bases[n] + runs[n]);
    }
  }

  ghost predicate HopOk(trie: Trie, depth: nat, runs: seq<Node>, e: Edge, hop: Hop)
    requires Rooted(trie, depth)
  {
    && hop.target == Target(trie, depth, e)
    && (hop.run.Some? <==> hop.target in trie)
    && (hop.run.Some? ==> hop.run.value < |runs| && runs[hop.run.value] == hop.target[|e.0|..])
  }

  /** The runs and hops of the choices in `done`. */
  ghost predicate RunsTo(trie: Trie, depth: nat, done: set<Edge>, bases: seq<Node>, runs: seq<Node>, after: map<Edge, Hop>)
    requires Rooted(trie, depth)
  {
    && HopsTo(trie, depth, done, runs, after)
    && |bases| == |runs| && FedBy(bases, runs) == multiset(CoveredNodes(trie, done))
  }

  ghost predicate HopsTo(trie: Trie, depth: nat, done: set<Edge>, runs: seq<Node>, after: map<Edge, Hop>)
    requires Rooted(trie, depth)
  {
    && after.Keys == done
    && (forall e :: e in done ==> IsEdge(trie, e) && HopOk(trie, depth, runs, e, after[e]))
    && runs != []
    && runs[0] == (if Follow(trie, depth, []) in trie then Follow(trie, depth, []) else [])
  }

  lemma RunsStart(trie: Trie, depth: nat, run: Node)
    requires Rooted(trie, depth)
    requires run == if Follow(trie, depth, []) in trie then Follow(trie, depth, []) else []
    ensures RunsTo(trie, depth, {}, [[]], [run], map[])
  {
    CoverRoot(trie, depth);
    FedByOne(run);
  }

  lemma FedByOne(run: Node)
    ensures FedBy([[]], [run]) == multiset(Chain(0, run))
    ensures run == [] ==> Chain(0, run) == {}
  {
    var root: Node := [];
    assert root + run == run;
    assert [root][..0] == [] && [run][..0] == [];
    assert FedBy([root][..0], [run][..0]) == multiset{};
  }

  /** A choice that goes on adds the run that feeds the way to its target. */
  lemma RunsOn(trie: Trie, depth: nat, done: set<Edge>, bases: seq<Node>, runs: seq<Node>, after: map<Edge, Hop>, e: Edge)
    requires Rooted(trie, depth) && RunsTo(trie, depth, done, bases, runs, after) && IsEdge(trie, e) && e !in done
    requires Target(trie, depth, e) in trie
    ensures var r := Target(trie, depth, e);
      RunsTo(trie, depth, done + {e}, bases + [e.0], runs + [r[|e.0|..]], after[e := Hop(r, Some(|runs|))])
  {
    FedOn(trie, depth, done, bases, runs, e);
    HopsOn(trie, depth, done, runs, after, e);
  }

  lemma HopsOn(trie: Trie, depth: nat, done: set<Edge>, runs: seq<Node>, after: map<Edge, Hop>, e: Edge)
    requires Rooted(trie, depth) && HopsTo(trie, depth, done, runs, after) && IsEdge(trie, e) && e !in done
    requires Target(trie, depth, e) in trie
    ensures var r := Target(trie, depth, e);
      HopsTo(trie, depth, done + {e}, runs + [r[|e.0|..]], after[e := Hop(r, Some(|runs|))])
  {
    var run := Target(trie, depth, e)[|e.0|..];
    forall d | d in done ensures HopOk(trie, depth, runs + [run], d, after[d]) {
      HopKept(trie, depth, runs, run, d, after[d]);
    }
    assert (runs + [run])[0] == runs[0];
  }

  lemma HopKept(trie: Trie, depth: nat, runs: seq<Node>, run: Node, d: Edge, hop: Hop)
    requires Rooted(trie, depth) && HopOk(trie, depth, runs, d, hop)
    ensures HopOk(trie, depth, runs + [run], d, hop)
  {
  }

  lemma FedOn(trie: Trie, depth: nat, done: set<Edge>, bases: seq<Node>, runs: seq<Node>, e: Edge)
    requires Rooted(trie, depth) && IsEdge(trie, e) && e !in done && Target(trie, depth, e) in trie
    requires |bases| == |runs| && FedBy(bases, runs) == multiset(CoveredNodes(trie, done))
    ensures FedBy(bases + [e.0], runs + [Target(trie, depth, e)[|e.0|..]]) == multiset(CoveredNodes(trie, done + {e}))
  {
    var r := Target(trie, depth, e);
    CoverEdge(trie, depth, done, e);
    FedByAppend(bases, runs, e.0, r[|e.0|..]);
    assert r[..|e.0|] == (e.0 + [e.1])[..|e.0|] == e.0;
    assert e.0 + r[|e.0|..] == r;
    MultisetUnion(CoveredNodes(trie, done), Chain(|e.0|, r));
  }

  lemma MultisetUnion<T>(a: set<T>, b: set<T>)
    requires a !! b
    ensures multiset(a + b) == multiset(a) + multiset(b)
  {
  }

  /** A choice that ends a label adds no run. */
  lemma RunsEnd(trie: Trie, depth: nat, done: set<Edge>, bases: seq<Node>, runs: seq<Node>, after: map<Edge, Hop>, e: Edge)
    requires Rooted(trie, depth) && RunsTo(trie, depth, done, bases, runs, after) && IsEdge(trie, e) && e !in done
    requires Target(trie, depth, e) !in trie
    ensures RunsTo(trie, depth, done + {e}, bases, runs, after[e := Hop(Target(trie, depth, e), None)])
  {
    CoverEdge(trie, depth, done, e);
    assert CoveredNodes(trie, done + {e}) == CoveredNodes(trie, done);
  }

  /** Choice nodes above depth n on the path to x. */
  ghost function ChoicesAbove(trie: Trie, x: Node, n: nat): nat
    requires n <= |x| + 1
  {
    if n == 0 then 0 else ChoicesAbove(trie, x, n - 1) + (if ChoiceAt(trie, x, n - 1) then 1 else 0)
  }

  /** Requests a decode needs to reach x: one for every choice node on the way, and at least one. */
  ghost function Rounds(trie: Trie, x: Node): nat {
    Max(1, ChoicesAbove(trie, x, |x| + 1))
  }

  lemma {:induction false} ChoicesPrefix(trie: Trie, p: Node, x: Node, n: nat)
    requires p <= x && n <= |p| + 1
    ensures ChoicesAbove(trie, x, n) == ChoicesAbove(trie, p, n)
  {
    if n > 0 {
      ChoicesPrefix(trie, p, x, n - 1);
      assert x[..n - 1] == p[..n - 1];
    }
  }

  lemma {:induction false} ChoicesForced(trie: Trie, x: Node, lo: nat, n: nat)
    requires Forced(trie, x, lo) && lo <= n <= |x|
    ensures ChoicesAbove(trie, x, n) == ChoicesAbove(trie, x, lo)
  {
    if n > lo {
      ChoicesForced(trie, x, lo, n - 1);
      assert ForcedAt(trie, x, n - 1);
    }
  }

  /** The target of a choice needs one more request, unless it ends a label. */
  lemma RoundsNext(trie: Trie, depth: nat, e: Edge)
    requires Rooted(trie, depth) && IsEdge(trie, e)
    ensures var r := Target(trie, depth, e);
      Rounds(trie, r) == Rounds(trie, e.0) + (if r in trie then 1 else 0)
  {
    var start := e.0 + [e.1];
    var r := Target(trie, depth, e);
    FollowForced(trie, depth, start);
    assert r[..|e.0|] == start[..|e.0|] == e.0;
    ChoicesPrefix(trie, e.0, r, |start|);
    ChoicesForced(trie, r, |start|, |r|);
    assert r[..|r|] == r && e.0[..|e.0|] == e.0;
    assert ChoiceAt(trie, e.0, |e.0|);
  }

  lemma RoundsFirst(trie: Trie, depth: nat)
    requires Rooted(trie, depth)
    ensures Rounds(trie, Follow(trie, depth, [])) == 1
  {
    var r := Follow(trie, depth, []);
    FollowForced(trie, depth, []);
    ChoicesForced(trie, r, 0, |r|);
  }

  /** The stops reached by the choices in `done`, with the requests each needs. */
  ghost predicate ReadsTo(trie: Trie, depth: nat, done: set<Edge>, needs: map<Node, nat>)
    requires Rooted(trie, depth)
  {
    && Follow(trie, depth, []) in needs
    && (forall e :: e in done ==> Target(trie, depth, e) in needs)
    && (forall x :: x in needs ==> IsStop(trie, x) && needs[x] == Rounds(trie, x))
  }

  lemma ReadsStart(trie: Trie, depth: nat)
    requires Rooted(trie, depth)
    ensures ReadsTo(trie, depth, {}, map[Follow(trie, depth, []) := 1])
  {
    TargetStops(trie, depth, []);
    RoundsFirst(trie, depth);
  }

  lemma ReadsNext(trie: Trie, depth: nat, done: set<Edge>, needs: map<Node, nat>, e: Edge)
    requires Rooted(trie, depth) && ReadsTo(trie, depth, done, needs) && IsEdge(trie, e) && e.0 in needs
    ensures var r := Target(trie, depth, e);
      ReadsTo(trie, depth, done + {e}, needs[r := needs[e.0] + (if r in trie then 1 else 0)])
  {
    var start := e.0 + [e.1];
    ChildIsNode(trie, e.0, e.1);
    TargetStops(trie, depth, start);
    RoundsNext(trie, depth, e);
  }

  /** When every choice above x is done, x has been reached. */
  lemma StopRead(trie: Trie, depth: nat, done: set<Edge>, needs: map<Node, nat>, x: Node)
    requires Rooted(trie, depth) && ReadsTo(trie, depth, done, needs) && IsStop(trie, x)
    requires forall e :: IsEdge(trie, e) && |e.0| < |x| ==> e in done
    ensures x in needs
  {
    if LastChoice(trie, x, |x|) == -1 {
      StopFromRoot(trie, depth, x);
    } else {
      StopFromChoice(trie, depth, x);
    }
  }

  /** What `decode_runs` returns. */
  ghost predicate IsDecode(trie: Trie, depth: nat, bases: seq<Node>, d: DecodeRuns)
    requires Rooted(trie, depth)
  {
    && d.first == Follow(trie, depth, [])
    && (forall e :: e in d.after <==> IsEdge(trie, e))
    && RunsTo(trie, depth, d.after.Keys, bases, d.runs, d.after)
    && (forall x :: IsLeaf(trie, x) ==> Rounds(trie, x) <= d.rounds)
    && exists x :: IsLeaf(trie, x) && Rounds(trie, x) == d.rounds
  }

  /** Every fed node hangs below a choice node that starts a run, the root aside. */
  lemma FedCovered(trie: Trie, depth: nat, bases: seq<Node>, d: DecodeRuns)
    requires Rooted(trie, depth) && IsDecode(trie, depth, bases, d)
    ensures CoveredNodes(trie, d.after.Keys) == FedNodes(ChoiceNodes(trie)) - {[]}
  {
    forall q | IsFed(trie, q) ensures Covered(trie, d.after.Keys, q) {
      if LastChoice(trie, q, |q|) >= 0 {
        var x :| x in ChoiceNodes(trie) && q <= x;
        var k := LastChoice(trie, q, |q|);
        assert StepAt(trie, x, k);
        assert x[..k] == q[..k] && x[k] == q[k];
        assert IsEdge(trie, LastEdge(trie, q));
      }
    }
  }

  /** The runs feed every ancestor-or-self of a choice node, the root aside, and each exactly once. */
  lemma FedExactlyOnce(trie: Trie, depth: nat, bases: seq<Node>, d: DecodeRuns)
    requires Rooted(trie, depth) && IsDecode(trie, depth, bases, d)
    ensures FedBy(bases, d.runs) == multiset(FedNodes(ChoiceNodes(trie)) - {[]})
    ensures TotalLength(d.runs) == if ChoiceNodes(trie) == {} then 0 else |FedNodes(ChoiceNodes(trie))| - 1
  {
    FedCovered(trie, depth, bases, d);
    FedBySize(bases, d.runs);
    if ChoiceNodes(trie) == {} {
      assert FedNodes(ChoiceNodes(trie)) == {};
    } else {
      var x :| x in ChoiceNodes(trie);
      assert [] <= x;
      assert [] in FedNodes(ChoiceNodes(trie));
    }
  }

  /** A choice function picks a child at every choice node. */
  ghost predicate Chooses(trie: Trie, choose: Node -> Token) {
    forall p :: IsChoice(trie, p) ==> choose(p) in trie[p]
  }

  /** Token-by-token greedy descent. */
  ghost function Descend(trie: Trie, depth: nat, choose: Node -> Token, node: Node): Node
    requires Rooted(trie, depth)
    decreases depth - |node|
  {
    if node in trie then
      Descend(trie, depth, choose, node + [if IsChoice(trie, node) then choose(node) else trie[node][0]])
    else
      node
  }

  /** A descent follows the forced tokens. */
  lemma {:induction false} DescendFollow(trie: Trie, depth: nat, choose: Node -> Token, node: Node)
    requires Rooted(trie, depth)
    ensures Descend(trie, depth, choose, node) == Descend(trie, depth, choose, Follow(trie, depth, node))
    decreases depth - |node|
  {
    if node in trie && |trie[node]| == 1 {
      DescendFollow(trie, depth, choose, node + [trie[node][0]]);
    }
  }

  lemma {:induction false} DescendLeaf(trie: Trie, depth: nat, choose: Node -> Token, node: Node)
    requires Rooted(trie, depth) && Chooses(trie, choose)
    requires IsNode(trie, node)
    ensures IsLeaf(trie, Descend(trie, depth, choose, node))
    decreases depth - |node|
  {
    if node in trie {
      var t := if IsChoice(trie, node) then choose(node) else trie[node][0];
      assert Child(trie, node, t);
      ChildIsNode(trie, node, t);
      DescendLeaf(trie, depth, choose, node + [t]);
    }
  }

  /** Following `after` from a node. */
  ghost function Walk(trie: Trie, depth: nat, bases: seq<Node>, d: DecodeRuns, choose: Node -> Token, node: Node): Node
    requires Rooted(trie, depth) && IsDecode(trie, depth, bases, d) && Chooses(trie, choose) && IsStop(trie, node)
    decreases depth - |node|
  {
    if node in trie then
      var e := (node, choose(node));
      assert IsEdge(trie, e) && HopOk(trie, depth, d.runs, e, d.after[e]);
      ChildIsNode(trie, node, choose(node));
      TargetStops(trie, depth, node + [choose(node)]);
      Walk(trie, depth, bases, d, choose, d.after[e].target)
    else
      node
  }

  /** The runs after a node, in the order a decode sends them. */
  ghost function WalkRuns(trie: Trie, depth: nat, bases: seq<Node>, d: DecodeRuns, choose: Node -> Token, node: Node)
    : seq<Node>
    requires Rooted(trie, depth) && IsDecode(trie, depth, bases, d) && Chooses(trie, choose) && IsStop(trie, node)
    decreases depth - |node|
  {
    if node in trie then
      var e := (node, choose(node));
      assert IsEdge(trie, e) && HopOk(trie, depth, d.runs, e, d.after[e]);
      ChildIsNode(trie, node, choose(node));
      TargetStops(trie, depth, node + [choose(node)]);
      var hop := d.after[e];
      (if hop.run.Some? then [d.runs[hop.run.value]] else []) + WalkRuns(trie, depth, bases, d, choose, hop.target)
    else
      []
  }

  /** Following `after` reaches the label that token-by-token descent reaches, for every choice function. */
  lemma {:induction false} WalkIsDescent(trie: Trie, depth: nat, bases: seq<Node>, d: DecodeRuns,
                                         choose: Node -> Token, node: Node)
    requires Rooted(trie, depth) && IsDecode(trie, depth, bases, d) && Chooses(trie, choose) && IsStop(trie, node)
    ensures Walk(trie, depth, bases, d, choose, node) == Descend(trie, depth, choose, node)
    decreases depth - |node|
  {
    if node in trie {
      var e := (node, choose(node));
      assert IsEdge(trie, e) && HopOk(trie, depth, d.runs, e, d.after[e]);
      ChildIsNode(trie, node, choose(node));
      TargetStops(trie, depth, node + [choose(node)]);
      DescendFollow(trie, depth, choose, node + [choose(node)]);
      WalkIsDescent(trie, depth, bases, d, choose, d.after[e].target);
    }
  }

  /** The path to a label, as far as its last choice. */
  ghost function Decided(trie: Trie, x: Node): Node {
    var k := LastChoice(trie, x, |x|);
    if k == -1 then [] else x[..k]
  }

  function Concat(runs: seq<Node>): Node {
    if runs == [] then [] else runs[0] + Concat(runs[1..])
  }

  lemma ConcatCons(run: Node, runs: seq<Node>)
    ensures Concat([run] + runs) == run + Concat(runs)
  {
    assert ([run] + runs)[1..] == runs;
  }

  /** One hop of a walk. */
  lemma WalkHop(trie: Trie, depth: nat, bases: seq<Node>, d: DecodeRuns, choose: Node -> Token, node: Node)
    returns (r: Node)
    requires Rooted(trie, depth) && IsDecode(trie, depth, bases, d) && Chooses(trie, choose) && IsChoice(trie, node)
    ensures IsStop(trie, r) && |node| < |r| && (r in trie ==> |r| < depth)
    ensures Walk(trie, depth, bases, d, choose, node) == Walk(trie, depth, bases, d, choose, r)
    ensures WalkRuns(trie, depth, bases, d, choose, node)
      == (if r in trie then [r[|node|..]] else []) + WalkRuns(trie, depth, bases, d, choose, r)
    ensures Rounds(trie, r) == Rounds(trie, node) + (if r in trie then 1 else 0)
    ensures node + r[|node|..] == r && (r !in trie ==> Decided(trie, r) == node)
  {
    var e := (node, choose(node));
    assert IsEdge(trie, e) && HopOk(trie, depth, d.runs, e, d.after[e]);
    ChildIsNode(trie, node, choose(node));
    TargetStops(trie, depth, node + [choose(node)]);
    RoundsNext(trie, depth, e);
    TargetBelow(trie, depth, e);
    EndsAt(trie, depth, e);
    r := d.after[e].target;
  }

  /** From a choice node, the runs spell out the rest of the path to the label's last choice, and
      there is one for each request still needed. */
  lemma {:induction false} WalkSpells(trie: Trie, depth: nat, bases: seq<Node>, d: DecodeRuns,
                                      choose: Node -> Token, node: Node)
    requires Rooted(trie, depth) && IsDecode(trie, depth, bases, d) && Chooses(trie, choose) && IsChoice(trie, node)
    ensures var x := Walk(trie, depth, bases, d, choose, node);
      var runs := WalkRuns(trie, depth, bases, d, choose, node);
      node + Concat(runs) == Decided(trie, x) && Rounds(trie, x) == Rounds(trie, node) + |runs|
    decreases depth - |node|
  {
    var r := WalkHop(trie, depth, bases, d, choose, node);
    var rest := WalkRuns(trie, depth, bases, d, choose, r);
    if r in trie {
      WalkSpells(trie, depth, bases, d, choose, r);
      ConcatCons(r[|node|..], rest);
      Regroup(node, r[|node|..], Concat(rest));
    } else {
      assert rest == [] && Concat([]) == [];
    }
  }

  lemma Regroup(a: Node, b: Node, c: Node)
    ensures a + (b + c) == (a + b) + c
  {
  }

  lemma TargetBelow(trie: Trie, depth: nat, e: Edge)
    requires Rooted(trie, depth)
    ensures |e.0| < |Target(trie, depth, e)| && e.0 <= Target(trie, depth, e)
    ensures e.0 + Target(trie, depth, e)[|e.0|..] == Target(trie, depth, e)
  {
    var r := Target(trie, depth, e);
    assert r[..|e.0|] == (e.0 + [e.1])[..|e.0|] == e.0;
  }

  /** A choice that ends a label is the last one on the label's path. */
  lemma EndsAt(trie: Trie, depth: nat, e: Edge)
    requires Rooted(trie, depth) && IsEdge(trie, e)
    ensures Decided(trie, Target(trie, depth, e)) == e.0
    ensures LastChoice(trie, Target(trie, depth, e), |Target(trie, depth, e)|) == |e.0|
  {
    var start := e.0 + [e.1];
    var r := Target(trie, depth, e);
    TargetBelow(trie, depth, e);
    FollowForced(trie, depth, start);
    NoChoiceSince(trie, start, r, r);
    LastOfEdge(trie, e);
  }

  /** The decode that any choice function drives ends at the label of the descent, and the runs it
      sends spell out that label's path up to its last choice, one request each. */
  lemma DecodeIsDescent(trie: Trie, depth: nat, bases: seq<Node>, d: DecodeRuns, choose: Node -> Token)
    requires Rooted(trie, depth) && IsDecode(trie, depth, bases, d) && Chooses(trie, choose)
    ensures IsStop(trie, d.first)
    ensures var x := Walk(trie, depth, bases, d, choose, d.first);
      var runs := [d.runs[0]] + WalkRuns(trie, depth, bases, d, choose, d.first);
      && x == Descend(trie, depth, choose, [])
      && Concat(runs) == Decided(trie, x)
      && |runs| == Rounds(trie, x) <= d.rounds
  {
    TargetStops(trie, depth, []);
    DescendFollow(trie, depth, choose, []);
    WalkIsDescent(trie, depth, bases, d, choose, d.first);
    DescendLeaf(trie, depth, choose, []);
    RoundsFirst(trie, depth);
    ConcatCons(d.runs[0], WalkRuns(trie, depth, bases, d, choose, d.first));
    if d.first in trie {
      WalkSpells(trie, depth, bases, d, choose, d.first);
    } else {
      FollowForced(trie, depth, []);
      NoChoiceSince(trie, [], d.first, d.first);
    }
  }

  method FollowForcedTokens(trie: Trie, choices: set<Node>, ghost depth: nat, start: Node) returns (node: Node)
    requires Rooted(trie, depth) && choices == ChoiceNodes(trie)
    ensures node == Follow(trie, depth, start)
  {
    node := start;
    while node in trie && node !in choices
      invariant Follow(trie, depth, node) == Follow(trie, depth, start)
      decreases depth - |node|
    {
      node := node + [trie[node][0]];
    }
  }

  /** The choices in `done` are recorded. */
  ghost predicate Recorded(trie: Trie, depth: nat, done: set<Edge>, bases: seq<Node>, runs: seq<Node>,
                           after: map<Edge, Hop>, needs: map<Node, nat>)
    requires Rooted(trie, depth)
  {
    RunsTo(trie, depth, done, bases, runs, after) && ReadsTo(trie, depth, done, needs)
  }

  lemma RecordedOn(trie: Trie, depth: nat, done: set<Edge>, bases: seq<Node>, runs: seq<Node>, after: map<Edge, Hop>,
                   needs: map<Node, nat>, e: Edge, r: Node, more: map<Node, nat>)
    requires Rooted(trie, depth) && Recorded(trie, depth, done, bases, runs, after, needs)
    requires IsEdge(trie, e) && e !in done && e.0 in needs
    requires r == Target(trie, depth, e) && more == needs[r := needs[e.0] + (if r in trie then 1 else 0)]
    ensures e.0 <= r
    ensures r in trie ==>
      Recorded(trie, depth, done + {e}, bases + [e.0], runs + [r[|e.0|..]], after[e := Hop(r, Some(|runs|))], more)
    ensures r !in trie ==> Recorded(trie, depth, done + {e}, bases, runs, after[e := Hop(r, None)], more)
  {
    TargetBelow(trie, depth, e);
    ReadsNext(trie, depth, done, needs, e);
    if Target(trie, depth, e) in trie {
      RunsOn(trie, depth, done, bases, runs, after, e);
    } else {
      RunsEnd(trie, depth, done, bases, runs, after, e);
    }
  }

  /** Record where one choice leads. */
  method RecordHop(trie: Trie, choices: set<Node>, ghost depth: nat, ghost done: set<Edge>, ghost bases: seq<Node>,
                   runs: seq<Node>, after: map<Edge, Hop>, needs: map<Node, nat>, node: Node, token: Token)
    returns (ghost bases': seq<Node>, runs': seq<Node>, after': map<Edge, Hop>, needs': map<Node, nat>)
    requires Rooted(trie, depth) && choices == ChoiceNodes(trie)
    requires Recorded(trie, depth, done, bases, runs, after, needs)
    requires IsEdge(trie, (node, token)) && (node, token) !in done && node in needs
    ensures Recorded(trie, depth, done + {(node, token)}, bases', runs', after', needs')
    ensures needs.Keys <= needs'.Keys
  {
    var target := FollowForcedTokens(trie, choices, depth, node + [token]);
    needs' := needs[target := needs[node] + (if target in trie then 1 else 0)];
    RecordedOn(trie, depth, done, bases, runs, after, needs, (node, token), target, needs');
    if target !in trie {
      return bases, runs, after[(node, token) := Hop(target, None)], needs';
    }
    runs' := runs + [target[|node|..]];
    var last: nat := |runs'| - 1;
    assert last == |runs|;
    return bases + [node], runs', after[(node, token) := Hop(target, Some(last))], needs';
  }

  /** The edges of a choice node for its first n tokens. */
  ghost function EdgesOf(node: Node, tokens: seq<Token>): set<Edge> {
    set t | t in tokens :: (node, t)
  }

  /** Record a node's choice i, after the choices before it. */
  method RecordToken(trie: Trie, choices: set<Node>, ghost depth: nat, ghost done: set<Edge>, ghost bases: seq<Node>,
                     runs: seq<Node>, after: map<Edge, Hop>, needs: map<Node, nat>, node: Node, i: nat)
    returns (ghost bases': seq<Node>, runs': seq<Node>, after': map<Edge, Hop>, needs': map<Node, nat>)
    requires Rooted(trie, depth) && choices == ChoiceNodes(trie) && node in choices && i < |trie[node]|
    requires Recorded(trie, depth, done + EdgesOf(node, trie[node][..i]), bases, runs, after, needs)
    requires node in needs && forall t :: (node, t) !in done
    ensures Recorded(trie, depth, done + EdgesOf(node, trie[node][..i + 1]), bases', runs', after', needs')
    ensures node in needs'
  {
    MoreEdges(node, trie[node], i, done);
    assert IsEdge(trie, (node, trie[node][i]));
    bases', runs', after', needs' := RecordHop(trie, choices, depth, done + EdgesOf(node, trie[node][..i]), bases, runs,
                                               after, needs, node, trie[node][i]);
  }

  /** Record every choice of a node. */
  method RecordHops(trie: Trie, choices: set<Node>, ghost depth: nat, ghost done: set<Edge>, ghost bases: seq<Node>,
                    runs: seq<Node>, after: map<Edge, Hop>, needs: map<Node, nat>, node: Node)
    returns (ghost bases': seq<Node>, runs': seq<Node>, after': map<Edge, Hop>, needs': map<Node, nat>)
    requires Rooted(trie, depth) && choices == ChoiceNodes(trie) && node in choices
    requires Recorded(trie, depth, done, bases, runs, after, needs)
    requires node in needs && forall t :: (node, t) !in done
    ensures Recorded(trie, depth, done + EdgesOf(node, trie[node]), bases', runs', after', needs')
  {
    bases', runs', after', needs' := bases, runs, after, needs;
    assert done + EdgesOf(node, trie[node][..0]) == done;
    for i := 0 to |trie[node]|
      invariant Recorded(trie, depth, done + EdgesOf(node, trie[node][..i]), bases', runs', after', needs')
      invariant node in needs'
    {
      bases', runs', after', needs' := RecordToken(trie, choices, depth, done, bases', runs', after', needs', node, i);
    }
    assert trie[node][..|trie[node]|] == trie[node];
  }

  lemma MoreEdges(node: Node, tokens: seq<Token>, i: nat, done: set<Edge>)
    requires i < |tokens| && Increasing(tokens) && forall t :: (node, t) !in done
    ensures done + EdgesOf(node, tokens[..i + 1]) == done + EdgesOf(node, tokens[..i]) + {(node, tokens[i])}
    ensures (node, tokens[i]) !in done + EdgesOf(node, tokens[..i])
  {
    assert tokens[..i + 1] == tokens[..i] + [tokens[i]];
    assert tokens[i] !in tokens[..i];
    forall t ensures t in tokens[..i + 1] <==> t in tokens[..i] || t == tokens[i] {
    }
  }

  predicate Shortest(node: Node, nodes: set<Node>) {
    node in nodes && forall m :: m in nodes ==> |node| <= |m|
  }

  /** The next of the choice nodes sorted by length. */
  method NextShortest(nodes: set<Node>) returns (node: Node)
    requires nodes != {}
    ensures Shortest(node, nodes)
  {
    node := Any(nodes);
    var rest := nodes;
    while rest != {}
      invariant rest <= nodes && node in nodes && forall m :: m in nodes - rest ==> |node| <= |m|
      decreases |rest|
    {
      var m :| m in rest;
      rest := rest - {m};
      if |m| < |node| {
        node := m;
      }
    }
  }

  /** Every choice node but those in `remaining` has been recorded, and shorter ones first. */
  ghost predicate RecordedBut(trie: Trie, remaining: set<Node>, done: set<Edge>) {
    forall e :: e in done <==> IsEdge(trie, e) && e.0 !in remaining
  }

  /** A shortest remaining choice node has been reached. */
  lemma ShortestRead(trie: Trie, depth: nat, remaining: set<Node>, done: set<Edge>, needs: map<Node, nat>, node: Node)
    requires Rooted(trie, depth) && ReadsTo(trie, depth, done, needs) && RecordedBut(trie, remaining, done)
    requires Shortest(node, remaining) && IsChoice(trie, node)
    ensures node in needs
  {
    StopRead(trie, depth, done, needs, node);
  }

  lemma RecordNode(trie: Trie, remaining: set<Node>, done: set<Edge>, node: Node)
    requires RecordedBut(trie, remaining, done) && node in remaining && IsChoice(trie, node)
    ensures RecordedBut(trie, remaining - {node}, done + EdgesOf(node, trie[node]))
    ensures forall t :: (node, t) !in done
  {
    forall e ensures e in EdgesOf(node, trie[node]) <==> IsEdge(trie, e) && e.0 == node {
      assert e == (e.0, e.1);
    }
  }

  /** The most requests any label needs. */
  method MostRounds(trie: Trie, needs: map<Node, nat>) returns (rounds: nat)
    requires exists x :: x in needs && x !in trie
    ensures forall x :: x in needs && x !in trie ==> needs[x] <= rounds
    ensures exists x :: x in needs && x !in trie && needs[x] == rounds
  {
    var leaves := set x | x in needs && x !in trie;
    ghost var some :| some in needs && some !in trie;
    assert some in leaves;
    var best := Any(leaves);
    rounds := needs[best];
    var rest := leaves;
    while rest != {}
      invariant rest <= leaves && best in leaves && rounds == needs[best]
      invariant forall x :: x in leaves - rest ==> needs[x] <= rounds
      decreases |rest|
    {
      var x :| x in rest;
      rest := rest - {x};
      if needs[x] > rounds {
        best, rounds := x, needs[x];
      }
    }
  }

  /** Every label's end has been reached once every choice is recorded. */
  lemma LeavesRead(trie: Trie, depth: nat, done: set<Edge>, needs: map<Node, nat>)
    requires Rooted(trie, depth) && ReadsTo(trie, depth, done, needs) && RecordedBut(trie, {}, done)
    ensures forall x :: IsLeaf(trie, x) ==> x in needs
    ensures exists x :: x in needs && x !in trie
  {
    forall x | IsLeaf(trie, x) ensures x in needs {
      StopRead(trie, depth, done, needs, x);
    }
    var choose := (p: Node) => if p in trie && |trie[p]| > 0 then trie[p][0] else 0;
    DescendLeaf(trie, depth, choose, []);
    var x := Descend(trie, depth, choose, []);
    assert x in needs && x !in trie;
  }

  lemma RecordedStart(trie: Trie, depth: nat, first: Node)
    requires Rooted(trie, depth) && first == Follow(trie, depth, [])
    ensures Recorded(trie, depth, {}, [[]], [if first in trie then first else []], map[], map[first := 1])
    ensures RecordedBut(trie, ChoiceNodes(trie), {})
  {
    RunsStart(trie, depth, if first in trie then first else []);
    ReadsStart(trie, depth);
  }

  /** Record every choice node, from the shortest on; each has been reached by then. */
  method RecordAll(nodes: Trie, choices: set<Node>, ghost depth: nat, first: Node)
    returns (ghost bases: seq<Node>, runs: seq<Node>, after: map<Edge, Hop>, needs: map<Node, nat>)
    requires Rooted(nodes, depth) && choices == ChoiceNodes(nodes) && first == Follow(nodes, depth, [])
    ensures Recorded(nodes, depth, after.Keys, bases, runs, after, needs) && RecordedBut(nodes, {}, after.Keys)
  {
    runs := [if first in nodes then first else []];
    after, needs := map[], map[first := 1];
    ghost var done: set<Edge> := {};
    bases := [[]];
    RecordedStart(nodes, depth, first);
    var remaining := choices;
    while remaining != {}
      invariant remaining <= choices && Recorded(nodes, depth, done, bases, runs, after, needs)
      invariant RecordedBut(nodes, remaining, done)
      decreases |remaining|
    {
      var node := NextShortest(remaining);
      ShortestRead(nodes, depth, remaining, done, needs, node);
      RecordNode(nodes, remaining, done, node);
      bases, runs, after, needs := RecordHops(nodes, choices, depth, done, bases, runs, after, needs, node);
      done := done + EdgesOf(node, nodes[node]);
      remaining := remaining - {node};
    }
  }

  lemma DecodeDone(trie: Trie, depth: nat, bases: seq<Node>, d: DecodeRuns, needs: map<Node, nat>)
    requires Rooted(trie, depth) && d.first == Follow(trie, depth, [])
    requires Recorded(trie, depth, d.after.Keys, bases, d.runs, d.after, needs) && RecordedBut(trie, {}, d.after.Keys)
    requires forall x :: x in needs && x !in trie ==> needs[x] <= d.rounds
    requires exists x :: x in needs && x !in trie && needs[x] == d.rounds
    ensures IsDecode(trie, depth, bases, d)
  {
    LeavesRead(trie, depth, d.after.Keys, needs);
  }

  /** `decode_runs`. */
  method SplitRuns(labels: seq<Node>) returns (r: Result<DecodeRuns>, ghost trie: Trie, ghost bases: seq<Node>)
    ensures r.ValueError? <==> [] in labels
    ensures r.Ok? ==> IsTrie(labels, trie) && Rooted(trie, Depth(labels))
    ensures r.Ok? ==> IsDecode(trie, Depth(labels), bases, r.value)
  {
    trie, bases := map[], [];
    var built := LabelTrie(labels);
    if built.ValueError? {
      return ValueError, trie, bases;
    }
    var nodes := built.value;
    trie := nodes;
    TrieRooted(labels, trie);
    var choices := ChoiceNodes(nodes);
    var first := FollowForcedTokens(nodes, choices, Depth(labels), []);
    var runs, after, needs;
    bases, runs, after, needs := RecordAll(nodes, choices, Depth(labels), first);
    LeavesRead(trie, Depth(labels), after.Keys, needs);
    var rounds := MostRounds(nodes, needs);
    r := Ok(DecodeRuns(runs, first, after, rounds));
    DecodeDone(trie, Depth(labels), bases, r.value, needs);
  }

  /** Following from a node on the way to a stop does not pass it. */
  lemma {:induction false} FollowWithin(trie: Trie, depth: nat, node: Node, x: Node)
    requires Rooted(trie, depth) && node <= x && IsStop(trie, x)
    ensures Follow(trie, depth, node) <= x
    decreases |x| - |node|
  {
    if node != x {
      StopPath(trie, depth, x, |node|);
      assert x[..|node|] == node;
      if |trie[node]| == 1 {
        assert node + [trie[node][0]] == x[..|node| + 1];
        FollowWithin(trie, depth, node + [trie[node][0]], x);
      }
    }
  }

  /** What a decode feeds until a choice node is read, request by request: the cue and the way to the first choice, then
      from each choice to the next. */
  ghost function Feeds(trie: Trie, node: Node): seq<nat>
    decreases |node|
  {
    var k := LastChoice(trie, node, |node|);
    if k == -1 then [1 + |node|] else Feeds(trie, node[..k]) + [|node| - k]
  }

  /** A label's counts: one request for each round it needs, feeding its path to its last choice, from choice to
      choice. */
  ghost predicate CountsOf(trie: Trie, ids: Node, fed: seq<nat>) {
    fed == Feeds(trie, Decided(trie, ids)) && |fed| == Rounds(trie, ids) && Sum(fed) == 1 + |Decided(trie, ids)|
  }

  lemma FirstFeeds(trie: Trie, depth: nat)
    requires Rooted(trie, depth)
    ensures Feeds(trie, Follow(trie, depth, [])) == [1 + |Follow(trie, depth, [])|] && Feeds(trie, []) == [1]
  {
    var r := Follow(trie, depth, []);
    FollowForced(trie, depth, []);
    NoChoiceSince(trie, [], r, r);
  }

  /** The hop of a choice on a label's path: it stays on the path. */
  lemma ReplayHop(trie: Trie, depth: nat, bases: seq<Node>, d: DecodeRuns, node: Node, ids: Node)
    requires Rooted(trie, depth) && IsDecode(trie, depth, bases, d)
    requires IsChoice(trie, node) && IsLeaf(trie, ids) && node <= ids
    ensures |node| < |ids|
    ensures var e := (node, ids[|node|]);
      && e in d.after && IsEdge(trie, e) && HopOk(trie, depth, d.runs, e, d.after[e])
      && Target(trie, depth, e) <= ids && (Target(trie, depth, e) in trie || Target(trie, depth, e) == ids)
  {
    assert node != ids;
    var e := (node, ids[|node|]);
    StopPath(trie, depth, ids, |node|);
    assert ids[..|node|] == node;
    assert IsEdge(trie, e) && HopOk(trie, depth, d.runs, e, d.after[e]);
    assert e.0 + [e.1] == ids[..|node| + 1];
    FollowWithin(trie, depth, e.0 + [e.1], ids);
    if Target(trie, depth, e) !in trie {
      LeafUnique(trie, depth, Target(trie, depth, e), ids);
    }
  }

  lemma FeedsNext(trie: Trie, depth: nat, e: Edge)
    requires Rooted(trie, depth) && IsEdge(trie, e)
    ensures var r := Target(trie, depth, e);
      |r| > |e.0| && Feeds(trie, r) == Feeds(trie, e.0) + [|r| - |e.0|]
  {
    TargetBelow(trie, depth, e);
    EndsAt(trie, depth, e);
    assert Target(trie, depth, e)[..|e.0|] == e.0;
  }

  /** A decode that has read a choice node has sent a request for each round, and fed the node's path. */
  ghost predicate FedTo(trie: Trie, node: Node, fed: seq<nat>) {
    fed == Feeds(trie, node) && |fed| == Rounds(trie, node) && Sum(fed) == 1 + |node|
  }

  lemma SumNext(fed: seq<nat>, n: nat)
    ensures Sum(fed + [n]) == Sum(fed) + n
  {
    assert (fed + [n])[..|fed|] == fed;
  }

  lemma FedNext(trie: Trie, depth: nat, e: Edge, fed: seq<nat>)
    requires Rooted(trie, depth) && IsEdge(trie, e) && FedTo(trie, e.0, fed)
    ensures var r := Target(trie, depth, e);
      && |r| > |e.0| && (r in trie ==> FedTo(trie, r, fed + [|r| - |e.0|]))
      && (r !in trie ==> CountsOf(trie, r, fed))
  {
    FeedsNext(trie, depth, e);
    RoundsNext(trie, depth, e);
    EndsAt(trie, depth, e);
    SumNext(fed, |Target(trie, depth, e)| - |e.0|);
  }

  /** One request of a label's replay. */
  lemma ReplayNext(trie: Trie, depth: nat, bases: seq<Node>, d: DecodeRuns, node: Node, ids: Node, fed: seq<nat>)
    requires Rooted(trie, depth) && IsDecode(trie, depth, bases, d)
    requires IsChoice(trie, node) && IsLeaf(trie, ids) && node <= ids && FedTo(trie, node, fed)
    ensures |node| < |ids| && (node, ids[|node|]) in d.after
    ensures var hop := d.after[(node, ids[|node|])];
      && (hop.run.Some? ==>
           && hop.run.value < |d.runs| && |hop.target| > |node| && IsChoice(trie, hop.target) && hop.target <= ids
           && FedTo(trie, hop.target, fed + [|d.runs[hop.run.value]|]))
      && (hop.run.None? ==> CountsOf(trie, ids, fed))
  {
    ReplayHop(trie, depth, bases, d, node, ids);
    var e := (node, ids[|node|]);
    TargetBelow(trie, depth, e);
    FedNext(trie, depth, e, fed);
    TargetStops(trie, depth, node + [ids[|node|]]);
  }

  /** Before any hop. */
  lemma ReplayFirst(trie: Trie, depth: nat, bases: seq<Node>, d: DecodeRuns, ids: Node)
    requires Rooted(trie, depth) && IsDecode(trie, depth, bases, d) && IsLeaf(trie, ids)
    ensures d.first in trie ==> IsChoice(trie, d.first) && d.first <= ids && FedTo(trie, d.first, [1 + |d.runs[0]|])
    ensures d.first !in trie ==> CountsOf(trie, ids, [1 + |d.runs[0]|])
  {
    RoundsFirst(trie, depth);
    FirstFeeds(trie, depth);
    FollowWithin(trie, depth, [], ids);
    if d.first !in trie {
      FirstLeaf(trie, depth, ids);
    }
  }

  /** The counts of one label: a request for each round it needs, feeding its path to its last choice. */
  method ReplayLabel(nodes: Trie, ghost depth: nat, ghost bases: seq<Node>, d: DecodeRuns, ids: Node)
    returns (fed: seq<nat>)
    requires Rooted(nodes, depth) && IsDecode(nodes, depth, bases, d) && IsLeaf(nodes, ids)
    ensures CountsOf(nodes, ids, fed)
  {
    var node := d.first;
    fed := [1 + |d.runs[0]|];
    ReplayFirst(nodes, depth, bases, d, ids);
    while node in nodes
      invariant node in nodes ==> IsChoice(nodes, node) && node <= ids && FedTo(nodes, node, fed)
      invariant node !in nodes ==> CountsOf(nodes, ids, fed)
      decreases |ids| - |node|
    {
      ReplayNext(nodes, depth, bases, d, node, ids, fed);
      var hop := d.after[(node, ids[|node|])];
      if hop.run.None? {
        return;
      }
      fed := fed + [|d.runs[hop.run.value]|];
      node := hop.target;
    }
  }

  /** When the forced tokens lead straight to a label's end, that label is the only one. */
  lemma FirstLeaf(trie: Trie, depth: nat, ids: Node)
    requires Rooted(trie, depth) && IsLeaf(trie, ids) && Follow(trie, depth, []) !in trie
    ensures Follow(trie, depth, []) == ids && Decided(trie, ids) == []
  {
    var r := Follow(trie, depth, []);
    FollowWithin(trie, depth, [], ids);
    LeafUnique(trie, depth, r, ids);
    FollowForced(trie, depth, []);
    NoChoiceSince(trie, [], r, r);
  }

  method ReplayOne(nodes: Trie, ghost depth: nat, ghost bases: seq<Node>, d: DecodeRuns, labels: seq<Node>, i: nat)
    returns (fed: seq<nat>)
    requires Rooted(nodes, depth) && IsDecode(nodes, depth, bases, d) && forall l :: l in labels ==> IsLeaf(nodes, l)
    requires i < |labels|
    ensures CountsOf(nodes, labels[i], fed)
  {
    assert labels[i] in labels;
    fed := ReplayLabel(nodes, depth, bases, d, labels[i]);
  }

  method ReplayLabels(nodes: Trie, ghost depth: nat, ghost bases: seq<Node>, d: DecodeRuns, labels: seq<Node>)
    returns (counts: seq<seq<nat>>)
    requires Rooted(nodes, depth) && IsDecode(nodes, depth, bases, d) && forall l :: l in labels ==> IsLeaf(nodes, l)
    ensures |counts| == |labels| && forall i :: 0 <= i < |labels| ==> CountsOf(nodes, labels[i], counts[i])
    ensures forall i :: 0 <= i < |labels| ==> |counts[i]| <= d.rounds
  {
    counts := [];
    for i := 0 to |labels|
      invariant |counts| == i
      invariant forall j :: 0 <= j < i ==> CountsOf(nodes, labels[j], counts[j])
    {
      var fed := ReplayOne(nodes, depth, bases, d, labels, i);
      counts := counts + [fed];
    }
    CountsBounded(nodes, depth, bases, d, labels, counts);
  }

  lemma CountsBounded(trie: Trie, depth: nat, bases: seq<Node>, d: DecodeRuns, labels: seq<Node>, counts: seq<seq<nat>>)
    requires Rooted(trie, depth) && IsDecode(trie, depth, bases, d) && forall l :: l in labels ==> IsLeaf(trie, l)
    requires |counts| == |labels| && forall i :: 0 <= i < |labels| ==> CountsOf(trie, labels[i], counts[i])
    ensures forall i :: 0 <= i < |labels| ==> |counts[i]| <= d.rounds
  {
    forall i | 0 <= i < |labels| ensures |counts[i]| <= d.rounds {
      assert IsLeaf(trie, labels[i]);
    }
  }

  /** `decode_round_tokens`: the longest list has `rounds` requests. */
  method DecodeRoundTokens(labels: seq<Node>)
    returns (r: Result<seq<seq<nat>>>, ghost trie: Trie, ghost rounds: nat)
    requires Decodable(labels)
    ensures r.ValueError? <==> [] in labels
    ensures r.Ok? ==> IsTrie(labels, trie) && |r.value| == |labels|
    ensures r.Ok? ==> forall i :: 0 <= i < |labels| ==> CountsOf(trie, labels[i], r.value[i])
    ensures r.Ok? ==> forall i :: 0 <= i < |labels| ==> |r.value[i]| <= rounds
    ensures r.Ok? && labels != [] ==> exists i :: 0 <= i < |labels| && |r.value[i]| == rounds
  {
    rounds := 0;
    var built;
    ghost var bases;
    built, trie, bases := SplitRuns(labels);
    if built.ValueError? {
      return ValueError, trie, rounds;
    }
    rounds := built.value.rounds;
    var again := LabelTrie(labels);
    TrieUnique(labels, labels, again.value, trie);
    DecodableLeaves(labels, trie);
    var counts := ReplayLabels(again.value, Depth(labels), bases, built.value, labels);
    r := Ok(counts);
    if labels != [] {
      ghost var i := LongestLabel(labels, trie, bases, built.value);
      assert |counts[i]| == rounds;
    }
  }

  /** Some label needs every round. */
  lemma LongestLabel(labels: seq<Node>, trie: Trie, bases: seq<Node>, d: DecodeRuns) returns (i: nat)
    requires IsTrie(labels, trie) && Rooted(trie, Depth(labels)) && IsDecode(trie, Depth(labels), bases, d)
    requires labels != [] && [] !in labels
    ensures i < |labels| && Rounds(trie, labels[i]) == d.rounds
  {
    Branches(labels, trie, [], labels[0]);
    var x :| IsLeaf(trie, x) && Rounds(trie, x) == d.rounds;
    LeafIsLabel(labels, trie, x);
    i :| 0 <= i < |labels| && labels[i] == x;
  }
}
