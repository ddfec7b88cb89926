/** The token trie of a classification's labels (`label_trie`, `choice_nodes`, `decodable`). */
module LabelTries {
  import opened Prompts
  import opened Sorting

  type Node = seq<Token>
  type Trie = map<Node, seq<Token>>

  datatype Result<T> = Ok(value: T) | ValueError

  predicate Starts(labels: seq<Node>, p: Node) {
    exists l :: l in labels && p <= l
  }

  /** A proper prefix of some label. */
  predicate Inner(labels: seq<Node>, p: Node) {
    exists l :: l in labels && p < l
  }

  predicate Child(trie: Trie, p: Node, t: Token) {
    p in trie && t in trie[p]
  }

  /** Each proper label prefix with the tokens that can follow it, ascending. */
  ghost predicate IsTrie(labels: seq<Node>, trie: Trie) {
    && (forall p :: p in trie <==> Inner(labels, p))
    && (forall p :: p in trie ==> Increasing(trie[p]))
    && (forall p, t :: Child(trie, p, t) <==> Starts(labels, p + [t]))
  }

  ghost predicate Collects(labels: seq<Node>, children: map<Node, set<Token>>) {
    && (forall p :: p in children <==> Inner(labels, p))
    && (forall p, t :: p in children ==> (t in children[p] <==> Starts(labels, p + [t])))
  }

  /** A label one token longer adds that token below the label. */
  lemma CollectsNext(labels: seq<Node>, l: Node, t: Token, children: map<Node, set<Token>>)
    requires Collects(labels + [l], children)
    ensures Collects(labels + [l + [t]], children[l := (if l in children then children[l] else {}) + {t}])
  {
    var (before, after) := (labels + [l], labels + [l + [t]]);
    forall p: Node ensures Inner(after, p) <==> Inner(before, p) || p == l {
      InnerAppend(labels, l, p);
      InnerAppend(labels, l + [t], p);
      PrefixAppend(p, l, t);
    }
    forall p: Node ensures Starts(after, p) <==> Starts(before, p) || p == l + [t] {
      StartsAppend(labels, l, p);
      StartsAppend(labels, l + [t], p);
      PrefixAppend(p, l, t);
    }
    forall p: Node, u: Token ensures p + [u] == l + [t] <==> p == l && u == t {
      if p + [u] == l + [t] {
        assert (p + [u])[..|p|] == p && (l + [t])[..|l|] == l;
      }
    }
    assert l !in children ==> forall u :: !Starts(before, l + [u]) by {
      forall u | Starts(before, l + [u]) ensures l in children {
        var m :| m in before && l + [u] <= m;
        assert l < m;
      }
    }
  }

  lemma PrefixAppend(p: Node, l: Node, t: Token)
    ensures p <= l + [t] <==> p <= l || p == l + [t]
    ensures p < l + [t] <==> p < l || p == l
  {
    if p <= l + [t] && |p| <= |l| {
      assert p == (l + [t])[..|p|] == l[..|p|];
    }
  }

  lemma InnerAppend(labels: seq<Node>, l: Node, p: Node)
    ensures Inner(labels + [l], p) <==> Inner(labels, p) || p < l
  {
    assert l in labels + [l] && forall m :: m in labels + [l] <==> m in labels || m == l;
  }

  lemma StartsAppend(labels: seq<Node>, l: Node, p: Node)
    ensures Starts(labels + [l], p) <==> Starts(labels, p) || p <= l
  {
    assert l in labels + [l] && forall m :: m in labels + [l] <==> m in labels || m == l;
  }

  /** Add one label's prefixes, and the token after each. */
  method CollectLabel(ghost before: seq<Node>, ids: Node, children: map<Node, set<Token>>)
    returns (grown: map<Node, set<Token>>)
    requires Collects(before, children)
    ensures Collects(before + [ids], grown)
  {
    grown := children;
    CollectsEmpty(before, children);
    assert ids[..0] == [];
    for depth := 0 to |ids|
      invariant Collects(before + [ids[..depth]], grown)
    {
      var node := ids[..depth];
      CollectsNext(before, node, ids[depth], grown);
      assert node + [ids[depth]] == ids[..depth + 1];
      grown := grown[node := (if node in grown then grown[node] else {}) + {ids[depth]}];
    }
    assert ids[..|ids|] == ids;
  }

  /** `label_trie` */
  method LabelTrie(labels: seq<Node>) returns (r: Result<Trie>)
    ensures r.ValueError? <==> [] in labels
    ensures r.Ok? ==> IsTrie(labels, r.value)
  {
    var children: map<Node, set<Token>> := map[];
    for i := 0 to |labels|
      invariant Collects(labels[..i], children) && [] !in labels[..i]
    {
      if labels[i] == [] {
        return ValueError;
      }
      children := CollectLabel(labels[..i], labels[i], children);
      assert labels[..i + 1] == labels[..i] + [labels[i]];
    }
    assert labels[..|labels|] == labels;
    r := Ok(map p | p in children :: SortedSet(children[p]));
  }

  lemma CollectsEmpty(labels: seq<Node>, children: map<Node, set<Token>>)
    requires Collects(labels, children)
    ensures Collects(labels + [[]], children)
  {
    forall p ensures Inner(labels + [[]], p) <==> Inner(labels, p) {
      InnerAppend(labels, [], p);
    }
    forall p: Node, t: Token ensures Starts(labels + [[]], p + [t]) <==> Starts(labels, p + [t]) {
      StartsAppend(labels, [], p + [t]);
    }
  }

  /** The step below depth k on the path to p is in the trie. */
  predicate StepAt(trie: Trie, p: Node, k: nat)
    requires k < |p|
  {
    Child(trie, p[..k], p[k])
  }

  /** What the decode needs of a trie: it is closed under prefixes, and no deeper than `depth`. */
  ghost predicate Rooted(trie: Trie, depth: nat) {
    && (forall p :: p in trie ==> |p| < depth && trie[p] != [] && Increasing(trie[p]))
    && (forall p, k {:trigger StepAt(trie, p, k)} :: p in trie && 0 <= k < |p| ==> StepAt(trie, p, k))
  }

  function Depth(labels: seq<Node>): (r: nat)
    ensures forall l :: l in labels ==> |l| <= r
  {
    if labels == [] then 0 else
      var rest := Depth(labels[1..]);
      assert forall l :: l in labels ==> l == labels[0] || l in labels[1..];
      if |labels[0]| > rest then |labels[0]| else rest
  }

  lemma TrieRooted(labels: seq<Node>, trie: Trie)
    requires IsTrie(labels, trie)
    ensures Rooted(trie, Depth(labels))
  {
    forall p | p in trie ensures |p| < Depth(labels) && trie[p] != [] {
      var l :| l in labels && p < l;
      Branches(labels, trie, p, l);
    }
    forall p, k | p in trie && 0 <= k < |p| ensures StepAt(trie, p, k) {
      var l :| l in labels && p < l;
      Branches(labels, trie, p[..k], l);
    }
  }

  /** Every proper prefix of a label is in the trie, with the label's next token as a child. */
  lemma Branches(labels: seq<Node>, trie: Trie, p: Node, l: Node)
    requires IsTrie(labels, trie) && l in labels && p < l
    ensures Child(trie, p, l[|p|])
  {
    assert p + [l[|p|]] == l[..|p| + 1];
    assert Starts(labels, p + [l[|p|]]);
  }

  predicate IsChoice(trie: Trie, node: Node) {
    node in trie && |trie[node]| > 1
  }

  /** `choice_nodes` */
  function ChoiceNodes(trie: Trie): set<Node> {
    set node | node in trie && |trie[node]| > 1
  }

  /** A choice node is exactly a node where two labels differ in their next token. */
  lemma ChoiceNodesSplit(labels: seq<Node>, trie: Trie, node: Node)
    requires IsTrie(labels, trie)
    ensures node in ChoiceNodes(trie) <==>
      exists a, b :: a in labels && b in labels && node < a && node < b && a[|node|] != b[|node|]
  {
    if node in ChoiceNodes(trie) {
      var (t, u) := (trie[node][0], trie[node][1]);
      assert t in trie[node] && u in trie[node] && t != u;
      var a :| a in labels && node + [t] <= a;
      var b :| b in labels && node + [u] <= b;
      assert a[|node|] == t && b[|node|] == u;
      assert node < a && node < b;
    }
    if a, b :| a in labels && b in labels && node < a && node < b && a[|node|] != b[|node|] {
      Branches(labels, trie, node, a);
      Branches(labels, trie, node, b);
    }
  }

  /** The forced tokens after a node, up to the next choice node or the end of a label. */
  function Follow(trie: Trie, depth: nat, node: Node): (r: Node)
    requires Rooted(trie, depth)
    ensures node <= r
    ensures IsChoice(trie, r) || r !in trie
    decreases depth - |node|
  {
    if node in trie && |trie[node]| == 1 then Follow(trie, depth, node + [trie[node][0]]) else node
  }

  /** A choice is made at depth k on the path to q. */
  predicate ChoiceAt(trie: Trie, q: Node, k: nat)
    requires k <= |q|
  {
    IsChoice(trie, q[..k])
  }

  /** No choice is made at depth k on the path to r. */
  ghost predicate ForcedAt(trie: Trie, r: Node, k: nat)
    requires k < |r|
  {
    StepAt(trie, r, k) && !ChoiceAt(trie, r, k)
  }

  ghost predicate Forced(trie: Trie, r: Node, lo: nat) {
    forall k :: lo <= k < |r| ==> ForcedAt(trie, r, k)
  }

  /** Nothing is chosen between a node and what follows it. */
  lemma {:induction false} FollowForced(trie: Trie, depth: nat, node: Node)
    requires Rooted(trie, depth)
    ensures Forced(trie, Follow(trie, depth, node), |node|)
    decreases depth - |node|
  {
    if node in trie && |trie[node]| == 1 {
      var next := node + [trie[node][0]];
      FollowForced(trie, depth, next);
      var r := Follow(trie, depth, next);
      assert r[..|node|] == next[..|node|] == node;
      assert r[|node|] == next[|node|] == trie[node][0];
      assert ForcedAt(trie, r, |node|);
    }
  }

  /** A path along which nothing is chosen is followed. */
  lemma {:induction false} FollowThrough(trie: Trie, depth: nat, node: Node, q: Node)
    requires Rooted(trie, depth) && node <= q
    requires Forced(trie, q, |node|)
    ensures Follow(trie, depth, node) == Follow(trie, depth, q)
    decreases |q| - |node|
  {
    if node != q {
      assert ForcedAt(trie, q, |node|);
      assert q[..|node|] == node;
      var next := node + [q[|node|]];
      assert next == q[..|node| + 1];
      FollowThrough(trie, depth, next, q);
    }
  }

  /** Following from a node above a choice node stops at a choice node on the way. */
  lemma {:induction false} FollowStays(trie: Trie, depth: nat, node: Node, x: Node)
    requires Rooted(trie, depth) && node <= x && IsChoice(trie, x)
    ensures IsChoice(trie, Follow(trie, depth, node)) && Follow(trie, depth, node) <= x
    decreases |x| - |node|
  {
    if node != x {
      assert StepAt(trie, x, |node|);
      assert x[..|node|] == node;
      if |trie[node]| == 1 {
        assert node + [trie[node][0]] == x[..|node| + 1];
        FollowStays(trie, depth, node + [trie[node][0]], x);
      }
    }
  }

  /** The depth of the last choice node above depth n on the path to q, or -1. */
  ghost function LastChoice(trie: Trie, q: Node, n: nat): (r: int)
    requires n <= |q|
    ensures -1 <= r < n
    ensures r >= 0 ==> ChoiceAt(trie, q, r)
    ensures forall k :: r < k < n ==> !ChoiceAt(trie, q, k)
  {
    if n == 0 then -1 else if ChoiceAt(trie, q, n - 1) then n - 1 else LastChoice(trie, q, n - 1)
  }

  lemma LastChoiceIs(trie: Trie, q: Node, n: nat, r: int)
    requires -1 <= r < n <= |q|
    requires r >= 0 ==> ChoiceAt(trie, q, r)
    requires forall k :: r < k < n ==> !ChoiceAt(trie, q, k)
    ensures LastChoice(trie, q, n) == r
  {
  }

  /** A choice and one of its tokens. */
  type Edge = (Node, Token)

  ghost predicate IsEdge(trie: Trie, e: Edge) {
    IsChoice(trie, e.0) && Child(trie, e.0, e.1)
  }

  ghost function Target(trie: Trie, depth: nat, e: Edge): Node
    requires Rooted(trie, depth)
  {
    Follow(trie, depth, e.0 + [e.1])
  }

  /** Where a greedy decode can stop to choose or to end. */
  ghost predicate IsStop(trie: Trie, x: Node) {
    IsChoice(trie, x) || IsLeaf(trie, x)
  }

  /** A token path that ends outside the trie: a label no other label continues. */
  ghost predicate IsLeaf(trie: Trie, x: Node) {
    x !in trie && IsNode(trie, x)
  }

  ghost predicate IsNode(trie: Trie, x: Node) {
    x == [] || Child(trie, x[..|x| - 1], x[|x| - 1])
  }

  lemma ChildIsNode(trie: Trie, p: Node, t: Token)
    requires Child(trie, p, t)
    ensures IsNode(trie, p + [t])
  {
    assert (p + [t])[..|p|] == p;
  }

  lemma TargetStops(trie: Trie, depth: nat, node: Node)
    requires Rooted(trie, depth) && IsNode(trie, node)
    ensures IsStop(trie, Follow(trie, depth, node))
  {
    FollowForced(trie, depth, node);
    var r := Follow(trie, depth, node);
    if |r| > |node| {
      assert ForcedAt(trie, r, |r| - 1);
    }
  }

  /** The last choice above a stop leads to it. */
  ghost function LastEdge(trie: Trie, x: Node): Edge
    requires LastChoice(trie, x, |x|) >= 0
  {
    var k := LastChoice(trie, x, |x|);
    (x[..k], x[k])
  }

  lemma ForcedBelow(trie: Trie, depth: nat, x: Node)
    requires Rooted(trie, depth) && IsStop(trie, x)
    ensures Forced(trie, x, LastChoice(trie, x, |x|) + 1)
  {
    forall j | 0 <= j < |x| ensures StepAt(trie, x, j) {
      StopPath(trie, depth, x, j);
    }
  }

  /** Every stop is reached: from the root, or by the choice last made above it. */
  lemma StopFromRoot(trie: Trie, depth: nat, x: Node)
    requires Rooted(trie, depth) && IsStop(trie, x) && LastChoice(trie, x, |x|) == -1
    ensures Follow(trie, depth, []) == x
  {
    ForcedBelow(trie, depth, x);
    FollowThrough(trie, depth, [], x);
  }

  lemma StopFromChoice(trie: Trie, depth: nat, x: Node)
    requires Rooted(trie, depth) && IsStop(trie, x) && LastChoice(trie, x, |x|) >= 0
    ensures IsEdge(trie, LastEdge(trie, x)) && Target(trie, depth, LastEdge(trie, x)) == x
    ensures |LastEdge(trie, x).0| < |x|
  {
    var k := LastChoice(trie, x, |x|);
    ForcedBelow(trie, depth, x);
    StopPath(trie, depth, x, k);
    assert x[..k] + [x[k]] == x[..k + 1];
    FollowThrough(trie, depth, x[..k + 1], x);
  }

  lemma StopPath(trie: Trie, depth: nat, x: Node, j: nat)
    requires Rooted(trie, depth) && IsStop(trie, x) && j < |x|
    ensures StepAt(trie, x, j)
  {
    if x !in trie && j < |x| - 1 {
      var up := x[..|x| - 1];
      assert StepAt(trie, up, j);
      assert up[..j] == x[..j] && up[j] == x[j];
    }
  }

  /** `decodable` */
  predicate Decodable(labels: seq<Node>) {
    forall l, k :: l in labels && 1 <= k < |l| ==> l[..k] !in labels
  }

  /** Labels are decodable exactly when each of them ends at a leaf of their trie. */
  lemma DecodableLeaves(labels: seq<Node>, trie: Trie)
    requires IsTrie(labels, trie) && [] !in labels
    ensures Decodable(labels) <==> forall l :: l in labels ==> IsLeaf(trie, l)
  {
    forall l | l in labels ensures IsNode(trie, l) {
      Branches(labels, trie, l[..|l| - 1], l);
    }
    if Decodable(labels) {
      forall l | l in labels ensures !Inner(labels, l) {
        DecodableEnds(labels, l);
      }
    } else {
      var l, k :| l in labels && 1 <= k < |l| && l[..k] in labels;
      Branches(labels, trie, l[..k], l);
    }
  }

  lemma DecodableEnds(labels: seq<Node>, l: Node)
    requires Decodable(labels) && l in labels && l != []
    ensures !Inner(labels, l)
  {
    assert forall m :: m in labels && l < m ==> m[..|l|] == l;
  }

  /** Every leaf but an empty trie's root is a label. */
  lemma LeafIsLabel(labels: seq<Node>, trie: Trie, x: Node)
    requires IsTrie(labels, trie) && IsLeaf(trie, x) && x != []
    ensures x in labels
  {
    assert x[..|x| - 1] + [x[|x| - 1]] == x;
    assert Starts(labels, x) && !Inner(labels, x);
    var l :| l in labels && x <= l;
    assert x < l || x == l;
  }

  /** Nothing continues a leaf's path below its end. */
  lemma LeafUnique(trie: Trie, depth: nat, r: Node, x: Node)
    requires Rooted(trie, depth) && IsLeaf(trie, x) && r <= x && r !in trie
    ensures r == x
  {
    assert x[..|r|] == r;
    if |r| < |x| {
      StopPath(trie, depth, x, |r|);
    }
  }

  /** A label list has one trie, whatever the order of the labels. */
  lemma TrieUnique(a: seq<Node>, b: seq<Node>, s: Trie, t: Trie)
    requires IsTrie(a, s) && IsTrie(b, t) && forall l :: l in a <==> l in b
    ensures s == t
  {
    forall p ensures p in s <==> p in t {
      assert Inner(a, p) <==> Inner(b, p);
    }
    forall p | p in s ensures s[p] == t[p] {
      forall u ensures u in s[p] <==> u in t[p] {
        assert Child(s, p, u) <==> Starts(a, p + [u]);
        assert Child(t, p, u) <==> Starts(b, p + [u]);
        assert Starts(a, p + [u]) <==> Starts(b, p + [u]);
      }
      IncreasingUnique(s[p], t[p]);
    }
  }
}
