/** The trie nodes whose rows are read (`read_nodes`, `word_starts`). */
module Reading {
  import opened Prompts
  import opened LabelTries

  /** Whether token `depth` of label i begins a word; no flags at all mark no token. */
  function Flag(starts: seq<seq<bool>>, i: nat, depth: nat): bool
    requires starts == [] || (i < |starts| && depth < |starts[i]|)
  {
    starts != [] && starts[i][depth]
  }

  ghost predicate Flagged(labels: seq<Node>, starts: seq<seq<bool>>) {
    starts == [] || (|starts| == |labels| && forall i :: 0 <= i < |labels| ==> |starts[i]| == |labels[i]|)
  }

  /** The flags are a function of the tokens up to the flagged one. */
  ghost predicate FlagsFrom(labels: seq<Node>, starts: seq<seq<bool>>, word: Node -> bool) {
    && Flagged(labels, starts)
    && forall i, k :: 0 <= i < |labels| && 0 <= k < |labels[i]| ==> Flag(starts, i, k) == word(labels[i][..k + 1])
  }

  /** A child of p that continues the word. */
  ghost predicate Continues(trie: Trie, word: Node -> bool, p: Node) {
    exists t :: Child(trie, p, t) && !word(p + [t])
  }

  /** The nodes read: the root, every split or inner label end, and a node below one read while its
      token continues the word. */
  ghost predicate IsRead(labels: seq<Node>, trie: Trie, word: Node -> bool, p: Node)
    decreases |p|
  {
    || p == []
    || IsChoice(trie, p)
    || p in labels
    || (IsRead(labels, trie, word, p[..|p| - 1]) && Continues(trie, word, p))
  }

  /** The nodes of one label decided so far: those above depth n. */
  ghost predicate Seen(labels: seq<Node>, ids: Node, n: nat, p: Node) {
    Inner(labels, p) || (|p| < n && p <= ids)
  }

  ghost predicate ReadSoFar(labels: seq<Node>, trie: Trie, word: Node -> bool, before: seq<Node>, ids: Node, n: nat,
                            read: set<Node>)
  {
    forall p :: p in read <==> p == [] || (Seen(before, ids, n, p) && IsRead(labels, trie, word, p))
  }

  /** Deciding the next node of a label. */
  lemma ReadNext(labels: seq<Node>, trie: Trie, word: Node -> bool, before: seq<Node>, ids: Node, depth: nat,
                 read: set<Node>, flag: bool)
    requires IsTrie(labels, trie) && ids in labels && 1 <= depth < |ids|
    requires ReadSoFar(labels, trie, word, before, ids, depth, read) && flag == word(ids[..depth + 1])
    ensures var node := ids[..depth];
      var kept := IsChoice(trie, node) || node in labels || (ids[..depth - 1] in read && !flag);
      ReadSoFar(labels, trie, word, before, ids, depth + 1, if kept then read + {node} else read)
  {
    var node := ids[..depth];
    var up := ids[..depth - 1];
    assert node[..depth - 1] == up;
    Branches(labels, trie, node, ids);
    assert node + [ids[depth]] == ids[..depth + 1];
    assert up in read <==> IsRead(labels, trie, word, up);
    if !IsChoice(trie, node) {
      assert forall t :: Child(trie, node, t) ==> t == ids[depth];
    }
    assert Continues(trie, word, node) <== !flag;
    forall p ensures Seen(before, ids, depth + 1, p) <==> Seen(before, ids, depth, p) || p == node {
      assert p <= ids && |p| == depth ==> p == ids[..depth];
    }
  }

  /** Some label goes on from p by a token it does not flag. */
  ghost predicate GoesOn(labels: seq<Node>, starts: seq<seq<bool>>, p: Node)
    requires Flagged(labels, starts)
  {
    exists i :: 0 <= i < |labels| && p < labels[i] && !Flag(starts, i, |p|)
  }

  /** Every node read has a reason: it is the root, a split, an inner label end, or is below a node read. */
  ghost predicate Grounded(labels: seq<Node>, starts: seq<seq<bool>>, trie: Trie, read: set<Node>)
    requires Flagged(labels, starts)
  {
    forall p :: p in read && p != [] ==>
      p in trie && (IsChoice(trie, p) || p in labels || (p[..|p| - 1] in read && GoesOn(labels, starts, p)))
  }

  /** The splits and inner label ends on the labels so far are read. */
  ghost predicate SplitsRead(labels: seq<Node>, trie: Trie, before: seq<Node>, ids: Node, n: nat, read: set<Node>) {
    [] in read && forall p :: Seen(before, ids, n, p) && (IsChoice(trie, p) || p in labels) ==> p in read
  }

  lemma GroundedNext(labels: seq<Node>, starts: seq<seq<bool>>, trie: Trie, i: nat, depth: nat, read: set<Node>)
    requires IsTrie(labels, trie) && Flagged(labels, starts) && i < |labels| && 1 <= depth < |labels[i]|
    requires Grounded(labels, starts, trie, read)
    requires var node := labels[i][..depth];
      IsChoice(trie, node) || node in labels || (labels[i][..depth - 1] in read && !Flag(starts, i, depth))
    ensures Grounded(labels, starts, trie, read + {labels[i][..depth]})
  {
    var (ids, node) := (labels[i], labels[i][..depth]);
    assert node[..depth - 1] == ids[..depth - 1];
    Branches(labels, trie, node, ids);
    assert !Flag(starts, i, depth) ==> GoesOn(labels, starts, node);
  }

  lemma SplitsNext(labels: seq<Node>, trie: Trie, before: seq<Node>, ids: Node, depth: nat, read: set<Node>)
    requires depth < |ids| && SplitsRead(labels, trie, before, ids, depth, read)
    requires IsChoice(trie, ids[..depth]) || ids[..depth] in labels ==> ids[..depth] in read
    ensures SplitsRead(labels, trie, before, ids, depth + 1, read)
  {
    forall p | Seen(before, ids, depth + 1, p) ensures Seen(before, ids, depth, p) || p == ids[..depth] {
      assert p <= ids && |p| == depth ==> p == ids[..depth];
    }
  }

  lemma SplitsEnd(labels: seq<Node>, trie: Trie, before: seq<Node>, ids: Node, read: set<Node>)
    requires SplitsRead(labels, trie, before, ids, |ids|, read)
    ensures SplitsRead(labels, trie, before + [ids], [], 0, read)
  {
    forall p | Seen(before + [ids], [], 0, p) ensures Seen(before, ids, |ids|, p) {
      InnerAppend(before, ids, p);
    }
  }

  lemma EndLabel(labels: seq<Node>, trie: Trie, word: Node -> bool, before: seq<Node>, ids: Node, read: set<Node>)
    requires ReadSoFar(labels, trie, word, before, ids, |ids|, read)
    ensures ReadSoFar(labels, trie, word, before + [ids], [], 0, read)
  {
    forall p ensures Seen(before + [ids], [], 0, p) <==> Seen(before, ids, |ids|, p) {
      InnerAppend(before, ids, p);
    }
  }

  /** The nodes read for the labels so far. */
  ghost predicate ReadUpTo(labels: seq<Node>, starts: seq<seq<bool>>, trie: Trie, word: Node -> bool, before: seq<Node>,
                           read: set<Node>)
    requires Flagged(labels, starts)
  {
    && Grounded(labels, starts, trie, read) && SplitsRead(labels, trie, before, [], 0, read)
    && (FlagsFrom(labels, starts, word) ==> ReadSoFar(labels, trie, word, before, [], 0, read))
  }

  lemma ReadNothing(labels: seq<Node>, starts: seq<seq<bool>>, trie: Trie, word: Node -> bool)
    requires Flagged(labels, starts)
    ensures ReadUpTo(labels, starts, trie, word, [], {[]})
  {
  }

  /** What the nodes read are once every label has been. */
  ghost predicate ReadRight(labels: seq<Node>, starts: seq<seq<bool>>, trie: Trie, word: Node -> bool, read: set<Node>)
    requires Flagged(labels, starts)
  {
    && Grounded(labels, starts, trie, read) && SplitsRead(labels, trie, labels, [], 0, read)
    && (FlagsFrom(labels, starts, word) ==>
          forall p :: p in read <==> p == [] || (p in trie && IsRead(labels, trie, word, p)))
  }

  lemma ReadEverything(labels: seq<Node>, starts: seq<seq<bool>>, trie: Trie, word: Node -> bool, read: set<Node>)
    requires IsTrie(labels, trie) && Flagged(labels, starts) && ReadUpTo(labels, starts, trie, word, labels, read)
    ensures ReadRight(labels, starts, trie, word, read)
  {
  }

  /** The nodes of one label. */
  method ReadLabel(labels: seq<Node>, starts: seq<seq<bool>>, nodes: Trie, i: nat, before: set<Node>, ghost word: Node -> bool)
    returns (read: set<Node>)
    requires IsTrie(labels, nodes) && Flagged(labels, starts) && i < |labels| && [] !in labels
    requires ReadUpTo(labels, starts, nodes, word, labels[..i], before)
    ensures ReadUpTo(labels, starts, nodes, word, labels[..i + 1], read)
  {
    var ids := labels[i];
    read := before;
    ghost var regular := FlagsFrom(labels, starts, word);
    assert labels[..i + 1] == labels[..i] + [ids];
    for depth := 1 to |ids|
      invariant regular ==> ReadSoFar(labels, nodes, word, labels[..i], ids, depth, read)
      invariant Grounded(labels, starts, nodes, read) && SplitsRead(labels, nodes, labels[..i], ids, depth, read)
    {
      var node := ids[..depth];
      Branches(labels, nodes, node, ids);
      if regular {
        ReadNext(labels, nodes, word, labels[..i], ids, depth, read, Flag(starts, i, depth));
      }
      if |nodes[node]| > 1 || node in labels || (ids[..depth - 1] in read && !Flag(starts, i, depth)) {
        GroundedNext(labels, starts, nodes, i, depth, read);
        read := read + {node};
      }
      SplitsNext(labels, nodes, labels[..i], ids, depth, read);
    }
    if regular {
      EndLabel(labels, nodes, word, labels[..i], ids, read);
    }
    SplitsEnd(labels, nodes, labels[..i], ids, read);
  }

  /** `read_nodes`: the root and every split and inner label end are read, and every other node read goes on from one that
      is; with flags that depend on the tokens so far, as those of `word_starts` do, these are exactly the nodes `IsRead`
      names. */
  method ReadNodes(labels: seq<Node>, starts: seq<seq<bool>>, ghost word: Node -> bool)
    returns (r: Result<set<Node>>, ghost trie: Trie)
    requires Flagged(labels, starts)
    ensures r.ValueError? <==> [] in labels
    ensures r.Ok? ==> IsTrie(labels, trie) && ReadRight(labels, starts, trie, word, r.value)
  {
    var built := LabelTrie(labels);
    trie := map[];
    if built.ValueError? {
      return ValueError, trie;
    }
    var nodes := built.value;
    trie := nodes;
    var read: set<Node> := {[]};
    ReadNothing(labels, starts, nodes, word);
    for i := 0 to |labels|
      invariant ReadUpTo(labels, starts, nodes, word, labels[..i], read)
    {
      read := ReadLabel(labels, starts, nodes, i, read, word);
    }
    assert labels[..|labels|] == labels;
    ReadEverything(labels, starts, nodes, word, read);
    r := Ok(read);
  }

  /** A set of nodes closed under the reading rules. */
  ghost predicate ReadClosed(labels: seq<Node>, trie: Trie, word: Node -> bool, nodes: set<Node>) {
    && [] in nodes
    && forall p :: p in trie && p != [] ==>
         (IsChoice(trie, p) || p in labels || (p[..|p| - 1] in nodes && Continues(trie, word, p))) ==> p in nodes
  }

  /** The nodes read are the least set closed under the reading rules. */
  lemma LeastRead(labels: seq<Node>, trie: Trie, word: Node -> bool, read: set<Node>, nodes: set<Node>)
    requires IsTrie(labels, trie) && Rooted(trie, Depth(labels))
    requires forall p :: p in read <==> p == [] || (p in trie && IsRead(labels, trie, word, p))
    ensures ReadClosed(labels, trie, word, read)
    ensures ReadClosed(labels, trie, word, nodes) ==> read <= nodes
  {
    forall p | p in trie && p != []
      ensures p[..|p| - 1] in read && Continues(trie, word, p) ==> IsRead(labels, trie, word, p)
    {
      if p[..|p| - 1] in read {
        ReadBelow(labels, trie, word, p);
      }
    }
    if ReadClosed(labels, trie, word, nodes) {
      forall p | p in read ensures p in nodes {
        ReadIn(labels, trie, word, nodes, p);
      }
    }
  }

  lemma ReadBelow(labels: seq<Node>, trie: Trie, word: Node -> bool, p: Node)
    requires p != [] && (p[..|p| - 1] == [] || IsRead(labels, trie, word, p[..|p| - 1]))
    ensures Continues(trie, word, p) ==> IsRead(labels, trie, word, p)
  {
  }

  lemma {:induction false} ReadIn(labels: seq<Node>, trie: Trie, word: Node -> bool, nodes: set<Node>, p: Node)
    requires Rooted(trie, Depth(labels)) && ReadClosed(labels, trie, word, nodes)
    requires p == [] || (p in trie && IsRead(labels, trie, word, p))
    ensures p in nodes
    decreases |p|
  {
    if p != [] && !IsChoice(trie, p) && p !in labels {
      assert StepAt(trie, p, |p| - 1);
      ReadIn(labels, trie, word, nodes, p[..|p| - 1]);
    }
  }

  /** The order of the labels does not matter. */
  lemma {:induction false} ReadAnyOrder(a: seq<Node>, b: seq<Node>, trie: Trie, word: Node -> bool, p: Node)
    requires forall l :: l in a <==> l in b
    ensures IsRead(a, trie, word, p) <==> IsRead(b, trie, word, p)
    decreases |p|
  {
    if p != [] {
      ReadAnyOrder(a, b, trie, word, p[..|p| - 1]);
    }
  }

  /** With no word starts every trie node is read. */
  lemma {:induction false} NoFlagsReadAll(labels: seq<Node>, trie: Trie, word: Node -> bool, p: Node)
    requires Rooted(trie, Depth(labels)) && (forall q :: !word(q)) && p in trie
    ensures IsRead(labels, trie, word, p)
    decreases |p|
  {
    if p != [] {
      assert StepAt(trie, p, |p| - 1);
      NoFlagsReadAll(labels, trie, word, p[..|p| - 1]);
      assert Child(trie, p, trie[p][0]) && !word(p + [trie[p][0]]);
    }
  }

  /** `word_starts`: a token begins a word when its text starts with whitespace and the token before
      it holds a letter or digit. */
  function WordStarts(labels: seq<Node>, spaced: Token -> bool, wordy: Token -> bool): seq<seq<bool>> {
    seq(|labels|, i requires 0 <= i < |labels| =>
      seq(|labels[i]|, k requires 0 <= k < |labels[i]| => k > 0 && spaced(labels[i][k]) && wordy(labels[i][k - 1])))
  }

  /** Word starts depend on the tokens so far, as `ReadNodes` needs. */
  lemma WordStartsFlags(labels: seq<Node>, spaced: Token -> bool, wordy: Token -> bool)
    ensures FlagsFrom(labels, WordStarts(labels, spaced, wordy),
                      (p: Node) => |p| > 1 && spaced(p[|p| - 1]) && wordy(p[|p| - 2]))
  {
  }
}
