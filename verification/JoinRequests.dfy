/** The requests of a join, and their answers in anchor-major order (`run_join_grouped`). */
module JoinRequests {
  import opened Common
  import opened Prompts
  import opened Requests
  import opened DecisionClient
  import opened Sorting
  import opened Permutations

  /** An (anchor index, suffix index) pair. */
  type Pair = (nat, nat)

  datatype Submission = AnchorMajor | SuffixMajor

  datatype Answered = Interrupted | Answered(answers: seq<bool>)

  ghost predicate PairsWithin(pairs: seq<Pair>, anchors: nat, suffixes: nat) {
    forall i :: 0 <= i < |pairs| ==> PairWithin(pairs[i], anchors, suffixes)
  }

  ghost predicate PairWithin(pair: Pair, anchors: nat, suffixes: nat) {
    pair.0 < anchors && pair.1 < suffixes
  }

  /** One anchor's pairs. */
  function PairsOf(anchor: nat, mine: seq<nat>): (r: seq<Pair>)
    ensures |r| == |mine|
  {
    seq(|mine|, i requires 0 <= i < |mine| => (anchor, mine[i]))
  }

  /** Every anchor with its own suffixes, anchor by anchor. */
  function Enumerate(mine: seq<seq<nat>>): seq<Pair> {
    if mine == [] then
      []
    else
      var n := |mine| - 1;
      Enumerate(mine[..n]) + PairsOf(n, mine[n])
  }

  function Everyone(suffixes: nat): seq<nat> {
    seq(suffixes, i => i)
  }

  /** Every anchor with every suffix. */
  function AllPairs(anchors: nat, suffixes: nat): seq<Pair> {
    Enumerate(seq(anchors, _ => Everyone(suffixes)))
  }

  lemma {:induction false} EnumerateWithin(mine: seq<seq<nat>>, suffixes: nat)
    requires forall a, i :: 0 <= a < |mine| && 0 <= i < |mine[a]| ==> mine[a][i] < suffixes
    ensures PairsWithin(Enumerate(mine), |mine|, suffixes)
  {
    if mine != [] {
      EnumerateWithin(mine[..|mine| - 1], suffixes);
    }
  }

  /** A pair is enumerated exactly when the anchor has the suffix. */
  lemma {:induction false} Enumerated(mine: seq<seq<nat>>, a: nat, s: nat)
    ensures (a, s) in Enumerate(mine) <==> a < |mine| && s in mine[a]
  {
    if mine != [] {
      var n := |mine| - 1;
      Enumerated(mine[..n], a, s);
      var last := PairsOf(n, mine[n]);
      if a == n && s in mine[n] {
        var i :| 0 <= i < |mine[n]| && mine[n][i] == s;
        assert last[i] == (a, s);
      }
      assert a < n ==> mine[..n][a] == mine[a];
    }
  }

  function SuffixKey(pairs: seq<Pair>): int -> SortKey {
    i => if 0 <= i < |pairs| then (pairs[i].1, pairs[i].0) else (0, 0)
  }

  /** The positions of the pairs in the order they are submitted. */
  function SubmissionOrder(pairs: seq<Pair>, submission: Submission): (r: seq<int>)
    ensures |r| == |pairs| && multiset(r) == multiset(Iota(|pairs|))
  {
    if submission.AnchorMajor? then Iota(|pairs|) else SortBy(Iota(|pairs|), SuffixKey(pairs))
  }

  function PairPrompt(prefixes: seq<Prompt>, suffixes: seq<Prompt>, pair: Pair): Prompt
    requires pair.0 < |prefixes| && pair.1 < |suffixes|
  {
    prefixes[pair.0] + suffixes[pair.1]
  }

  /** Answer i is the answer to pair i's own prompt. */
  ghost predicate AnswersPairs(prefixes: seq<Prompt>, suffixes: seq<Prompt>, truth: Prompt -> bool, pairs: seq<Pair>,
                               answers: seq<bool>)
    requires PairsWithin(pairs, |prefixes|, |suffixes|)
  {
    && |answers| == |pairs|
    && forall i :: 0 <= i < |pairs| ==> answers[i] == truth(PairPrompt(prefixes, suffixes, pairs[i]))
  }

  /** `read_answer` of every output; reading a malformed one raises. */
  method ReadAnswers(outputs: seq<Output>, truth: Prompt -> bool) returns (ok: bool, bits: seq<bool>)
    ensures ok <==> forall i :: 0 <= i < |outputs| ==> !outputs[i].malformed
    ensures ok ==> |bits| == |outputs| && forall i :: 0 <= i < |outputs| ==> bits[i] == truth(outputs[i].prompt)
  {
    bits := [];
    for i := 0 to |outputs|
      invariant |bits| == i && forall j :: 0 <= j < i ==> !outputs[j].malformed
      invariant forall j :: 0 <= j < i ==> bits[j] == truth(outputs[j].prompt)
    {
      if outputs[i].malformed {
        return false, bits;
      }
      bits := bits + [truth(outputs[i].prompt)];
    }
    ok := true;
  }

  /** Ask the model each prompt's question. */
  method AskAll(client: Client, uncached: bool, prompts: seq<Prompt>, truth: Prompt -> bool)
    returns (ok: bool, bits: seq<bool>)
    requires client.Valid()
    modifies client`counter, client.engine
    ensures ok ==> client.Valid()
    ensures ok ==> |bits| == |prompts| && forall p :: 0 <= p < |prompts| ==> bits[p] == truth(prompts[p])
    ensures old(client.Served(2 * |prompts|)) ==> ok
  {
    var generated := client.Generate(prompts, uncached, 0);
    if generated.Propagated? {
      return false, [];
    }
    ok, bits := ReadAnswers(generated.outputs, truth);
    assert forall p :: 0 <= p < |prompts| ==> Answers(generated.outputs[p], prompts[p]);
  }

  /** The order in which pairs are submitted. */
  method OrderFor(pairs: seq<Pair>, submission: Submission) returns (order: seq<int>)
    ensures Permutes(order, |pairs|)
  {
    order := SubmissionOrder(pairs, submission);
    OrderPermutes(order, |pairs|);
  }

  /** `run_join_grouped`: under either submission order, each answer is that of its own pair.  An engine
      that answers some request in each turn makes it return, in at most two turns per pair. */
  method RunJoinGrouped(client: Client, uncached: bool, prefixes: seq<Prompt>, suffixes: seq<Prompt>,
                        truth: Prompt -> bool, submission: Submission, wanted: Option<seq<Pair>>)
    returns (r: Answered, ghost pairs: seq<Pair>)
    requires client.Valid()
    requires wanted.Some? ==> PairsWithin(wanted.value, |prefixes|, |suffixes|)
    modifies client`counter, client.engine
    ensures pairs == if wanted.Some? then wanted.value else AllPairs(|prefixes|, |suffixes|)
    ensures PairsWithin(pairs, |prefixes|, |suffixes|)
    ensures r.Answered? ==> AnswersPairs(prefixes, suffixes, truth, pairs, r.answers) && client.Valid()
    ensures old(client.Served(2 * |pairs|)) ==> r.Answered?
  {
    var asked := if wanted.Some? then wanted.value else AllPairs(|prefixes|, |suffixes|);
    EnumerateWithin(seq(|prefixes|, _ => Everyone(|suffixes|)), |suffixes|);
    pairs := asked;
    var order := OrderFor(asked, submission);
    var prompts := seq(|order|, p requires 0 <= p < |order| => PairPrompt(prefixes, suffixes, asked[order[p]]));
    var ok, bits := AskAll(client, uncached, prompts, truth);
    if !ok {
      return Interrupted, pairs;
    }
    var submittedAt := Invert(order);
    r := Answered(seq(|asked|, i requires 0 <= i < |asked| => bits[submittedAt[i]]));
    AnswersInOrder(prefixes, suffixes, truth, asked, order, submittedAt, bits, r.answers);
  }

  /** Answers gathered by the inverse of the submission order belong to their own pairs. */
  lemma AnswersInOrder(prefixes: seq<Prompt>, suffixes: seq<Prompt>, truth: Prompt -> bool, pairs: seq<Pair>,
                       order: seq<int>, at: seq<int>, bits: seq<bool>, answers: seq<bool>)
    requires PairsWithin(pairs, |prefixes|, |suffixes|) && Permutes(order, |pairs|)
    requires |bits| == |answers| == |pairs|
    requires forall p :: 0 <= p < |pairs| ==> bits[p] == truth(PairPrompt(prefixes, suffixes, pairs[order[p]]))
    requires |at| == |pairs| && forall i :: 0 <= i < |pairs| ==> 0 <= at[i] < |pairs| && order[at[i]] == i
    requires forall i :: 0 <= i < |pairs| ==> answers[i] == bits[at[i]]
    ensures AnswersPairs(prefixes, suffixes, truth, pairs, answers)
  {
    forall i | 0 <= i < |pairs| ensures answers[i] == truth(PairPrompt(prefixes, suffixes, pairs[i])) {
      assert order[at[i]] == i;
    }
  }
}
