/** How many documents the KV budget keeps live at once (`filter_document_cap`,
    `extract_document_cap`). */
module DocumentCaps {
  import opened Common
  import opened Prompts

  /** The longest of some prompts, in tokens. */
  function Longest(prompts: seq<Prompt>): (r: nat)
    ensures forall i :: 0 <= i < |prompts| ==> |prompts[i]| <= r
    ensures prompts != [] ==> exists i :: 0 <= i < |prompts| && |prompts[i]| == r
  {
    if prompts == [] then
      0
    else
      var rest := Longest(prompts[..|prompts| - 1]);
      if rest < |prompts[|prompts| - 1]| then |prompts[|prompts| - 1]| else rest
  }

  /** Tokens rounded up to whole KV blocks. */
  function Blocks(tokens: nat, block: nat): (r: nat)
    requires block >= 1
    ensures tokens <= r < tokens + block
  {
    var n := tokens + block - 1;
    assert n == n / block * block + n % block;
    n / block * block
  }

  /** One request of each document: its body, the longest question, and the answer token. */
  function RequestSizes(bodies: seq<Prompt>, questions: seq<Prompt>, block: nat): (r: seq<nat>)
    requires block >= 1
    ensures |r| == |bodies| && forall i :: 0 <= i < |r| ==> r[i] >= 1
  {
    seq(|bodies|, i requires 0 <= i < |bodies| => Blocks(|bodies[i]| + Longest(questions) + 1, block))
  }

  /** A number of tokens that fills whole blocks. */
  predicate Fills(tokens: nat, block: nat)
    requires block >= 1
  {
    tokens / block * block == tokens
  }

  lemma TimesFills(n: nat, block: nat)
    requires block >= 1
    ensures Fills(n * block, block)
  {
    assert n * block == block * n;
    QuotientExact(n, block);
  }

  lemma BlocksFill(tokens: nat, block: nat)
    requires block >= 1
    ensures Fills(Blocks(tokens, block), block)
  {
    TimesFills((tokens + block - 1) / block, block);
  }

  lemma SumFills(a: nat, b: nat, block: nat)
    requires block >= 1 && Fills(a, block) && Fills(b, block)
    ensures Fills(a + b, block)
  {
    assert a + b == (a / block + b / block) * block;
    TimesFills(a / block + b / block, block);
  }

  /** A size is whole blocks that hold any request of the document with its answer token, and less than one block more
      than the largest needs. */
  lemma SizesHold(bodies: seq<Prompt>, questions: seq<Prompt>, block: nat, d: nat, q: nat)
    requires block >= 1 && d < |bodies| && q < |questions|
    ensures var size := RequestSizes(bodies, questions, block)[d];
      && |bodies[d] + questions[q]| + 1 <= size && Fills(size, block)
      && exists l :: 0 <= l < |questions| && size < |bodies[d] + questions[l]| + 1 + block
  {
    BlocksFill(|bodies[d]| + Longest(questions) + 1, block);
    var l :| 0 <= l < |questions| && |questions[l]| == Longest(questions);
    assert RequestSizes(bodies, questions, block)[d] < |bodies[d] + questions[l]| + 1 + block;
  }

  function FilterDocumentCap(bodies: seq<Prompt>, questions: seq<Prompt>, budget: int, block: nat,
                             maxSeqs: Option<nat>): nat
    requires block >= 1
  {
    if bodies == [] then
      0
    else
      var sizes := RequestSizes(bodies, questions, block);
      var mean := Sum(sizes) / |sizes|;
      MeanPositive(sizes);
      var cap := Max(1, budget / mean);
      if maxSeqs.Some? then Min(cap, maxSeqs.value) else cap
  }

  lemma {:induction false} SumAtLeast(s: seq<nat>, low: nat)
    requires forall i :: 0 <= i < |s| ==> s[i] >= low
    ensures Sum(s) >= |s| * low
  {
    if s != [] {
      SumAtLeast(s[..|s| - 1], low);
    }
  }

  lemma {:induction false} SumAtMost(s: seq<nat>, high: nat)
    requires forall i :: 0 <= i < |s| ==> s[i] <= high
    ensures Sum(s) <= |s| * high
  {
    if s != [] {
      SumAtMost(s[..|s| - 1], high);
    }
  }

  lemma MeanPositive(s: seq<nat>)
    requires s != [] && forall i :: 0 <= i < |s| ==> s[i] >= 1
    ensures Sum(s) / |s| >= 1
  {
    SumAtLeast(s, 1);
    Quotient(Sum(s), |s|, 1);
  }

  /** A cap of zero comes only from an engine limit of zero. */
  lemma FilterCapPositive(bodies: seq<Prompt>, questions: seq<Prompt>, budget: int, block: nat, maxSeqs: Option<nat>)
    requires block >= 1 && bodies != []
    ensures FilterDocumentCap(bodies, questions, budget, block, maxSeqs) == 0 <==> maxSeqs == Some(0)
    ensures maxSeqs.Some? ==> FilterDocumentCap(bodies, questions, budget, block, maxSeqs) <= maxSeqs.value
  {
    MeanPositive(RequestSizes(bodies, questions, block));
  }

  /** Documents of one rounded size: those live at once fit the budget, or there is only one. */
  lemma LiveDocumentsFit(bodies: seq<Prompt>, questions: seq<Prompt>, budget: int, block: nat, maxSeqs: Option<nat>,
                         size: nat, live: nat)
    requires block >= 1
    requires forall i :: 0 <= i < |bodies| ==> RequestSizes(bodies, questions, block)[i] == size
    requires live <= FilterDocumentCap(bodies, questions, budget, block, maxSeqs)
    ensures live * size <= Max(budget, size)
  {
    if bodies != [] {
      var sizes := RequestSizes(bodies, questions, block);
      EqualMean(sizes, size);
      assert sizes[0] == size >= 1;
      Quotient(budget, size, live);
    }
  }

  lemma EqualMean(sizes: seq<nat>, size: nat)
    requires sizes != [] && forall i :: 0 <= i < |sizes| ==> sizes[i] == size
    ensures Sum(sizes) / |sizes| == size
  {
    SumAtLeast(sizes, size);
    SumAtMost(sizes, size);
    QuotientExact(size, |sizes|);
  }

  lemma QuotientExact(q: nat, d: nat)
    requires d >= 1
    ensures d * q / d == q
  {
    assert q * d == d * q;
    assert (q + 1) * d == d * q + d;
    Quotient(d * q, d, q);
    Quotient(d * q, d, q + 1);
  }

  /** Three bodies of 0, 0 and 9 tokens need 1, 1 and 10: four on average, so two fit a budget of 8. */
  lemma UnequalCap()
    ensures
      var (bodies, questions) := ([[], [], [0, 0, 0, 0, 0, 0, 0, 0, 0]], [[]]);
      && RequestSizes(bodies, questions, 1) == [1, 1, 10]
      && FilterDocumentCap(bodies, questions, 8, 1, None) == 2
  {
    var bodies: seq<Prompt> := [[], [], [0, 0, 0, 0, 0, 0, 0, 0, 0]];
    var questions: seq<Prompt> := [[]];
    assert Longest(questions) == 0;
    var sizes := RequestSizes(bodies, questions, 1);
    assert sizes == [1, 1, 10];
    assert sizes[..2] == [1, 1] && sizes[..2][..1] == [1] && [1][..0] == [];
    assert Sum(sizes) == Sum(sizes[..2]) + 10 == 12;
  }

  /** Each document of an extraction: its body once, and each field's tail with its longest answer. */
  function FieldBlocks(tails: seq<Prompt>, answerTokens: nat, block: nat): nat
    requires block >= 1
  {
    if tails == [] then
      0
    else
      var last := tails[|tails| - 1];
      FieldBlocks(tails[..|tails| - 1], answerTokens, block) + Blocks(|last| + answerTokens + block, block)
  }

  /** What each document of an extraction needs: its body once, and all its fields. */
  function ExtractSizes(bodies: seq<Prompt>, tails: seq<Prompt>, answerTokens: nat, block: nat): (r: seq<nat>)
    requires block >= 1
    ensures |r| == |bodies|
  {
    seq(|bodies|, i requires 0 <= i < |bodies| => Blocks(|bodies[i]|, block) + FieldBlocks(tails, answerTokens, block))
  }

  /** The tokens of some fields with their longest answers. */
  function FieldTokens(tails: seq<Prompt>, answerTokens: nat): nat {
    if tails == [] then 0 else FieldTokens(tails[..|tails| - 1], answerTokens) + |tails[|tails| - 1]| + answerTokens
  }

  lemma OneBlockMore(n: nat, block: nat)
    ensures (n + 1) * block == n * block + block && 2 * (n + 1) * block == 2 * n * block + 2 * block
  {
  }

  /** The fields' blocks hold every tail and its longest answer, with at least a block to spare for each field and less
      than two. */
  lemma {:induction false} FieldsHold(tails: seq<Prompt>, answerTokens: nat, block: nat)
    requires block >= 1
    ensures FieldTokens(tails, answerTokens) + |tails| * block <= FieldBlocks(tails, answerTokens, block)
    ensures FieldBlocks(tails, answerTokens, block) <= FieldTokens(tails, answerTokens) + 2 * |tails| * block
  {
    if tails != [] {
      FieldsHold(tails[..|tails| - 1], answerTokens, block);
      OneBlockMore(|tails| - 1, block);
    }
  }

  lemma {:induction false} FieldsFill(tails: seq<Prompt>, answerTokens: nat, block: nat)
    requires block >= 1
    ensures Fills(FieldBlocks(tails, answerTokens, block), block)
  {
    if tails == [] {
      assert Fills(0, block);
    } else {
      var n := |tails| - 1;
      FieldsFill(tails[..n], answerTokens, block);
      BlocksFill(|tails[n]| + answerTokens + block, block);
      SumFills(FieldBlocks(tails[..n], answerTokens, block), Blocks(|tails[n]| + answerTokens + block, block), block);
    }
  }

  /** Documents of one size: those live at once, with all their fields, fit the budget, or there is only one. */
  lemma LiveExtractionsFit(bodies: seq<Prompt>, tails: seq<Prompt>, answerTokens: nat, budget: int, block: nat,
                           maxSeqs: Option<nat>, size: nat, live: nat)
    requires block >= 1 && tails != []
    requires forall i :: 0 <= i < |bodies| ==> ExtractSizes(bodies, tails, answerTokens, block)[i] == size
    requires live <= ExtractDocumentCap(bodies, tails, answerTokens, budget, block, maxSeqs)
    ensures live * size <= Max(budget, size)
  {
    if bodies != [] {
      var sizes := ExtractSizes(bodies, tails, answerTokens, block);
      FieldBlocksPositive(tails, answerTokens, block);
      EqualMean(sizes, size);
      assert sizes[0] == size >= 1;
      Quotient(budget, size, live);
    }
  }

  function ExtractDocumentCap(bodies: seq<Prompt>, tails: seq<Prompt>, answerTokens: nat, budget: int, block: nat,
                              maxSeqs: Option<nat>): (r: nat)
    requires block >= 1 && tails != []
    ensures bodies != [] ==> r >= 1
    ensures bodies != [] && maxSeqs.Some? && maxSeqs.value >= |tails| ==> r * |tails| <= maxSeqs.value
  {
    if bodies == [] then
      0
    else
      var sizes := ExtractSizes(bodies, tails, answerTokens, block);
      FieldBlocksPositive(tails, answerTokens, block);
      MeanPositive(sizes);
      var cap := Max(1, budget / (Sum(sizes) / |sizes|));
      if maxSeqs.None? then
        cap
      else
        var perDocument := maxSeqs.value / |tails|;
        CapFits(cap, perDocument, maxSeqs.value, |tails|);
        Min(cap, Max(1, perDocument))
  }

  lemma FieldBlocksPositive(tails: seq<Prompt>, answerTokens: nat, block: nat)
    requires block >= 1 && tails != []
    ensures FieldBlocks(tails, answerTokens, block) >= 1
  {
  }

  lemma CapFits(cap: int, perDocument: int, maxSeqs: nat, fields: nat)
    requires fields >= 1 && cap >= 1 && perDocument == maxSeqs / fields
    ensures maxSeqs >= fields ==> Min(cap, Max(1, perDocument)) * fields <= maxSeqs
  {
    if maxSeqs >= fields {
      Quotient(maxSeqs, fields, 1);
      Quotient(maxSeqs, fields, Min(cap, Max(1, perDocument)));
    }
  }
}
