/** Several prompts over every body in one shuffled generate call (`generate_answers`). */
module GenerateAnswers {
  import opened Prompts
  import opened Requests
  import opened DecisionClient
  import opened Sorting
  import opened Permutations

  datatype Sent = Unsent | Sent(outputs: seq<seq<Output>>)

  /** Prompts in body order, each body's specs together. */
  function BodyPrompts(bodies: seq<Prompt>, tails: seq<Prompt>): (r: seq<Prompt>)
    ensures |r| == |bodies| * |tails|
  {
    if bodies == [] then
      []
    else
      var n := |bodies| - 1;
      var before := BodyPrompts(bodies[..n], tails);
      assert |before| == n * |tails|;
      before + seq(|tails|, q requires 0 <= q < |tails| => bodies[n] + tails[q])
  }

  lemma {:induction false} PromptAt(bodies: seq<Prompt>, tails: seq<Prompt>, b: nat, q: nat)
    requires b < |bodies| && q < |tails|
    ensures 0 <= b * |tails| + q < |bodies| * |tails|
    ensures BodyPrompts(bodies, tails)[b * |tails| + q] == bodies[b] + tails[q]
  {
    var n := |bodies| - 1;
    assert |bodies| * |tails| == n * |tails| + |tails|;
    if b < n {
      PromptAt(bodies[..n], tails, b, q);
    }
  }

  /** Sorting the positions of a permutation by its values inverts it. */
  lemma ArgSortInverts(order: seq<int>)
    requires Permutes(order, |order|)
    ensures forall i :: 0 <= i < |order| ==> order[ArgSort(order)[i]] == i
  {
    var at := ArgSort(order);
    var sorted := Gather(order, at);
    OrderPermutes(at, |order|);
    forall i, j | 0 <= i < j < |sorted| ensures sorted[i] < sorted[j] {
      assert order[at[i]] <= order[at[j]] && at[i] != at[j];
      assert at[i] < at[j] || at[j] < at[i];
    }
    forall x ensures x in sorted <==> x in Iota(|order|) {
      if 0 <= x < |order| {
        assert x in order && Iota(|order|)[x] == x;
        var p :| 0 <= p < |order| && order[p] == x;
        assert p in at;
        var j :| 0 <= j < |at| && at[j] == p;
        assert sorted[j] == x;
      }
    }
    IncreasingUnique(sorted, Iota(|order|));
    assert forall i :: 0 <= i < |order| ==> sorted[i] == order[at[i]];
  }

  /** Every `stride`-th output from position q on. */
  function Strided(outputs: seq<Output>, q: nat, stride: nat, count: nat): (r: seq<Output>)
    requires q < stride && |outputs| == count * stride
    ensures |r| == count
  {
    seq(count, b requires 0 <= b < count => StridedAt(outputs, q, stride, count, b))
  }

  function StridedAt(outputs: seq<Output>, q: nat, stride: nat, count: nat, b: nat): Output
    requires q < stride && |outputs| == count * stride && b < count
  {
    StrideWithin(q, stride, count, b);
    outputs[b * stride + q]
  }

  lemma StrideWithin(q: nat, stride: nat, count: nat, b: nat)
    requires q < stride && b < count
    ensures 0 <= b * stride + q < count * stride
  {
    assert (b + 1) * stride <= count * stride;
  }

  /** Outputs in body order, told apart by spec. */
  function PerSpec(outputs: seq<Output>, stride: nat, count: nat): (r: seq<seq<Output>>)
    requires |outputs| == count * stride
    ensures |r| == stride && forall q :: 0 <= q < stride ==> |r[q]| == count
  {
    seq(stride, q requires 0 <= q < stride => Strided(outputs, q, stride, count))
  }

  /** Spec q's output for body b answers that body's prompt with that spec's tail. */
  ghost predicate SpecOutputs(bodies: seq<Prompt>, tails: seq<Prompt>, outputs: seq<seq<Output>>) {
    && |outputs| == |tails|
    && (forall q :: 0 <= q < |tails| ==> |outputs[q]| == |bodies|)
    && forall q, b :: 0 <= q < |tails| && 0 <= b < |bodies| ==> Answers(outputs[q][b], bodies[b] + tails[q])
  }

  ghost predicate AllReadable(outputs: seq<seq<Output>>) {
    forall q, b :: 0 <= q < |outputs| && 0 <= b < |outputs[q]| ==> !outputs[q][b].malformed
  }

  /** Gathering the outputs by the argsort of the sending order puts them in body order. */
  lemma Unshuffled(prompts: seq<Prompt>, order: seq<int>, shuffled: seq<Prompt>, sent: seq<Output>, outputs: seq<Output>)
    requires Permutes(order, |prompts|) && |sent| == |shuffled| == |order| == |outputs|
    requires forall k :: 0 <= k < |order| ==> shuffled[k] == prompts[order[k]]
    requires forall k :: 0 <= k < |order| ==> Answers(sent[k], shuffled[k])
    requires forall i :: 0 <= i < |order| ==> outputs[i] == sent[ArgSort(order)[i]]
    ensures forall i :: 0 <= i < |prompts| ==> Answers(outputs[i], prompts[i])
  {
    ArgSortInverts(order);
    var at := ArgSort(order);
    forall i | 0 <= i < |prompts| ensures Answers(outputs[i], prompts[i]) {
      assert Answers(sent[at[i]], shuffled[at[i]]);
    }
  }

  /** Send the prompts in some order; the outputs come back in prompt order. */
  method SendShuffled(client: Client, uncached: bool, prompts: seq<Prompt>, order: seq<int>)
    returns (ok: bool, outputs: seq<Output>)
    requires client.Valid()
    requires Permutes(order, |prompts|)
    modifies client`counter, client.engine
    ensures ok ==> client.Valid()
    ensures ok ==> |outputs| == |prompts| && forall i :: 0 <= i < |prompts| ==> Answers(outputs[i], prompts[i])
    ensures old(client.Served(2 * |prompts|)) ==> ok && forall o :: o in outputs ==> !o.malformed
  {
    var shuffled := seq(|order|, k requires 0 <= k < |order| => prompts[order[k]]);
    var sent := client.Generate(shuffled, uncached, 0);
    if sent.Propagated? {
      return false, [];
    }
    var at := ArgSort(order);
    ok, outputs := true, seq(|at|, i requires 0 <= i < |at| => sent.outputs[at[i]]);
    Unshuffled(prompts, order, shuffled, sent.outputs, outputs);
  }

  lemma BySpec(bodies: seq<Prompt>, tails: seq<Prompt>, outputs: seq<Output>)
    requires |outputs| == |bodies| * |tails|
    requires forall i :: 0 <= i < |outputs| ==> Answers(outputs[i], BodyPrompts(bodies, tails)[i])
    ensures SpecOutputs(bodies, tails, PerSpec(outputs, |tails|, |bodies|))
    ensures (forall o :: o in outputs ==> !o.malformed) ==> AllReadable(PerSpec(outputs, |tails|, |bodies|))
  {
    forall q, b | 0 <= q < |tails| && 0 <= b < |bodies|
      ensures SpecAnswered(bodies, tails, outputs, PerSpec(outputs, |tails|, |bodies|), q, b)
    {
      StridedAnswers(bodies, tails, outputs, b, q);
    }
    AllAnswered(bodies, tails, outputs, PerSpec(outputs, |tails|, |bodies|));
  }

  ghost predicate SpecAnswered(bodies: seq<Prompt>, tails: seq<Prompt>, outputs: seq<Output>, specs: seq<seq<Output>>,
                               q: nat, b: nat)
    requires q < |tails| && q < |specs| && b < |bodies| && b < |specs[q]|
  {
    Answers(specs[q][b], bodies[b] + tails[q]) && specs[q][b] in outputs
  }

  lemma AllAnswered(bodies: seq<Prompt>, tails: seq<Prompt>, outputs: seq<Output>, specs: seq<seq<Output>>)
    requires |specs| == |tails| && forall q :: 0 <= q < |tails| ==> |specs[q]| == |bodies|
    requires forall q, b :: 0 <= q < |tails| && 0 <= b < |bodies| ==> SpecAnswered(bodies, tails, outputs, specs, q, b)
    ensures SpecOutputs(bodies, tails, specs)
    ensures (forall o :: o in outputs ==> !o.malformed) ==> AllReadable(specs)
  {
    forall q, b | 0 <= q < |tails| && 0 <= b < |bodies| ensures Answers(specs[q][b], bodies[b] + tails[q]) {
      assert SpecAnswered(bodies, tails, outputs, specs, q, b);
    }
    forall q, b | 0 <= q < |tails| && 0 <= b < |specs[q]| ensures specs[q][b] in outputs {
      assert SpecAnswered(bodies, tails, outputs, specs, q, b);
    }
  }

  lemma StridedAnswers(bodies: seq<Prompt>, tails: seq<Prompt>, outputs: seq<Output>, b: nat, q: nat)
    requires |outputs| == |bodies| * |tails| && b < |bodies| && q < |tails|
    requires forall i :: 0 <= i < |outputs| ==> Answers(outputs[i], BodyPrompts(bodies, tails)[i])
    ensures SpecAnswered(bodies, tails, outputs, PerSpec(outputs, |tails|, |bodies|), q, b)
  {
    PromptAt(bodies, tails, b, q);
    assert PerSpec(outputs, |tails|, |bodies|)[q][b] == outputs[b * |tails| + q];
  }

  /** `generate_answers`: whatever order the prompts are sent in, each spec gets its outputs in body
      order.  An engine that answers some request in each turn makes it return outputs that can be
      read, in at most two turns per prompt. */
  method SendAnswers(client: Client, uncached: bool, bodies: seq<Prompt>, tails: seq<Prompt>,
                     order: seq<int>)
    returns (r: Sent)
    requires client.Valid()
    requires Permutes(order, |bodies| * |tails|)
    modifies client`counter, client.engine
    ensures r.Sent? ==> SpecOutputs(bodies, tails, r.outputs) && client.Valid()
    ensures old(client.Served(2 * (|bodies| * |tails|))) ==> r.Sent? && AllReadable(r.outputs)
  {
    var ok, outputs := SendShuffled(client, uncached, BodyPrompts(bodies, tails), order);
    if !ok {
      return Unsent;
    }
    r := Sent(PerSpec(outputs, |tails|, |bodies|));
    BySpec(bodies, tails, outputs);
  }
}
