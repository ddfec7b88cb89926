/** The decision client (`VLLMDecisionClient`): it pools every prompt and returns outputs in prompt order. */
module DecisionClient {
  import opened Common
  import opened Prompts
  import opened Requests
  import opened EngineLog
  import opened Retrying

  datatype Generated = Propagated | Generated(outputs: seq<Output>)

  /** The ids of one generate call: n ids from `first` on. */
  predicate Owned(first: nat, n: nat, id: RequestId) {
    id.Direct? && first <= id.n < first + n
  }

  /** Every submitted request is either waited for under its own prompt, or done with its own prompt. */
  ghost predicate Split(prompts: seq<Prompt>, first: nat, n: nat, view: View, done: map<RequestId, Output>)
    requires n <= |prompts|
  {
    && (forall id :: id in view ==> Owned(first, n, id) && id !in done && view[id] == prompts[id.n - first])
    && (forall id :: id in done ==> Owned(first, n, id) && Answers(done[id], prompts[id.n - first]))
    && (forall id :: Owned(first, n, id) ==> id in view || id in done)
  }

  predicate Answers(o: Output, prompt: Prompt) {
    o.prompt == prompt && o.finished && !o.missing
  }

  lemma SplitAdd(prompts: seq<Prompt>, first: nat, n: nat, view: View)
    requires n < |prompts| && Split(prompts, first, n, view, map[])
    ensures Split(prompts, first, n + 1, view[Direct(first + n) := prompts[n]], map[])
  {
  }

  lemma SplitOutput(prompts: seq<Prompt>, first: nat, n: nat, view: View, done: map<RequestId, Output>, o: Output)
    requires n <= |prompts| && Split(prompts, first, n, view, done)
    requires o.id in view && Answers(o, view[o.id])
    ensures Split(prompts, first, n, view - {o.id}, done[o.id := o])
  {
  }

  function Ids(first: nat, n: nat): (r: set<RequestId>)
    ensures forall id :: id in r <==> Owned(first, n, id)
  {
    if n == 0 then {} else Ids(first, n - 1) + {Direct(first + n - 1)}
  }

  lemma {:induction false} OwnedSize(first: nat, n: nat, ids: set<RequestId>)
    requires forall id :: id in ids <==> Owned(first, n, id)
    ensures |ids| == n
  {
    if n == 0 {
      assert ids == {};
    } else {
      var last := Direct(first + n - 1);
      OwnedSize(first, n - 1, ids - {last});
      assert last in ids;
    }
  }

  /** All requests are done once as many outputs as prompts have arrived. */
  lemma AllDone(prompts: seq<Prompt>, first: nat, view: View, done: map<RequestId, Output>)
    requires Split(prompts, first, |prompts|, view, done) && |done.Keys| >= |prompts|
    ensures view == map[]
    ensures forall i :: 0 <= i < |prompts| ==> DoneAt(prompts, first, done, i)
  {
    var ids := Ids(first, |prompts|);
    OwnedSize(first, |prompts|, ids);
    assert done.Keys <= ids;
    SubsetFull(done.Keys, ids);
    assert view.Keys <= ids - done.Keys;
    forall i | 0 <= i < |prompts| ensures DoneAt(prompts, first, done, i) {
      assert Owned(first, |prompts|, Direct(first + i));
    }
  }

  /** Prompt i has its own output. */
  predicate DoneAt(prompts: seq<Prompt>, first: nat, done: map<RequestId, Output>, i: nat)
    requires i < |prompts|
  {
    Direct(first + i) in done && Answers(done[Direct(first + i)], prompts[i])
  }

  ghost predicate AllRead(done: map<RequestId, Output>) {
    forall id :: id in done ==> !done[id].malformed
  }

  /** The outputs of the first n prompts, in prompt order. */
  function InOrder(prompts: seq<Prompt>, first: nat, done: map<RequestId, Output>, n: nat): (r: seq<Output>)
    requires n <= |prompts| && forall i :: 0 <= i < |prompts| ==> DoneAt(prompts, first, done, i)
    ensures |r| == n && forall i :: 0 <= i < n ==> Answers(r[i], prompts[i])
    ensures AllRead(done) ==> forall i :: 0 <= i < n ==> !r[i].malformed
  {
    if n == 0 then
      []
    else
      assert DoneAt(prompts, first, done, n - 1);
      InOrder(prompts, first, done, n - 1) + [done[Direct(first + n - 1)]]
  }

  lemma SubsetFull<T>(a: set<T>, b: set<T>)
    requires a <= b && |a| >= |b|
    ensures a == b
  {
    assert b == a + (b - a) && |b| == |a| + |b - a|;
  }

  /** The ids of a client that has used up those below `first`. */
  function DirectFrom(first: nat): RequestId -> bool {
    (id: RequestId) => id.Direct? && id.n >= first
  }

  /** Every turn answers a request of the client, if there is one, and there are enough turns. */
  ghost predicate KeepsAnswering(engine: Engine, first: nat, turns: nat)
    reads engine
  {
    && |engine.script| >= turns
    && (forall turn :: turn in engine.script ==> Productive(turn, WithReruns(DirectFrom(first))))
    && (forall turn :: turn in engine.script ==> Faithful(turn, WithReruns(DirectFrom(first))))
  }

  /** The engine holds no requests with ids of the client that it has not issued. */
  ghost predicate Apart(strangers: set<RequestId>, first: nat) {
    forall id :: id in strangers ==> !WithReruns(DirectFrom(first))(id)
  }

  lemma StrangersApart(view: RetryingEngine, first: nat)
    requires view.Valid() && Free(view, first)
    ensures Apart(view.Strangers(), first)
  {
    forall id | WithReruns(DirectFrom(first))(id) ensures id !in view.Strangers() {
      assert Base(id) == Direct(Base(id).n);
      assert id == Base(id) || id == Recompute(Base(id));
    }
  }

  /** How many turns a call can still take when each answers one request: two for a request, or one
      when it is already being rerun. */
  ghost function Remaining(waiting: set<RequestId>, reruns: set<RequestId>): nat {
    |waiting| + |waiting - reruns|
  }

  /** Answering or rerunning a request leaves fewer turns to take. */
  lemma AnsweringShrinks(waiting: set<RequestId>, outputs: seq<Output>, before: set<RequestId>, after: set<RequestId>,
                         mine: RequestId -> bool)
    requires Replies(outputs, mine, before, after) && FinishedIds(outputs) <= waiting
    requires before - FinishedIds(outputs) <= after <= waiting - FinishedIds(outputs)
    ensures Remaining(waiting - FinishedIds(outputs), after) < Remaining(waiting, before)
  {
    var done := FinishedIds(outputs);
    var id :| mine(id) && Dealt(id, outputs, before, after);
    var (left, fresh0, fresh1) := (waiting - done, waiting - before, waiting - done - after);
    SubsetSize(left, waiting);
    SubsetSize(fresh1, fresh0);
    if id in done {
      SubsetSize(left, waiting - {id});
    } else {
      SubsetSize(fresh1, fresh0 - {id});
    }
  }

  lemma StepShrinks(view: View, left: View, outputs: seq<Output>, before: set<RequestId>, after: set<RequestId>,
                    mine: RequestId -> bool)
    requires Legal(view, outputs) && left == view - FinishedIds(outputs) && Replies(outputs, mine, before, after)
    requires before - FinishedIds(outputs) <= after <= left.Keys
    ensures Remaining(left.Keys, after) < Remaining(view.Keys, before)
  {
    assert left.Keys == view.Keys - FinishedIds(outputs);
    AnsweringShrinks(view.Keys, outputs, before, after, mine);
  }

  /** `done[output.request_id] = output` for the outputs of one step. */
  method Collect(prompts: seq<Prompt>, ghost first: nat, ghost view: View, done: map<RequestId, Output>,
                 outputs: seq<Output>)
    returns (collected: map<RequestId, Output>)
    requires Split(prompts, first, |prompts|, view, done) && Legal(view, outputs)
    requires forall o :: o in outputs ==> o.finished && !o.missing
    ensures Split(prompts, first, |prompts|, view - FinishedIds(outputs), collected)
    ensures AllRead(done) && (forall o :: o in outputs ==> !o.malformed) ==> AllRead(collected)
  {
    collected := done;
    assert FinishedIds(outputs[..0]) == {} && view - {} == view;
    for i := 0 to |outputs|
      invariant Split(prompts, first, |prompts|, view - FinishedIds(outputs[..i]), collected)
      invariant AllRead(done) && (forall o :: o in outputs ==> !o.malformed) ==> AllRead(collected)
    {
      var o := outputs[i];
      NotFinishedYet(view, outputs, i);
      SplitOutput(prompts, first, |prompts|, view - FinishedIds(outputs[..i]), collected, o);
      ViewWithout(view, outputs, i);
      collected := collected[o.id := o];
    }
    assert outputs[..|outputs|] == outputs;
  }

  lemma ViewWithout(view: View, outputs: seq<Output>, i: nat)
    requires i < |outputs| && outputs[i].finished
    ensures view - FinishedIds(outputs[..i + 1]) == view - FinishedIds(outputs[..i]) - {outputs[i].id}
  {
    TakeNext(outputs, i);
    FinishedIdsAppend(outputs[..i], outputs[i]);
  }

  lemma NotFinishedYet(view: View, outputs: seq<Output>, i: nat)
    requires Legal(view, outputs) && i < |outputs|
    ensures outputs[i].id !in FinishedIds(outputs[..i]) && outputs[i].id in view
    ensures outputs[i].prompt == view[outputs[i].id]
  {
  }

  lemma GrowIds(ids: set<RequestId>, first: nat, n: nat)
    ensures ids + Ids(first, n + 1) == ids + Ids(first, n) + {Direct(first + n)}
  {
  }

  lemma NoIds(ids: set<RequestId>, first: nat)
    ensures ids + Ids(first, 0) == ids
  {
  }

  /** The first n prompts have been submitted to an engine that held `held`. */
  ghost predicate Submitted(view: RetryingEngine, counter: nat, prompts: seq<Prompt>, n: nat, held: set<RequestId>)
    requires n <= |prompts|
    reads view, view.engine
  {
    && view.Valid() && view.Synced() && view.Balanced() && Split(prompts, counter, n, view.View(), map[])
    && view.engine.outstanding.Keys == held + Ids(counter, n) && view.issued == Ids(counter, n)
  }

  /** The ids from `from` on are free. */
  ghost predicate Free(view: RetryingEngine, from: nat)
    reads view, view.engine
  {
    forall n: nat :: n >= from ==> view.MayAdd(Direct(n))
  }

  method SubmitNext(view: RetryingEngine, counter: nat, prompts: seq<Prompt>, i: nat, uncached: bool,
                    ghost held: set<RequestId>)
    requires i < |prompts| && Submitted(view, counter, prompts, i, held) && Free(view, counter + i)
    modifies view, view.engine
    ensures Submitted(view, counter, prompts, i + 1, held)
    ensures view.Strangers() == old(view.Strangers()) && view.engine.script == old(view.engine.script)
    ensures Free(view, counter + i + 1)
  {
    SplitAdd(prompts, counter, i, view.View());
    GrowIds(held, counter, i);
    view.AddRequest(Direct(counter + i), prompts[i], uncached);
  }

  /** Submit every prompt. */
  method SubmitAll(view: RetryingEngine, counter: nat, prompts: seq<Prompt>, uncached: bool)
    requires Submitted(view, counter, prompts, 0, view.engine.outstanding.Keys)
    requires Free(view, counter)
    modifies view, view.engine
    ensures Submitted(view, counter, prompts, |prompts|, old(view.engine.outstanding).Keys)
    ensures view.Strangers() <= old(view.Strangers()) && view.engine.script == old(view.engine.script)
  {
    for i := 0 to |prompts|
      invariant Submitted(view, counter, prompts, i, old(view.engine.outstanding).Keys)
      invariant Free(view, counter + i)
      invariant view.Strangers() <= old(view.Strangers()) && view.engine.script == old(view.engine.script)
    {
      SubmitNext(view, counter, prompts, i, uncached, old(view.engine.outstanding).Keys);
    }
  }

  /** One engine step into `done`. */
  method StepInto(view: RetryingEngine, ghost first: nat, ghost counter: nat, prompts: seq<Prompt>,
                  done: map<RequestId, Output>)
    returns (ok: bool, collected: map<RequestId, Output>)
    requires view.Valid() && view.Synced() && Split(prompts, counter, |prompts|, view.View(), done) && view.Balanced()
    modifies view, view.engine
    ensures view.engine.script == if old(view.engine.script) == [] then [] else old(view.engine.script)[1..]
    ensures old(view.engine.script) == [] ==> !ok
    ensures old(view.engine.script == [] || view.engine.script[0].Raise?) ==>
      !ok && view.engine.outstanding == old(view.engine.outstanding)
    ensures view.Valid() && view.Strangers() <= old(view.Strangers()) && view.View().Keys <= old(view.View()).Keys
    ensures view.issued == old(view.issued) && view.Balanced()
    ensures ok ==> view.Synced() && Split(prompts, counter, |prompts|, view.View(), collected)
    ensures old(view.Answerable(DirectFrom(first))) ==>
      && ok && (AllRead(done) ==> AllRead(collected))
      && Remaining(view.View().Keys, view.Reruns()) < Remaining(old(view.View()).Keys, old(view.Reruns()))
  {
    ghost var (good, before) := (view.Answerable(DirectFrom(first)), view.View());
    var batch, _, _ := view.Step(DirectFrom(first));
    if batch.Raised? {
      return false, done;
    }
    collected := Collect(prompts, counter, before, done, batch.outputs);
    ok := true;
    if good {
      StepShrinks(before, view.View(), batch.outputs, old(view.Reruns()), view.Reruns(), DirectFrom(first));
    }
  }

  /** While a request is waited for, an answering engine answers. */
  lemma WaitsAnswerable(view: RetryingEngine, first: nat, counter: nat, prompts: seq<Prompt>,
                        done: map<RequestId, Output>, turns: nat)
    requires first <= counter && Split(prompts, counter, |prompts|, view.View(), done)
    requires KeepsAnswering(view.engine, first, turns)
    requires turns >= 1 && |done.Keys| < |prompts| && Apart(view.Strangers(), first)
    ensures view.Answerable(DirectFrom(first))
  {
    var ids := Ids(counter, |prompts|);
    OwnedSize(counter, |prompts|, ids);
    assert done.Keys <= ids && done.Keys != ids;
    var id :| id in ids && id !in done;
    assert Owned(counter, |prompts|, id) && id in view.View() && DirectFrom(first)(id);
  }

  lemma StartRemaining(prompts: seq<Prompt>, counter: nat, view: View, reruns: set<RequestId>)
    requires Split(prompts, counter, |prompts|, view, map[])
    ensures view.Keys == Ids(counter, |prompts|) && Remaining(view.Keys, reruns) <= 2 * |prompts|
  {
    assert forall id :: id in view <==> Owned(counter, |prompts|, id);
    OwnedSize(counter, |prompts|, view.Keys);
    SubsetSize(view.Keys - reruns, view.Keys);
  }

  lemma WaitingTakes(prompts: seq<Prompt>, counter: nat, view: View, done: map<RequestId, Output>, reruns: set<RequestId>)
    requires Split(prompts, counter, |prompts|, view, done) && |done.Keys| < |prompts|
    ensures Remaining(view.Keys, reruns) >= 1
  {
    var ids := Ids(counter, |prompts|);
    OwnedSize(counter, |prompts|, ids);
    assert done.Keys <= ids;
    assert view.Keys == {} ==> done.Keys == ids;
  }

  /** Every turn to come answers a request, and there are enough for what is still waited for, with
      some to spare. */
  ghost predicate Answering(view: RetryingEngine, first: nat, spare: nat)
    reads view, view.engine
  {
    KeepsAnswering(view.engine, first, spare + Remaining(view.View().Keys, view.Reruns()))
  }

  /** One engine step while requests are waited for. */
  method Await(view: RetryingEngine, ghost first: nat, ghost spare: nat, ghost counter: nat, prompts: seq<Prompt>,
               done: map<RequestId, Output>)
    returns (ok: bool, collected: map<RequestId, Output>)
    requires view.Valid() && view.Synced() && Split(prompts, counter, |prompts|, view.View(), done) && view.Balanced()
    requires |done.Keys| < |prompts| && Apart(view.Strangers(), first) && first <= counter
    modifies view, view.engine
    ensures view.engine.script == if old(view.engine.script) == [] then [] else old(view.engine.script)[1..]
    ensures old(view.engine.script) == [] ==> !ok
    ensures old(view.engine.script == [] || view.engine.script[0].Raise?) ==>
      !ok && view.engine.outstanding == old(view.engine.outstanding)
    ensures view.Valid() && view.Strangers() <= old(view.Strangers()) && view.View().Keys <= old(view.View()).Keys
    ensures view.issued == old(view.issued) && view.Balanced()
    ensures ok ==> view.Synced() && Split(prompts, counter, |prompts|, view.View(), collected)
    ensures old(Answering(view, first, spare)) ==>
      ok && Answering(view, first, spare) && (AllRead(done) ==> AllRead(collected))
  {
    if Answering(view, first, spare) {
      WaitingTakes(prompts, counter, view.View(), done, view.Reruns());
      WaitsAnswerable(view, first, counter, prompts, done, spare + Remaining(view.View().Keys, view.Reruns()));
    }
    ok, collected := StepInto(view, first, counter, prompts, done);
  }

  /** Step the engine until every request is done. */
  method AwaitAll(view: RetryingEngine, ghost first: nat, ghost spare: nat, ghost counter: nat, prompts: seq<Prompt>)
    returns (ok: bool, done: map<RequestId, Output>)
    requires view.Valid() && view.Synced() && Split(prompts, counter, |prompts|, view.View(), map[]) && view.Balanced()
    requires Apart(view.Strangers(), first) && first <= counter
    modifies view, view.engine
    ensures view.Valid() && view.Strangers() <= old(view.Strangers()) && view.View().Keys <= old(view.View()).Keys
    ensures view.issued == old(view.issued) && view.Balanced()
    ensures ok ==> Split(prompts, counter, |prompts|, view.View(), done) && |done.Keys| >= |prompts|
    ensures old(Answering(view, first, spare)) ==> ok && AllRead(done) && Answering(view, first, spare)
    ensures prompts != [] && old(view.engine.script == [] || view.engine.script[0].Raise?) ==>
      !ok && view.engine.outstanding == old(view.engine.outstanding)
  {
    ghost var live := Answering(view, first, spare);
    ghost var raises := view.engine.script == [] || view.engine.script[0].Raise?;
    ok, done := true, map[];
    while |done.Keys| < |prompts|
      invariant ok && view.Valid() && view.Synced() && Split(prompts, counter, |prompts|, view.View(), done)
      invariant view.Strangers() <= old(view.Strangers()) && view.View().Keys <= old(view.View()).Keys
      invariant view.issued == old(view.issued) && view.Balanced()
      invariant live ==> AllRead(done) && Answering(view, first, spare)
      invariant raises ==> done == map[] && view.engine.script == old(view.engine.script)
      invariant raises ==> view.engine.outstanding == old(view.engine.outstanding)
      decreases |view.engine.script|
    {
      ok, done := Await(view, first, spare, counter, prompts, done);
      if !ok {
        return;
      }
    }
  }

  /** Send the prompts through a new view, and collect the outputs in prompt order. */
  method Pool(view: RetryingEngine, ghost first: nat, ghost spare: nat, counter: nat, prompts: seq<Prompt>, uncached: bool)
    returns (r: Generated)
    requires view.Valid() && view.Synced() && view.View() == map[] && view.Balanced() && view.issued == {}
    requires first <= counter && Free(view, first)
    modifies view, view.engine
    ensures view.Balanced() && view.issued == Ids(counter, |prompts|)
    ensures r.Generated? ==> |r.outputs| == |prompts| && view.View() == map[]
    ensures r.Generated? ==> forall i :: 0 <= i < |prompts| ==> Answers(r.outputs[i], prompts[i])
    ensures view.Valid() && view.Strangers() <= old(view.Strangers())
    ensures old(KeepsAnswering(view.engine, first, spare + 2 * |prompts|)) ==>
      && KeepsAnswering(view.engine, first, spare)
      && r.Generated? && forall i :: 0 <= i < |prompts| ==> !r.outputs[i].malformed
    ensures prompts != [] && old(view.engine.script == [] || view.engine.script[0].Raise?) ==>
      r.Propagated? && view.engine.outstanding.Keys == old(view.engine.outstanding).Keys + Ids(counter, |prompts|)
  {
    ghost var live := KeepsAnswering(view.engine, first, spare + 2 * |prompts|);
    StrangersApart(view, first);
    NoIds(view.engine.outstanding.Keys, counter);
    SubmitAll(view, counter, prompts, uncached);
    StartRemaining(prompts, counter, view.View(), view.Reruns());
    assert live ==> Answering(view, first, spare);
    var ok, done := AwaitAll(view, first, spare, counter, prompts);
    if !ok {
      return Propagated;
    }
    AllDone(prompts, counter, view.View(), done);
    r := Generated(InOrder(prompts, counter, done, |prompts|));
  }

  /** The request operations of a decision model on one engine. */
  class Client {
    const engine: Engine
    /** The last id used. */
    var counter: nat
    /** Ids from here on are the client's. */
    ghost const first: nat

    constructor (engine: Engine, counter: nat)
      requires forall n: nat :: n > counter ==> Direct(n) !in engine.outstanding && Recompute(Direct(n)) !in engine.outstanding
      ensures Valid() && this.engine == engine && this.counter == counter
    {
      this.engine, this.counter, first := engine, counter, counter + 1;
    }

    /** The engine holds no request of the client. */
    ghost predicate Valid()
      reads this, engine
    {
      && first <= counter + 1
      && forall n: nat :: n >= first ==> Direct(n) !in engine.outstanding && Recompute(Direct(n)) !in engine.outstanding
    }

    /** Every turn answers a request of the client, if there is one, and there are enough turns. */
    ghost predicate Served(turns: nat)
      reads this, engine
    {
      KeepsAnswering(engine, first, turns)
    }

    /** `generate`: pool each prompt; return the outputs in prompt order.  An engine that answers some
        request of the client in each turn makes it return outputs that can be read, in at most two
        turns per prompt.  Nothing is aborted when it does not return: what stays is exactly those of its requests
        and their reruns that the engine has not finished; if the engine raises at once, all of them. */
    method Generate(prompts: seq<Prompt>, uncached: bool, ghost spare: nat) returns (r: Generated)
      requires Valid()
      modifies this`counter, engine
      ensures r.Generated? ==> |r.outputs| == |prompts|
      ensures r.Generated? ==> forall i :: 0 <= i < |prompts| ==> Answers(r.outputs[i], prompts[i])
      ensures r.Generated? ==> Valid() && engine.outstanding.Keys <= old(engine.outstanding).Keys
      ensures old(Served(spare + 2 * |prompts|)) ==>
        && Served(spare)
        && r.Generated? && forall i :: 0 <= i < |prompts| ==> !r.outputs[i].malformed
      ensures prompts != [] && old(engine.script == [] || engine.script[0].Raise?) ==>
        r.Propagated? && engine.outstanding.Keys == old(engine.outstanding).Keys + Ids(old(counter) + 1, |prompts|)
      ensures |old(engine.events)| <= |engine.events|
      ensures Ledger(Ids(old(counter) + 1, |prompts|), old(engine.outstanding).Keys,
                     engine.events[|old(engine.events)|..], engine.outstanding.Keys)
    {
      var view := new RetryingEngine(engine);
      var from := counter + 1;
      counter := counter + |prompts|;
      r := Pool(view, first, spare, from, prompts, uncached);
      if r.Generated? {
        NothingLeft(view);
      }
    }

    lemma NothingLeft(view: RetryingEngine)
      requires view.Valid() && view.View() == map[]
      ensures view.engine.outstanding.Keys <= view.Strangers()
    {
      assert view.prompts.Keys == view.View().Keys;
      assert view.prompts == map[];
    }
  }
}
