/** What the schedulers call "engine": anything with add_request, abort_request and step. */
module Engines {
  import opened Prompts
  import opened Requests
  import opened EngineLog
  import opened Retrying

  /** One of these requests is delivered or from now on rerun, and all of them that are delivered can
      be read. */
  ghost predicate Replied(outputs: seq<Output>, mine: RequestId -> bool, before: set<RequestId>, after: set<RequestId>) {
    && (exists id :: mine(id) && Dealt(id, outputs, before, after))
    && forall i :: 0 <= i < |outputs| && mine(outputs[i].id) ==> !outputs[i].malformed
  }

  lemma HelpsAnswers(held: Held, turn: Turn, mine: RequestId -> bool)
    requires Productive(turn, mine) && exists id :: id in PromptsOf(held) && mine(id)
    ensures Emitted(held, turn).Ready? && Replied(Emitted(held, turn).outputs, mine, {}, {})
  {
    var outputs := Accepted(held, turn.propose(held));
    assert Holding(held, mine);
    var i :| 0 <= i < |outputs| && outputs[i].finished && mine(outputs[i].id);
    assert mine(outputs[i].id) && Dealt(outputs[i].id, outputs, {}, {});
  }

  /** The ids under which these requests can be in an engine. */
  ghost function Carriers(ids: set<RequestId>): set<RequestId> {
    ids + set o | o in ids :: Recompute(o)
  }

  datatype AnyEngine = Plain(engine: Engine) | Retry(retrying: RetryingEngine) {

    ghost function Inner(): Engine {
      match this
      case Plain(engine) => engine
      case Retry(retrying) => retrying.engine
    }

    ghost function Repr(): set<object> {
      match this
      case Plain(engine) => {engine}
      case Retry(retrying) => {retrying, retrying.engine}
    }

    /** The adversary's remaining turns. */
    ghost function Script(): seq<Turn>
      reads Inner()
    {
      Inner().script
    }

    /** What has happened in the inner engine, and what it holds. */
    ghost function Trace(): Trace
      reads Inner()
    {
      EngineLog.Trace(Inner().events, Inner().outstanding.Keys)
    }

    ghost predicate Valid()
      reads Repr()
    {
      match this
      case Plain(engine) => true
      case Retry(retrying) => retrying.Valid()
    }

    /** No output was lost on the way: false only after `Step` has raised. */
    ghost predicate Synced()
      reads Repr()
    {
      match this
      case Plain(engine) => true
      case Retry(retrying) => retrying.Synced()
    }

    /** The requests a user of this engine still waits for. */
    ghost function View(): View
      reads Repr()
    {
      match this
      case Plain(engine) => engine.View()
      case Retry(retrying) => retrying.View()
    }

    /** Requests in the inner engine that were not added through this one. */
    ghost function Strangers(): set<RequestId>
      reads Repr()
    {
      match this
      case Plain(engine) => {}
      case Retry(retrying) => retrying.Strangers()
    }

    /** Requests that have been sent twice: without their rows the first time. */
    ghost function Reruns(): set<RequestId>
      reads Repr()
    {
      match this
      case Plain(engine) => {}
      case Retry(retrying) => retrying.Reruns()
    }

    lemma RerunsInView()
      ensures Reruns() <= View().Keys
    {
    }

    /** How often a request may be sent. */
    function Tries(): nat {
      if Plain? then 1 else 2
    }

    /** A turn that answers one of these requests whenever there is one, without touching others. */
    ghost predicate Answering(turn: Turn, mine: RequestId -> bool) {
      match this
      case Plain(engine) => Productive(turn, mine)
      case Retry(retrying) => Productive(turn, WithReruns(mine)) && Faithful(turn, WithReruns(mine))
    }

    /** The next turn answers one of these requests. */
    ghost predicate Answerable(mine: RequestId -> bool)
      reads Repr()
    {
      && Script() != [] && Answering(Script()[0], mine)
      && (forall id :: id in Strangers() ==> !WithReruns(mine)(id))
      && exists id :: id in View() && mine(id)
    }

    ghost predicate MayAdd(id: RequestId)
      reads Repr()
    {
      && !id.Recompute?
      && match this
         case Plain(engine) => id !in engine.outstanding
         case Retry(retrying) => retrying.MayAdd(id)
    }

    lemma MayAddIsNew(id: RequestId)
      requires Valid() && MayAdd(id)
      ensures id !in View()
    {
    }

    /** What is waited for is in the inner engine, under its own id or its rerun's. */
    lemma ViewHeld(id: RequestId)
      requires Valid() && Synced() && id in View()
      ensures id in Inner().outstanding || (Retry? && Recompute(id) in Inner().outstanding)
    {
      if Retry? {
        assert Carrier(retrying.retries, id) in retrying.engine.outstanding;
      }
    }

    /** What the inner engine holds is a stranger's, or carries a request of the view. */
    lemma HeldWithin(strangers: set<RequestId>, ids: set<RequestId>, held: set<RequestId>)
      requires Valid() && Strangers() <= strangers <= held && View().Keys <= ids
      ensures Inner().outstanding.Keys <= held + Carriers(ids)
    {
    }

    lemma StrangersHeld()
      ensures Strangers() <= Inner().outstanding.Keys
    {
    }

    lemma AddableApart(id: RequestId)
      requires MayAdd(Base(id))
      ensures id !in Strangers()
    {
      assert id == Base(id) || id == Recompute(Base(id));
    }

    method AddRequest(id: RequestId, prompt: Prompt, uncached: bool)
      requires Valid() && Synced() && MayAdd(id)
      modifies Repr()
      ensures Valid() && Synced() && View() == old(View())[id := prompt]
      ensures Strangers() == old(Strangers()) && Script() == old(Script()) && Reruns() == old(Reruns())
      ensures Trace() == AfterQueue(old(Trace()), id)
      ensures forall x :: x != id && old(MayAdd(x)) ==> MayAdd(x)
    {
      match this
      case Plain(engine) =>
        engine.AddRequest(id, Request(prompt, uncached));
        assert engine.View() == old(engine.View())[id := prompt];
      case Retry(retrying) =>
        retrying.AddRequest(id, prompt, uncached);
    }

    method AbortRequest(ids: set<RequestId>)
      requires Valid()
      modifies Repr()
      ensures Valid() && View() == old(View()) - ids
      ensures Strangers() <= old(Strangers()) && Script() == old(Script())
      ensures Inner().events == old(Inner().events)
    {
      match this
      case Plain(engine) =>
        engine.AbortRequest(ids);
        assert engine.View() == old(engine.View()) - ids;
      case Retry(retrying) =>
        retrying.AbortRequest(ids);
    }

    /** Any legal batch for the requests still waited for; the finished ones leave the view. */
    method Step(ghost mine: RequestId -> bool) returns (batch: Batch, ghost shown: seq<Output>, ghost again: seq<RequestId>)
      requires Valid() && Synced()
      modifies Repr()
      ensures Valid() && Strangers() <= old(Strangers())
      ensures Script() == if old(Script()) == [] then [] else old(Script())[1..]
      ensures old(Script()) == [] ==> batch.Raised?
      ensures batch.Raised? ==> View().Keys <= old(View()).Keys
      ensures batch.Ready? ==> Synced() && Legal(old(View()), batch.outputs)
      ensures batch.Ready? ==> View() == old(View()) - FinishedIds(batch.outputs)
      ensures batch.Ready? && Retry? ==> forall o :: o in batch.outputs ==> o.finished && !o.missing
      ensures batch.Ready? ==> old(Reruns()) - FinishedIds(batch.outputs) <= Reruns()
      ensures old(Answerable(mine)) ==> batch.Ready? && Replied(batch.outputs, mine, old(Reruns()), Reruns())
      ensures forall x :: old(MayAdd(x)) ==> MayAdd(x)
      ensures Legal(PromptsOf(old(Inner().outstanding)), shown) && SentAgain(again, shown) && (Plain? ==> again == [])
      ensures Trace() == AfterReruns(AfterOutputs(old(Trace()), shown), again)
      ensures batch.Ready? ==> FinishedIds(batch.outputs) == AnswersOf(Retry?, shown)
    {
      match this
      case Plain(engine) =>
        ghost var good := Answerable(mine);
        batch := engine.Step();
        shown, again := if batch.Ready? then batch.outputs else [], [];
        NoReruns(Trace());
        if good {
          HelpsAnswers(old(engine.outstanding), old(engine.script)[0], mine);
        }
        if batch.Ready? {
          assert engine.View() == old(engine.View()) - FinishedIds(batch.outputs);
        }
      case Retry(retrying) =>
        batch, shown, again := retrying.Step(mine);
    }
  }
}
