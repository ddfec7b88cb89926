module Prompts {
  type Token = int
  type Prompt = seq<Token>
}

/** Requests, and an engine driven by an adversary.

    The engine keeps the outstanding requests and answers each `Step` from a script of turns chosen
    in advance by the adversary: raise, or look at the requests it holds and emit any finished and
    unfinished outputs for them, in any order.  Quantifying over the script quantifies over every
    engine behaviour; a script that runs out raises. */
module Requests {
  import opened Prompts

  /** Request ids.  `Numbered(d, s)` stands for "tag-d-s", `Recompute(x)` for "x-recompute"; the
      engine may also hold requests of other users. */
  datatype RequestId =
    | Numbered(document: nat, part: nat)
    | Direct(n: nat)
    | Foreign(n: nat)
    | Recompute(original: RequestId)

  datatype Request = Request(prompt: Prompt, uncached: bool)

  /** An output: `missing` rows came from the prefix cache; a `malformed` answer cannot be read. */
  datatype Output = Output(id: RequestId, prompt: Prompt, finished: bool, missing: bool, malformed: bool)

  datatype Proposal = Proposal(id: RequestId, finished: bool, missing: bool, malformed: bool)

  type Held = map<RequestId, Request>

  datatype Turn = Raise | Emit(propose: Held -> seq<Proposal>)

  datatype Batch = Raised | Ready(outputs: seq<Output>)

  type View = map<RequestId, Prompt>

  function FinishedIds(outputs: seq<Output>): set<RequestId> {
    set i | 0 <= i < |outputs| && outputs[i].finished :: outputs[i].id
  }

  /** Outputs an engine holding `view` may emit in one step: each of a request it holds, none after
      the request has finished. */
  ghost predicate Legal(view: View, outputs: seq<Output>) {
    && (forall i :: 0 <= i < |outputs| ==>
          outputs[i].id in view && outputs[i].prompt == view[outputs[i].id])
    && (forall i, j :: 0 <= i < j < |outputs| && outputs[i].finished ==> outputs[i].id != outputs[j].id)
  }

  lemma FinishedIdsAppend(outputs: seq<Output>, o: Output)
    ensures FinishedIds(outputs + [o]) == FinishedIds(outputs) + (if o.finished then {o.id} else {})
  {
    var all := outputs + [o];
    forall i | 0 <= i < |outputs| && outputs[i].finished ensures outputs[i].id in FinishedIds(all) {
      assert all[i] == outputs[i];
    }
    if o.finished { assert all[|outputs|].id in FinishedIds(all); }
  }

  lemma FinishedIdsTail(outputs: seq<Output>)
    requires outputs != []
    ensures FinishedIds(outputs)
      == FinishedIds(outputs[1..]) + (if outputs[0].finished then {outputs[0].id} else {})
  {
    var rest := outputs[1..];
    forall i | 0 <= i < |outputs| && outputs[i].finished
      ensures outputs[i].id in FinishedIds(rest) + {outputs[0].id}
    {
      if i > 0 { assert rest[i - 1] == outputs[i]; }
    }
    forall i | 0 <= i < |rest| && rest[i].finished ensures rest[i].id in FinishedIds(outputs) {
      assert outputs[i + 1] == rest[i];
    }
  }

  /** A legal batch stays legal when a request still held finishes. */
  lemma LegalAppend(view: View, outputs: seq<Output>, o: Output)
    requires Legal(view, outputs) && o.id in view && o.prompt == view[o.id]
    requires o.id !in FinishedIds(outputs)
    ensures Legal(view, outputs + [o])
    ensures o.finished ==> view - FinishedIds(outputs + [o]) == view - FinishedIds(outputs) - {o.id}
  {
    FinishedIdsAppend(outputs, o);
  }

  /** The requests that finish after position i, when the output at i does or does not finish. */
  lemma LegalTail(view: View, outputs: seq<Output>, i: nat)
    requires Legal(view, outputs) && i < |outputs|
    ensures outputs[i].finished ==>
      && outputs[i].id in FinishedIds(outputs[i..])
      && FinishedIds(outputs[i + 1..]) == FinishedIds(outputs[i..]) - {outputs[i].id}
    ensures !outputs[i].finished ==> FinishedIds(outputs[i + 1..]) == FinishedIds(outputs[i..])
  {
    FinishedIdsTail(outputs[i..]);
    assert outputs[i..][1..] == outputs[i + 1..];
  }

  lemma FinishOnce(view: View, outputs: seq<Output>, i: nat)
    requires Legal(view, outputs) && i < |outputs|
    ensures outputs[i].id !in FinishedIds(outputs[..i])
  {
  }

  function PromptsOf(held: Held): View {
    map id | id in held :: held[id].prompt
  }

  /** The proposals an engine can act on, in order. */
  function Accepted(held: Held, proposals: seq<Proposal>): (r: seq<Output>)
    ensures Legal(PromptsOf(held), r)
  {
    if proposals == [] then
      []
    else
      var n := |proposals| - 1;
      var (before, p) := (Accepted(held, proposals[..n]), proposals[n]);
      if p.id in held && p.id !in FinishedIds(before) then
        before + [Output(p.id, held[p.id].prompt, p.finished, p.missing, p.malformed)]
      else
        before
  }

  /** What the engine answers to one turn. */
  function Emitted(held: Held, turn: Turn): Batch {
    match turn
    case Raise => Raised
    case Emit(propose) => Ready(Accepted(held, propose(held)))
  }

  /** A request the engine holds finishes when some proposal of the turn finishes it. */
  lemma {:induction false} AcceptedFinishes(held: Held, proposals: seq<Proposal>, i: nat)
    requires i < |proposals| && proposals[i].finished && proposals[i].id in held
    ensures proposals[i].id in FinishedIds(Accepted(held, proposals))
  {
    var n := |proposals| - 1;
    var p := proposals[n];
    var before := Accepted(held, proposals[..n]);
    if i < n {
      AcceptedFinishes(held, proposals[..n], i);
    }
    if p.id in held && p.id !in FinishedIds(before) {
      FinishedIdsAppend(before, Output(p.id, held[p.id].prompt, p.finished, p.missing, p.malformed));
    }
  }

  /** Every output comes from a proposal. */
  lemma {:induction false} AcceptedFrom(held: Held, proposals: seq<Proposal>, o: Output)
    requires o in Accepted(held, proposals)
    ensures Proposal(o.id, o.finished, o.missing, o.malformed) in proposals
  {
    var n := |proposals| - 1;
    if o in Accepted(held, proposals[..n]) {
      AcceptedFrom(held, proposals[..n], o);
    } else {
      assert proposals[n] == Proposal(o.id, o.finished, o.missing, o.malformed);
    }
  }

  function Proposals(outputs: seq<Output>): seq<Proposal> {
    seq(|outputs|, i requires 0 <= i < |outputs| =>
      Proposal(outputs[i].id, outputs[i].finished, outputs[i].missing, outputs[i].malformed))
  }

  /** The adversary is complete: it can make the engine emit any legal batch. */
  lemma {:induction false} EveryLegalBatch(held: Held, outputs: seq<Output>)
    requires Legal(PromptsOf(held), outputs)
    ensures Accepted(held, Proposals(outputs)) == outputs
  {
    if outputs != [] {
      var n := |outputs| - 1;
      EveryLegalBatch(held, outputs[..n]);
      FinishOnce(PromptsOf(held), outputs, n);
      assert outputs[n].prompt == held[outputs[n].id].prompt;
      assert Proposals(outputs)[..n] == Proposals(outputs[..n]);
      assert outputs == outputs[..n] + [outputs[n]];
    } else {
      assert Proposals(outputs) == [];
    }
  }

  predicate IsNumbered(id: RequestId) {
    id.Numbered?
  }

  /** Outputs that help a user with these requests: one of them finishes, and all of them can be read. */
  ghost predicate Helps(outputs: seq<Output>, mine: RequestId -> bool) {
    && (exists i :: 0 <= i < |outputs| && outputs[i].finished && mine(outputs[i].id))
    && forall i :: 0 <= i < |outputs| && mine(outputs[i].id) ==> !outputs[i].malformed
  }

  /** The engine holds one of these requests. */
  ghost predicate Holding(held: Held, mine: RequestId -> bool) {
    exists id :: id in held && mine(id)
  }

  /** A turn that helps whenever the engine holds one of these requests. */
  ghost predicate Productive(turn: Turn, mine: RequestId -> bool) {
    turn.Emit? && forall held: Held {:trigger turn.propose(held)} ::
      Holding(held, mine) ==> Helps(Accepted(held, turn.propose(held)), mine)
  }

  /** A turn that finishes nobody else's requests, and keeps the rows of requests run without the
      prefix cache. */
  ghost predicate Faithful(turn: Turn, mine: RequestId -> bool) {
    turn.Emit? && forall held: Held {:trigger turn.propose(held)} ::
      KeepsRows(held, Accepted(held, turn.propose(held)), mine)
  }

  ghost predicate KeepsRows(held: Held, outputs: seq<Output>, mine: RequestId -> bool) {
    forall i :: 0 <= i < |outputs| && outputs[i].finished ==>
      mine(outputs[i].id) && outputs[i].id in held && (outputs[i].missing ==> !held[outputs[i].id].uncached)
  }

  /** The request an id stands for. */
  function Base(id: RequestId): RequestId {
    if id.Recompute? then id.original else id
  }

  /** These requests, and the reruns of them. */
  function WithReruns(mine: RequestId -> bool): RequestId -> bool {
    id => mine(Base(id))
  }

  /** Finish every one of these requests. */
  ghost function FinishAll(ids: set<RequestId>, mine: RequestId -> bool): (r: seq<Proposal>)
    ensures forall i :: 0 <= i < |r| ==> mine(r[i].id) && r[i] == Proposal(r[i].id, true, false, false)
    ensures forall id :: id in ids && mine(id) ==> Proposal(id, true, false, false) in r
  {
    if ids == {} then
      []
    else
      var id :| id in ids;
      FinishAll(ids - {id}, mine) + if mine(id) then [Proposal(id, true, false, false)] else []
  }

  /** An engine can answer: a turn that finishes everything of the user's is productive and faithful. */
  lemma FinishingAnswers(mine: RequestId -> bool)
    ensures Productive(Emit((held: Held) => FinishAll(held.Keys, mine)), mine)
    ensures Faithful(Emit((held: Held) => FinishAll(held.Keys, mine)), mine)
  {
    forall held: Held ensures KeepsRows(held, Accepted(held, FinishAll(held.Keys, mine)), mine) {
      FinishedOnly(held, mine);
    }
    forall held: Held | Holding(held, mine) ensures Helps(Accepted(held, FinishAll(held.Keys, mine)), mine) {
      FinishedOnly(held, mine);
      var proposals := FinishAll(held.Keys, mine);
      var id :| id in held && mine(id);
      var i :| 0 <= i < |proposals| && proposals[i] == Proposal(id, true, false, false);
      AcceptedFinishes(held, proposals, i);
    }
  }

  lemma FinishedOnly(held: Held, mine: RequestId -> bool)
    ensures forall o :: o in Accepted(held, FinishAll(held.Keys, mine)) ==>
      mine(o.id) && o.id in held && !o.missing && !o.malformed
  {
    forall o | o in Accepted(held, FinishAll(held.Keys, mine)) ensures mine(o.id) && !o.missing && !o.malformed {
      AcceptedFrom(held, FinishAll(held.Keys, mine), o);
    }
  }

  /** What an engine's user can see happen. */
  datatype EngineEvent = Queued(id: RequestId) | Shown(id: RequestId, finished: bool, missing: bool) | Stepped

  function ShownAs(o: Output): EngineEvent {
    Shown(o.id, o.finished, o.missing)
  }

  /** The outputs of a batch, as events. */
  function ShownBy(outputs: seq<Output>): (r: seq<EngineEvent>)
    ensures |r| == |outputs| && forall i :: 0 <= i < |r| ==> r[i] == ShownAs(outputs[i])
  {
    seq(|outputs|, i requires 0 <= i < |outputs| => ShownAs(outputs[i]))
  }

  class Engine {
    var outstanding: Held
    var script: seq<Turn>
    ghost var sent: multiset<RequestId>
    ghost var events: seq<EngineEvent>

    constructor (script: seq<Turn>)
      ensures outstanding == map[] && this.script == script && sent == multiset{} && events == []
    {
      outstanding, sent, events := map[], multiset{}, [];
      this.script := script;
    }

    ghost function View(): View
      reads this
    {
      PromptsOf(outstanding)
    }

    method AddRequest(id: RequestId, request: Request)
      requires id !in outstanding
      modifies this
      ensures outstanding == old(outstanding)[id := request]
      ensures script == old(script) && sent == old(sent) + multiset{id} && events == old(events) + [Queued(id)]
    {
      outstanding := outstanding[id := request];
      sent := sent + multiset{id};
      events := events + [Queued(id)];
    }

    method AbortRequest(ids: set<RequestId>)
      modifies this
      ensures outstanding == old(outstanding) - ids
      ensures script == old(script) && sent == old(sent) && events == old(events)
    {
      outstanding := outstanding - ids;
    }

    /** One turn of the script: proposals for requests the engine does not hold are dropped. */
    method Step() returns (batch: Batch)
      modifies this
      ensures sent == old(sent)
      ensures script == if old(script) == [] then [] else old(script)[1..]
      ensures old(script) == [] ==> batch.Raised?
      ensures batch.Raised? ==> outstanding == old(outstanding)
      ensures old(script) != [] ==> batch == Emitted(old(outstanding), old(script)[0])
      ensures batch.Ready? ==> outstanding == old(outstanding) - FinishedIds(batch.outputs)
      ensures events == old(events) + [Stepped] + (if batch.Ready? then ShownBy(batch.outputs) else [])
    {
      events := events + [Stepped];
      if script == [] {
        return Raised;
      }
      var turn := script[0];
      script := script[1..];
      if turn.Raise? {
        return Raised;
      }
      var proposals := turn.propose(outstanding);
      var outputs := [];
      for i := 0 to |proposals|
        modifies this`outstanding
        invariant outputs == Accepted(old(outstanding), proposals[..i])
        invariant outstanding == old(outstanding) - FinishedIds(outputs)
      {
        var p := proposals[i];
        assert proposals[..i + 1][..i] == proposals[..i];
        if p.id in outstanding {
          var o := Output(p.id, outstanding[p.id].prompt, p.finished, p.missing, p.malformed);
          FinishedIdsAppend(outputs, o);
          outputs := outputs + [o];
          if p.finished {
            outstanding := outstanding - {p.id};
          }
        }
      }
      assert proposals[..|proposals|] == proposals;
      batch := Ready(outputs);
      events := events + ShownBy(outputs);
    }
  }
}
