/** The engine view that reruns a request whose trailing rows came from the prefix cache. */
module Retrying {
  import opened Common
  import opened Prompts
  import opened Requests
  import opened EngineLog

  type Retries = map<RequestId, RequestId>

  predicate Rerun(retries: Retries, o: RequestId) {
    Recompute(o) in retries
  }

  /** The id under which the engine holds request o, and the one it must not hold. */
  function Carrier(retries: Retries, o: RequestId): RequestId {
    if Rerun(retries, o) then Recompute(o) else o
  }

  function Idle(retries: Retries, o: RequestId): RequestId {
    if Rerun(retries, o) then o else Recompute(o)
  }

  /** The two dictionaries belong together; `issued` are the ids ever added. */
  ghost predicate Linked(prompts: Held, retries: Retries, issued: set<RequestId>, held: Held) {
    && (forall r :: r in retries ==>
          r == Recompute(retries[r]) && retries[r] in prompts && prompts[retries[r]].uncached)
    && (forall o :: o in prompts ==> !o.Recompute? && o in issued && Idle(retries, o) !in held)
  }

  /** Every request of the view is in the engine, or its output is due: `due` holds the prompts of
      the outputs that are still to come from the current step. */
  ghost predicate InEngine(prompts: Held, retries: Retries, held: Held, due: View) {
    && due.Keys !! held.Keys
    && forall o :: o in prompts ==>
         && Idle(retries, o) !in due
         && if Carrier(retries, o) in held then held[Carrier(retries, o)] == prompts[o]
            else Carrier(retries, o) in due && due[Carrier(retries, o)] == prompts[o].prompt
  }

  /** Requests in the engine that are not the view's. */
  ghost function StrangersOf(prompts: Held, retries: Retries, held: Held): set<RequestId> {
    set id | id in held && id !in retries && !(id in prompts && !Rerun(retries, id))
  }

  /** How often request o may have reached the engine through the view so far. */
  function SendLimit(prompts: Held, retries: Retries, issued: set<RequestId>, o: RequestId): nat {
    if o !in issued then 0
    else if o in prompts && !Rerun(retries, o) && !prompts[o].uncached then 1
    else 2
  }

  function Sends(sent: multiset<RequestId>, o: RequestId): nat {
    sent[o] + sent[Recompute(o)]
  }

  ghost predicate Counted(prompts: Held, retries: Retries, issued: set<RequestId>,
                          before: multiset<RequestId>, sent: multiset<RequestId>)
  {
    forall o: RequestId {:trigger Sends(sent, o)} ::
      o.Recompute? || Sends(sent, o) <= Sends(before, o) + SendLimit(prompts, retries, issued, o)
  }

  lemma AddLinked(prompts: Held, retries: Retries, issued: set<RequestId>, held: Held, id: RequestId, r: Request)
    requires Linked(prompts, retries, issued, held) && InEngine(prompts, retries, held, map[])
    requires !id.Recompute? && id !in issued && id !in held && Recompute(id) !in held
    ensures Linked(prompts[id := r], retries, issued + {id}, held[id := r])
    ensures InEngine(prompts[id := r], retries, held[id := r], map[])
    ensures StrangersOf(prompts[id := r], retries, held[id := r]) == StrangersOf(prompts, retries, held)
  {
  }

  lemma AddCounted(prompts: Held, retries: Retries, issued: set<RequestId>, before: multiset<RequestId>,
                   sent: multiset<RequestId>, id: RequestId, r: Request)
    requires Counted(prompts, retries, issued, before, sent)
    requires forall x :: x in prompts ==> x in issued
    requires forall x :: x in retries ==> x.Recompute? && x.original in prompts
    requires !id.Recompute? && id !in issued
    ensures Counted(prompts[id := r], retries, issued + {id}, before, sent + multiset{id})
  {
    forall o: RequestId | !o.Recompute?
      ensures Sends(sent + multiset{id}, o)
        <= Sends(before, o) + SendLimit(prompts[id := r], retries, issued + {id}, o)
    {
      assert Sends(sent, o) <= Sends(before, o) + SendLimit(prompts, retries, issued, o);
    }
  }

  lemma AbortOk(prompts: Held, retries: Retries, issued: set<RequestId>, held: Held, ids: set<RequestId>,
                rerun: set<RequestId>)
    requires Linked(prompts, retries, issued, held)
    requires rerun == set r | r in retries && retries[r] in ids
    ensures Linked(prompts - ids, retries - rerun, issued, held - (ids + rerun))
    ensures StrangersOf(prompts - ids, retries - rerun, held - (ids + rerun)) <= StrangersOf(prompts, retries, held)
  {
  }

  lemma AbortCounted(prompts: Held, retries: Retries, issued: set<RequestId>, before: multiset<RequestId>,
                     sent: multiset<RequestId>, ids: set<RequestId>, rerun: set<RequestId>)
    requires Counted(prompts, retries, issued, before, sent)
    requires forall x :: x in rerun ==> x.Recompute? && x.original in ids
    ensures Counted(prompts - ids, retries - rerun, issued, before, sent)
  {
  }

  /** The request an output answers. */
  function OriginalOf(retries: Retries, output: RequestId): RequestId {
    if output in retries then retries[output] else output
  }

  lemma OriginalCarried(prompts: Held, retries: Retries, issued: set<RequestId>, held: Held, due: View, output: RequestId)
    requires Linked(prompts, retries, issued, held) && InEngine(prompts, retries, held, due)
    requires output in due && OriginalOf(retries, output) in prompts
    ensures Carrier(retries, OriginalOf(retries, output)) == output
    ensures due[output] == prompts[OriginalOf(retries, output)].prompt
  {
  }

  /** Forgetting a request whose output arrived. */
  lemma DropLinked(prompts: Held, retries: Retries, issued: set<RequestId>, held: Held, due: View, o: RequestId)
    requires Linked(prompts, retries, issued, held) && InEngine(prompts, retries, held, due)
    requires o in prompts && Carrier(retries, o) in due
    ensures Linked(prompts - {o}, retries - {Carrier(retries, o)}, issued, held)
  {
  }

  lemma DropInEngine(prompts: Held, retries: Retries, issued: set<RequestId>, held: Held, due: View, o: RequestId)
    requires Linked(prompts, retries, issued, held) && InEngine(prompts, retries, held, due)
    requires o in prompts && Carrier(retries, o) in due
    ensures InEngine(prompts - {o}, retries - {Carrier(retries, o)}, held, due - {Carrier(retries, o)})
  {
  }

  lemma DropStrangers(prompts: Held, retries: Retries, issued: set<RequestId>, held: Held, due: View, o: RequestId)
    requires Linked(prompts, retries, issued, held) && InEngine(prompts, retries, held, due)
    requires o in prompts && Carrier(retries, o) in due
    ensures StrangersOf(prompts - {o}, retries - {Carrier(retries, o)}, held) == StrangersOf(prompts, retries, held)
  {
  }

  lemma DropCounted(prompts: Held, retries: Retries, issued: set<RequestId>, held: Held,
                    before: multiset<RequestId>, sent: multiset<RequestId>, o: RequestId)
    requires Linked(prompts, retries, issued, held) && Counted(prompts, retries, issued, before, sent)
    requires o in prompts
    ensures Counted(prompts - {o}, retries - {Carrier(retries, o)}, issued, before, sent)
  {
  }

  /** Running a request again without the prefix cache. */
  lemma RetryLinked(prompts: Held, retries: Retries, issued: set<RequestId>, held: Held, due: View, o: RequestId, r: Request)
    requires Linked(prompts, retries, issued, held) && InEngine(prompts, retries, held, due)
    requires o in prompts && Carrier(retries, o) in due && !prompts[o].uncached && r.uncached
    ensures Carrier(retries, o) == o && Recompute(o) !in held
    ensures Linked(prompts[o := r], retries[Recompute(o) := o], issued, held[Recompute(o) := r])
  {
  }

  lemma RetryInEngine(prompts: Held, retries: Retries, issued: set<RequestId>, held: Held, due: View, o: RequestId, r: Request)
    requires Linked(prompts, retries, issued, held) && InEngine(prompts, retries, held, due)
    requires o in prompts && o in due && !Rerun(retries, o)
    ensures InEngine(prompts[o := r], retries[Recompute(o) := o], held[Recompute(o) := r], due - {o})
  {
  }

  lemma RetryStrangers(prompts: Held, retries: Retries, issued: set<RequestId>, held: Held, o: RequestId, r: Request)
    requires Linked(prompts, retries, issued, held) && o in prompts && o !in held && !Rerun(retries, o)
    ensures StrangersOf(prompts[o := r], retries[Recompute(o) := o], held[Recompute(o) := r])
      == StrangersOf(prompts, retries, held)
  {
  }

  lemma RetryCounted(prompts: Held, retries: Retries, issued: set<RequestId>, held: Held,
                     before: multiset<RequestId>, sent: multiset<RequestId>, o: RequestId, r: Request)
    requires Linked(prompts, retries, issued, held) && Counted(prompts, retries, issued, before, sent)
    requires o in prompts && !prompts[o].uncached && r.uncached
    ensures Counted(prompts[o := r], retries[Recompute(o) := o], issued, before, sent + multiset{Recompute(o)})
  {
    forall x: RequestId | !x.Recompute?
      ensures Sends(sent + multiset{Recompute(o)}, x)
        <= Sends(before, x) + SendLimit(prompts[o := r], retries[Recompute(o) := o], issued, x)
    {
      assert Sends(sent, x) <= Sends(before, x) + SendLimit(prompts, retries, issued, x);
    }
  }

  /** The requests that are being rerun. */
  ghost function RerunsOf(prompts: Held, retries: Retries): set<RequestId> {
    set o | o in prompts && Rerun(retries, o)
  }

  /** Every output still to come is a stranger's, or answers a request of the view, which has not changed
      since the engine held `was`. */
  ghost predicate Known(prompts: Held, retries: Retries, due: View, was: Held, strange: set<RequestId>) {
    forall id :: id in due ==> id in was && KnownAs(prompts, OriginalOf(retries, id), was, strange, id)
  }

  ghost predicate KnownAs(prompts: Held, o: RequestId, was: Held, strange: set<RequestId>, id: RequestId)
    requires id in was
  {
    if id in strange then o !in prompts else o in prompts && prompts[o] == was[id]
  }

  lemma KnownBase(prompts: Held, retries: Retries, issued: set<RequestId>, held: Held, id: RequestId)
    requires Linked(prompts, retries, issued, held) && OriginalOf(retries, id) in prompts
    ensures OriginalOf(retries, id) == Base(id)
  {
  }

  /** What the engine holds is known. */
  lemma KnownAtFirst(prompts: Held, retries: Retries, issued: set<RequestId>, held: Held, due: View)
    requires Linked(prompts, retries, issued, held) && InEngine(prompts, retries, held, map[])
    requires due.Keys <= held.Keys
    ensures Known(prompts, retries, due, held, StrangersOf(prompts, retries, held))
  {
    var strange := StrangersOf(prompts, retries, held);
    forall id | id in due ensures KnownAs(prompts, OriginalOf(retries, id), held, strange, id) {
      if id in strange {
        assert id !in retries && (id in prompts ==> Idle(retries, id) == id);
      } else {
        assert Carrier(retries, OriginalOf(retries, id)) == id;
      }
    }
  }

  /** Another output answers another request. */
  lemma KnownElsewhere(prompts: Held, retries: Retries, issued: set<RequestId>, held: Held, due: View, was: Held,
                       strange: set<RequestId>, o: RequestId, id: RequestId)
    requires Linked(prompts, retries, issued, held) && InEngine(prompts, retries, held, due)
    requires Known(prompts, retries, due, was, strange) && o in prompts && id in due && id != Carrier(retries, o)
    ensures OriginalOf(retries, id) != o && id in was && KnownAs(prompts, OriginalOf(retries, id), was, strange, id)
  {
    if id !in strange {
      OriginalCarried(prompts, retries, issued, held, due, id);
    }
  }

  lemma KnownDropped(prompts: Held, retries: Retries, due: View, was: Held, strange: set<RequestId>, o: RequestId,
                     c: RequestId)
    requires forall id :: id in due && id != c ==>
      OriginalOf(retries, id) != o && id in was && KnownAs(prompts, OriginalOf(retries, id), was, strange, id)
    ensures Known(prompts - {o}, retries - {c}, due - {c}, was, strange)
  {
  }

  lemma DropKnown(prompts: Held, retries: Retries, issued: set<RequestId>, held: Held, due: View, was: Held,
                  strange: set<RequestId>, o: RequestId)
    requires Linked(prompts, retries, issued, held) && InEngine(prompts, retries, held, due)
    requires o in prompts && Carrier(retries, o) in due && Known(prompts, retries, due, was, strange)
    ensures Known(prompts - {o}, retries - {Carrier(retries, o)}, due - {Carrier(retries, o)}, was, strange)
  {
    forall id | id in due && id != Carrier(retries, o)
      ensures OriginalOf(retries, id) != o && id in was && KnownAs(prompts, OriginalOf(retries, id), was, strange, id)
    {
      KnownElsewhere(prompts, retries, issued, held, due, was, strange, o, id);
    }
    KnownDropped(prompts, retries, due, was, strange, o, Carrier(retries, o));
  }

  lemma DropReruns(prompts: Held, retries: Retries, issued: set<RequestId>, held: Held, o: RequestId)
    requires Linked(prompts, retries, issued, held) && o in prompts
    ensures RerunsOf(prompts - {o}, retries - {Carrier(retries, o)}) == RerunsOf(prompts, retries) - {o}
  {
  }

  lemma DropPrompt(prompts: Held, o: RequestId)
    ensures PromptsOf(prompts - {o}) == PromptsOf(prompts) - {o}
  {
  }

  lemma DropState(prompts: Held, retries: Retries, issued: set<RequestId>, held: Held, due: View,
                  before: multiset<RequestId>, sent: multiset<RequestId>, o: RequestId)
    requires Linked(prompts, retries, issued, held) && InEngine(prompts, retries, held, due)
    requires Counted(prompts, retries, issued, before, sent) && o in prompts && Carrier(retries, o) in due
    ensures Linked(prompts - {o}, retries - {Carrier(retries, o)}, issued, held)
    ensures InEngine(prompts - {o}, retries - {Carrier(retries, o)}, held, due - {Carrier(retries, o)})
    ensures StrangersOf(prompts - {o}, retries - {Carrier(retries, o)}, held) == StrangersOf(prompts, retries, held)
    ensures Counted(prompts - {o}, retries - {Carrier(retries, o)}, issued, before, sent)
    ensures RerunsOf(prompts - {o}, retries - {Carrier(retries, o)}) == RerunsOf(prompts, retries) - {o}
    ensures PromptsOf(prompts - {o}) == PromptsOf(prompts) - {o}
  {
    DropPrompt(prompts, o);
    DropLinked(prompts, retries, issued, held, due, o);
    DropInEngine(prompts, retries, issued, held, due, o);
    DropStrangers(prompts, retries, issued, held, due, o);
    DropCounted(prompts, retries, issued, held, before, sent, o);
    DropReruns(prompts, retries, issued, held, o);
  }

  lemma KnownRetried(prompts: Held, retries: Retries, due: View, was: Held, strange: set<RequestId>, o: RequestId,
                     r: Request)
    requires o in prompts && Recompute(o) !in due && forall id :: id in due && id != o ==>
      OriginalOf(retries, id) != o && id in was && KnownAs(prompts, OriginalOf(retries, id), was, strange, id)
    ensures Known(prompts[o := r], retries[Recompute(o) := o], due - {o}, was, strange)
  {
  }

  lemma RetryKnown(prompts: Held, retries: Retries, issued: set<RequestId>, held: Held, due: View, was: Held,
                   strange: set<RequestId>, o: RequestId, r: Request)
    requires Linked(prompts, retries, issued, held) && InEngine(prompts, retries, held, due)
    requires o in prompts && o in due && !Rerun(retries, o) && Known(prompts, retries, due, was, strange)
    ensures Known(prompts[o := r], retries[Recompute(o) := o], due - {o}, was, strange)
  {
    forall id | id in due && id != o
      ensures OriginalOf(retries, id) != o && id in was && KnownAs(prompts, OriginalOf(retries, id), was, strange, id)
    {
      KnownElsewhere(prompts, retries, issued, held, due, was, strange, o, id);
    }
    KnownRetried(prompts, retries, due, was, strange, o, r);
  }

  lemma RetryState(prompts: Held, retries: Retries, issued: set<RequestId>, held: Held, due: View,
                   before: multiset<RequestId>, sent: multiset<RequestId>, o: RequestId, r: Request)
    requires Linked(prompts, retries, issued, held) && InEngine(prompts, retries, held, due)
    requires Counted(prompts, retries, issued, before, sent)
    requires o in prompts && Carrier(retries, o) in due && !prompts[o].uncached && r.uncached
    ensures Carrier(retries, o) == o && Recompute(o) !in held && o in issued
    ensures Linked(prompts[o := r], retries[Recompute(o) := o], issued, held[Recompute(o) := r])
    ensures InEngine(prompts[o := r], retries[Recompute(o) := o], held[Recompute(o) := r], due - {o})
    ensures Counted(prompts[o := r], retries[Recompute(o) := o], issued, before, sent + multiset{Recompute(o)})
  {
    RetryLinked(prompts, retries, issued, held, due, o, r);
    RetryCounted(prompts, retries, issued, held, before, sent, o, r);
    RetryInEngine(prompts, retries, issued, held, due, o, r);
  }

  lemma RetryView(prompts: Held, retries: Retries, issued: set<RequestId>, held: Held, due: View, was: Held,
                  strange: set<RequestId>, o: RequestId, r: Request)
    requires Linked(prompts, retries, issued, held) && InEngine(prompts, retries, held, due)
    requires o in prompts && o in due && !Rerun(retries, o) && r.prompt == prompts[o].prompt
    ensures PromptsOf(prompts[o := r]) == PromptsOf(prompts)
    ensures StrangersOf(prompts[o := r], retries[Recompute(o) := o], held[Recompute(o) := r])
      == StrangersOf(prompts, retries, held)
    ensures RerunsOf(prompts[o := r], retries[Recompute(o) := o]) == RerunsOf(prompts, retries) + {o}
    ensures o !in RerunsOf(prompts, retries)
    ensures Known(prompts, retries, due, was, strange) ==>
      Known(prompts[o := r], retries[Recompute(o) := o], due - {o}, was, strange)
  {
    RetryStrangers(prompts, retries, issued, held, o, r);
    RetryReruns(prompts, retries, o, r);
    PutPrompt(prompts, o, r);
    if Known(prompts, retries, due, was, strange) {
      RetryKnown(prompts, retries, issued, held, due, was, strange, o, r);
    }
  }

  lemma RetryReruns(prompts: Held, retries: Retries, o: RequestId, r: Request)
    requires o in prompts && !Rerun(retries, o)
    ensures RerunsOf(prompts[o := r], retries[Recompute(o) := o]) == RerunsOf(prompts, retries) + {o}
    ensures o !in RerunsOf(prompts, retries)
  {
  }

  lemma PutPrompt(prompts: Held, id: RequestId, r: Request)
    ensures PromptsOf(prompts[id := r]) == PromptsOf(prompts)[id := r.prompt]
    ensures id in prompts && prompts[id].prompt == r.prompt ==> PromptsOf(prompts[id := r]) == PromptsOf(prompts)
  {
  }

  lemma AddReruns(prompts: Held, retries: Retries, issued: set<RequestId>, held: Held, id: RequestId, r: Request)
    requires Linked(prompts, retries, issued, held) && id !in issued
    ensures RerunsOf(prompts[id := r], retries) == RerunsOf(prompts, retries)
  {
  }

  /** The view cannot take a finished output that is a stranger's, or lacks its rows after a run without the
      prefix cache. */
  ghost predicate Fails(o: Output, was: Held, strange: set<RequestId>) {
    o.finished && o.id in was && (o.id in strange || (o.missing && was[o.id].uncached))
  }

  ghost predicate AnyFails(outputs: seq<Output>, was: Held, strange: set<RequestId>) {
    exists i :: 0 <= i < |outputs| && Fails(outputs[i], was, strange)
  }

  /** Whoever else uses the engine can make the view raise: it is enough that their request finishes. */
  lemma StrangerFails(held: Held, strange: set<RequestId>, id: RequestId)
    requires id in held && id in strange
    ensures var turn := Emit((now: Held) => [Proposal(id, true, false, false)]);
      Emitted(held, turn).Ready? && AnyFails(Emitted(held, turn).outputs, held, strange)
  {
    var proposals := [Proposal(id, true, false, false)];
    AcceptedFinishes(held, proposals, 0);
    var outputs := Accepted(held, proposals);
    var i :| 0 <= i < |outputs| && outputs[i].finished && outputs[i].id == id;
    assert Fails(outputs[i], held, strange);
  }

  /** The engine holds what it held before and what it was sent since, less what it has finished; the view sent its
      requests, and nothing else but reruns of them. */
  ghost predicate Ledger(issued: set<RequestId>, before: set<RequestId>, log: Log, now: set<RequestId>) {
    forall id :: LedgerAt(issued, before, log, now, id)
  }

  ghost predicate LedgerAt(issued: set<RequestId>, before: set<RequestId>, log: Log, now: set<RequestId>, id: RequestId) {
    && (id in now <==> id in HeldAfter(before, log))
    && (id in issued ==> id in SentIn(log))
    && (id in SentIn(log) ==> Base(id) in issued)
  }

  lemma LedgerStart(held: set<RequestId>)
    ensures Ledger({}, held, [], held)
  {
  }

  lemma LedgerAdd(issued: set<RequestId>, more: set<RequestId>, before: set<RequestId>, log: Log, now: set<RequestId>,
                  id: RequestId)
    requires Ledger(issued, before, log, now)
    requires issued <= more <= issued + {id} && Base(id) in more
    ensures Ledger(more, before, log + [Queued(id)], now + {id})
  {
    LogNext(log, Queued(id));
    HeldNext(before, log, Queued(id));
    forall x ensures LedgerAt(more, before, log + [Queued(id)], now + {id}, x) {
      assert LedgerAt(issued, before, log, now, x);
    }
  }

  lemma LedgerStep(issued: set<RequestId>, before: set<RequestId>, log: Log, now: set<RequestId>, outputs: seq<Output>)
    requires Ledger(issued, before, log, now)
    ensures Ledger(issued, before, log + [Stepped] + ShownBy(outputs), now - FinishedIds(outputs))
  {
    LogNext(log, Stepped);
    HeldNext(before, log, Stepped);
    BatchLogged(log + [Stepped], outputs);
    HeldBatch(before, log + [Stepped], outputs);
    forall x ensures LedgerAt(issued, before, log + [Stepped] + ShownBy(outputs), now - FinishedIds(outputs), x) {
      assert LedgerAt(issued, before, log, now, x);
    }
  }

  /** What one finished output of the engine turns into. */
  datatype Arrival = Failed | Rescheduled | Delivered(output: Output)

  /** The requests that finish in a step, as the engine held them. */
  ghost function DueOf(was: Held, outputs: seq<Output>): View {
    map id | id in FinishedIds(outputs) && id in was :: was[id].prompt
  }

  lemma DueNext(was: Held, outputs: seq<Output>, i: nat)
    requires Legal(PromptsOf(was), outputs) && i < |outputs|
    ensures outputs[i].finished ==>
      && outputs[i].id in DueOf(was, outputs[i..]) && DueOf(was, outputs[i..])[outputs[i].id] == outputs[i].prompt
      && DueOf(was, outputs[i + 1..]) == DueOf(was, outputs[i..]) - {outputs[i].id}
    ensures !outputs[i].finished ==> DueOf(was, outputs[i + 1..]) == DueOf(was, outputs[i..])
  {
    LegalTail(PromptsOf(was), outputs, i);
  }

  /** A step moves the requests it finishes out of the engine. */
  lemma StepInEngine(prompts: Held, retries: Retries, issued: set<RequestId>, was: Held, outputs: seq<Output>)
    requires Linked(prompts, retries, issued, was) && InEngine(prompts, retries, was, map[]) && Legal(PromptsOf(was), outputs)
    ensures DueOf(was, outputs).Keys == FinishedIds(outputs)
    ensures InEngine(prompts, retries, was - FinishedIds(outputs), DueOf(was, outputs))
    ensures forall id :: id in DueOf(was, outputs) ==> DueOf(was, outputs)[id] == PromptsOf(was)[id]
  {
    forall o | o in prompts
      ensures Idle(retries, o) !in was && Carrier(retries, o) in was && was[Carrier(retries, o)] == prompts[o]
    {
    }
  }

  /** A finished request was delivered, or is being rerun from now on. */
  ghost predicate Dealt(id: RequestId, ready: seq<Output>, before: set<RequestId>, after: set<RequestId>) {
    id in FinishedIds(ready) || (id in after && id !in before)
  }

  /** Every finished output was handled, and what is delivered is what arrived. */
  ghost predicate AllHandled(outputs: seq<Output>, ready: seq<Output>, before: set<RequestId>, after: set<RequestId>) {
    && (forall i :: 0 <= i < |outputs| && outputs[i].finished ==> Dealt(Base(outputs[i].id), ready, before, after))
    && (forall i :: 0 <= i < |ready| ==> Arrived(ready[i], outputs))
  }

  ghost predicate Arrived(o: Output, outputs: seq<Output>) {
    exists i :: 0 <= i < |outputs| && outputs[i].finished && Base(outputs[i].id) == o.id
      && outputs[i].malformed == o.malformed
  }

  /** One of these requests is delivered or from now on rerun, and all that are delivered can be read. */
  ghost predicate Replies(ready: seq<Output>, mine: RequestId -> bool, before: set<RequestId>, after: set<RequestId>) {
    && (exists id :: mine(id) && Dealt(id, ready, before, after))
    && forall i :: 0 <= i < |ready| ==> !ready[i].malformed
  }

  lemma HandledMore(outputs: seq<Output>, o: Output, ready: seq<Output>, more: seq<Output>, before: set<RequestId>,
                    reruns: set<RequestId>, after: set<RequestId>)
    requires AllHandled(outputs, ready, before, reruns) && o.finished
    requires more == ready || more == ready + [o.(id := Base(o.id))]
    requires Dealt(Base(o.id), more, before, after)
    requires forall id :: Dealt(id, ready, before, reruns) ==> Dealt(id, more, before, after)
    ensures AllHandled(outputs + [o], more, before, after)
  {
    forall i | 0 <= i < |more| ensures Arrived(more[i], outputs + [o]) {
      if i < |ready| {
        ArrivedMore(ready[i], outputs, o);
      } else {
        assert (outputs + [o])[|outputs|] == o;
      }
    }
  }

  lemma HandledSkip(outputs: seq<Output>, o: Output, ready: seq<Output>, before: set<RequestId>, after: set<RequestId>)
    requires AllHandled(outputs, ready, before, after) && !o.finished
    ensures AllHandled(outputs + [o], ready, before, after)
  {
    forall i | 0 <= i < |ready| ensures Arrived(ready[i], outputs + [o]) {
      ArrivedMore(ready[i], outputs, o);
    }
  }

  lemma ArrivedMore(o: Output, outputs: seq<Output>, next: Output)
    requires Arrived(o, outputs)
    ensures Arrived(o, outputs + [next])
  {
    var i :| 0 <= i < |outputs| && outputs[i].finished && Base(outputs[i].id) == o.id
      && outputs[i].malformed == o.malformed;
    assert (outputs + [next])[i] == outputs[i];
  }

  lemma AnswerableArrives(prompts: Held, retries: Retries, issued: set<RequestId>, was: Held, turn: Turn,
                          mine: RequestId -> bool)
    requires Linked(prompts, retries, issued, was) && InEngine(prompts, retries, was, map[])
    requires Productive(turn, WithReruns(mine)) && Faithful(turn, WithReruns(mine))
    requires forall id :: id in StrangersOf(prompts, retries, was) ==> !WithReruns(mine)(id)
    requires exists id :: id in prompts && mine(id)
    ensures var outputs := Emitted(was, turn).outputs;
      && !AnyFails(outputs, was, StrangersOf(prompts, retries, was)) && Helps(outputs, WithReruns(mine))
      && KeepsRows(was, outputs, WithReruns(mine))
  {
    var outputs := Accepted(was, turn.propose(was));
    var id :| id in prompts && mine(id);
    assert Base(Carrier(retries, id)) == id;
    assert WithReruns(mine)(Carrier(retries, id)) && Carrier(retries, id) in was;
    assert Holding(was, WithReruns(mine));
  }

  lemma HandledAnswers(outputs: seq<Output>, ready: seq<Output>, mine: RequestId -> bool, before: set<RequestId>,
                       after: set<RequestId>)
    requires AllHandled(outputs, ready, before, after) && Helps(outputs, WithReruns(mine))
    requires forall i :: 0 <= i < |outputs| && outputs[i].finished ==> WithReruns(mine)(outputs[i].id)
    ensures Replies(ready, mine, before, after)
  {
    var k :| 0 <= k < |outputs| && outputs[k].finished && WithReruns(mine)(outputs[k].id);
    assert mine(Base(outputs[k].id)) && Dealt(Base(outputs[k].id), ready, before, after);
    forall i | 0 <= i < |ready| ensures !ready[i].malformed {
      assert Arrived(ready[i], outputs);
    }
  }

  /** The state in which a step starts to deliver. */
  datatype Entry = Entry(view: View, reruns: set<RequestId>, strangers: set<RequestId>, script: seq<Turn>,
                         issued: set<RequestId>, keys: set<RequestId>)

  class RetryingEngine {
    const engine: Engine
    var prompts: Held
    var retries: Retries
    var recomputed: nat
    ghost var issued: set<RequestId>
    ghost const sentBefore: multiset<RequestId>
    ghost const heldBefore: set<RequestId>
    ghost const eventsBefore: nat

    constructor (engine: Engine)
      ensures this.engine == engine && Valid() && Synced() && View() == map[]
      ensures issued == {} && sentBefore == engine.sent && Strangers() == engine.outstanding.Keys
      ensures heldBefore == engine.outstanding.Keys && eventsBefore == |engine.events| && Balanced()
    {
      this.engine := engine;
      prompts, retries, recomputed := map[], map[], 0;
      issued, sentBefore := {}, engine.sent;
      heldBefore, eventsBefore := engine.outstanding.Keys, |engine.events|;
      new;
      LedgerStart(heldBefore);
      assert this.engine.events[eventsBefore..] == [];
    }

    ghost predicate Valid()
      reads this, engine
    {
      && Linked(prompts, retries, issued, engine.outstanding)
      && Counted(prompts, retries, issued, sentBefore, engine.sent)
    }

    ghost predicate Synced()
      reads this, engine
    {
      InEngine(prompts, retries, engine.outstanding, map[])
    }

    /** Nothing of the view was aborted: the engine's events since the view was made say what it holds. */
    ghost predicate Balanced()
      reads this, engine
    {
      && eventsBefore <= |engine.events|
      && Ledger(issued, heldBefore, engine.events[eventsBefore..], engine.outstanding.Keys)
    }

    lemma EventsMore(events: seq<EngineEvent>, more: seq<EngineEvent>)
      requires eventsBefore <= |events|
      ensures (events + more)[eventsBefore..] == events[eventsBefore..] + more
    {
    }

    /** The requests a user of this view still waits for. */
    ghost function View(): View
      reads this
    {
      PromptsOf(prompts)
    }

    ghost function Strangers(): set<RequestId>
      reads this, engine
    {
      StrangersOf(prompts, retries, engine.outstanding)
    }

    ghost predicate MayAdd(id: RequestId)
      reads this, engine
    {
      !id.Recompute? && id !in issued && id !in engine.outstanding && Recompute(id) !in engine.outstanding
    }

    /** Rerun ids this view may have added to the engine. */
    ghost function RerunIds(): set<RequestId>
      reads this
    {
      set o | o in issued :: Recompute(o)
    }

    /** Requests of the view that are being rerun. */
    ghost function Reruns(): set<RequestId>
      reads this
    {
      RerunsOf(prompts, retries)
    }

    method AddRequest(id: RequestId, prompt: Prompt, uncached: bool)
      requires Valid() && Synced() && MayAdd(id)
      modifies this, engine
      ensures Valid() && Synced() && View() == old(View())[id := prompt]
      ensures Strangers() == old(Strangers()) && engine.script == old(engine.script)
      ensures issued == old(issued) + {id} && Reruns() == old(Reruns())
      ensures engine.outstanding.Keys == old(engine.outstanding).Keys + {id}
      ensures engine.events == old(engine.events) + [Queued(id)]
      ensures forall x :: x != id && old(MayAdd(x)) ==> MayAdd(x)
      ensures old(Balanced()) ==> Balanced()
    {
      if Balanced() {
        EventsMore(engine.events, [Queued(id)]);
        LedgerAdd(issued, issued + {id}, heldBefore, engine.events[eventsBefore..], engine.outstanding.Keys, id);
      }
      AddLinked(prompts, retries, issued, engine.outstanding, id, Request(prompt, uncached));
      AddCounted(prompts, retries, issued, sentBefore, engine.sent, id, Request(prompt, uncached));
      AddReruns(prompts, retries, issued, engine.outstanding, id, Request(prompt, uncached));
      PutPrompt(prompts, id, Request(prompt, uncached));
      issued := issued + {id};
      prompts := prompts[id := Request(prompt, uncached)];
      engine.AddRequest(id, Request(prompt, uncached));
    }

    method AbortRequest(ids: set<RequestId>)
      requires Valid()
      modifies this, engine
      ensures Valid() && View() == old(View()) - ids
      ensures Strangers() <= old(Strangers()) && engine.script == old(engine.script)
      ensures engine.events == old(engine.events)
    {
      var rerun := set r | r in retries && retries[r] in ids;
      AbortOk(prompts, retries, issued, engine.outstanding, ids, rerun);
      AbortCounted(prompts, retries, issued, sentBefore, engine.sent, ids, rerun);
      retries := retries - rerun;
      prompts := prompts - ids;
      engine.AbortRequest(ids + rerun);
    }

    ghost predicate SyncedUpTo(due: View)
      reads this, engine
    {
      InEngine(prompts, retries, engine.outstanding, due)
    }

    /** What has happened in the engine, and what it holds. */
    ghost function Trace(): Trace
      reads engine
    {
      EngineLog.Trace(engine.events, engine.outstanding.Keys)
    }

    /** Handle one finished output: deliver it under its original id, or rerun it without its rows. */
    method Arrive(o: Output, ghost due: View, ghost was: Held, ghost strange: set<RequestId>) returns (r: Arrival)
      requires Valid() && SyncedUpTo(due) && o.id in due && due[o.id] == o.prompt && o.finished
      requires Known(prompts, retries, due, was, strange)
      modifies this, engine
      ensures Valid() && (!r.Failed? ==> SyncedUpTo(due - {o.id}))
      ensures Strangers() <= old(Strangers()) && engine.script == old(engine.script)
      ensures r.Failed? ==> View().Keys <= old(View()).Keys
      ensures r.Rescheduled? ==> View() == old(View()) && Reruns() == old(Reruns()) + {Base(o.id)}
      ensures r.Rescheduled? ==> Base(o.id) !in old(Reruns())
      ensures r.Delivered? ==>
        && r.output.id in old(View()) && r.output.prompt == old(View())[r.output.id]
        && r.output == o.(id := Base(o.id)) && r.output.finished && !r.output.missing
        && View() == old(View()) - {r.output.id} && Reruns() == old(Reruns()) - {r.output.id}
      ensures issued == old(issued)
      ensures engine.outstanding.Keys <= old(engine.outstanding).Keys + RerunIds()
      ensures r.Failed? <==> Fails(o, was, strange)
      ensures !r.Failed? ==> Known(prompts, retries, due - {o.id}, was, strange)
      ensures old(Balanced()) ==> Balanced()
      ensures r.Rescheduled? ==> o.missing && !o.id.Recompute?
      ensures Trace() == AfterReruns(old(Trace()), if r.Rescheduled? then [o.id] else [])
    {
      NoReruns(Trace());
      assert KnownAs(prompts, OriginalOf(retries, o.id), was, strange, o.id);
      var id := if o.id in retries then retries[o.id] else o.id;
      if id !in prompts {
        return Failed;  // KeyError: a finished request of another user
      }
      OriginalCarried(prompts, retries, issued, engine.outstanding, due, o.id);
      KnownBase(prompts, retries, issued, engine.outstanding, o.id);
      if o.missing && !prompts[id].uncached {
        OneRerun(Trace(), id);
        Resubmit(id, due, was, strange);
        return Rescheduled;
      }
      Forget(o.id, id, due, was, strange);
      r := if o.missing then Failed else Delivered(o.(id := id));
    }

    /** Queue a request under its rerun id. */
    method SendAgain(id: RequestId, request: Request)
      requires Recompute(id) !in engine.outstanding && id in issued
      modifies this, engine
      ensures prompts == old(prompts)[id := request] && retries == old(retries)[Recompute(id) := id]
      ensures engine.outstanding == old(engine.outstanding)[Recompute(id) := request]
      ensures engine.script == old(engine.script) && engine.sent == old(engine.sent) + multiset{Recompute(id)}
      ensures issued == old(issued) && recomputed == old(recomputed) + 1
      ensures engine.outstanding.Keys == old(engine.outstanding).Keys + {Recompute(id)}
      ensures engine.events == old(engine.events) + [Queued(Recompute(id))]
      ensures old(Balanced()) ==> Balanced()
    {
      if Balanced() {
        EventsMore(engine.events, [Queued(Recompute(id))]);
        LedgerAdd(issued, issued, heldBefore, engine.events[eventsBefore..], engine.outstanding.Keys, Recompute(id));
      }
      recomputed := recomputed + 1;
      retries := retries[Recompute(id) := id];
      prompts := prompts[id := request];
      engine.AddRequest(Recompute(id), request);
    }

    /** Run a request again without the prefix cache. */
    method Resubmit(id: RequestId, ghost due: View, ghost was: Held, ghost strange: set<RequestId>)
      requires Valid() && SyncedUpTo(due)
      requires id in prompts && Carrier(retries, id) in due && !prompts[id].uncached
      modifies this, engine
      ensures Valid() && SyncedUpTo(due - {old(Carrier(retries, id))})
      ensures Strangers() == old(Strangers()) && engine.script == old(engine.script)
      ensures View() == old(View()) && issued == old(issued)
      ensures engine.outstanding.Keys == old(engine.outstanding).Keys + {Recompute(id)} && id in issued
      ensures engine.events == old(engine.events) + [Queued(Recompute(id))]
      ensures Reruns() == old(Reruns()) + {id} && id !in old(Reruns())
      ensures old(Known(prompts, retries, due, was, strange)) ==>
        Known(prompts, retries, due - {old(Carrier(retries, id))}, was, strange)
      ensures old(Balanced()) ==> Balanced()
    {
      var request := prompts[id].(uncached := true);
      RetryState(prompts, retries, issued, engine.outstanding, due, sentBefore, engine.sent, id, request);
      RetryView(prompts, retries, issued, engine.outstanding, due, was, strange, id, request);
      SendAgain(id, request);
    }

    /** Pop a request whose output arrived as `output`. */
    method Forget(output: RequestId, id: RequestId, ghost due: View, ghost was: Held, ghost strange: set<RequestId>)
      requires Valid() && SyncedUpTo(due)
      requires id in prompts && Carrier(retries, id) == output && output in due
      modifies this
      ensures Valid() && SyncedUpTo(due - {output}) && Strangers() == old(Strangers())
      ensures View() == old(View()) - {id} && issued == old(issued) && Reruns() == old(Reruns()) - {id}
      ensures old(Known(prompts, retries, due, was, strange)) ==> Known(prompts, retries, due - {output}, was, strange)
      ensures old(Balanced()) ==> Balanced()
    {
      DropState(prompts, retries, issued, engine.outstanding, due, sentBefore, engine.sent, id);
      if Known(prompts, retries, due, was, strange) {
        DropKnown(prompts, retries, issued, engine.outstanding, due, was, strange, id);
      }
      retries := retries - {output};
      prompts := prompts - {id};
    }

    /** What a step starts from. */
    ghost function Now(): Entry
      reads this, engine
    {
      Entry(View(), Reruns(), Strangers(), engine.script, issued, engine.outstanding.Keys)
    }

    /** Nothing of what a step started from has grown but by reruns. */
    ghost predicate Within(at: Entry)
      reads this, engine
    {
      && Valid() && Strangers() <= at.strangers && engine.script == at.script && issued == at.issued
      && engine.outstanding.Keys <= at.keys + RerunIds()
    }

    /** Part of a step's outputs have arrived: `ready` are to be delivered, `due` are to come. */
    ghost predicate Midway(ready: seq<Output>, due: View, at: Entry)
      reads this, engine
    {
      && Within(at) && SyncedUpTo(due)
      && Legal(at.view, ready) && View() == at.view - FinishedIds(ready)
      && (forall o :: o in ready ==> o.finished && !o.missing)
      && at.reruns - FinishedIds(ready) <= Reruns()
    }

    /** Nothing has arrived yet. */
    lemma StartMidway(outputs: seq<Output>, was: Held)
      requires Valid() && Linked(prompts, retries, issued, was) && InEngine(prompts, retries, was, map[])
      requires Legal(PromptsOf(was), outputs) && engine.outstanding == was - FinishedIds(outputs)
      ensures Midway([], DueOf(was, outputs), Now())
    {
      StepInEngine(prompts, retries, issued, was, outputs);
      assert View() - FinishedIds([]) == View();
    }

    lemma ReadyMore(ready: seq<Output>, o: Output)
      requires (forall x :: x in ready ==> x.finished && !x.missing) && o.finished && !o.missing
      ensures forall x :: x in ready + [o] ==> x.finished && !x.missing
    {
    }

    /** Take one finished output. */
    method Receive(o: Output, ready: seq<Output>, ghost due: View, ghost was: Held, ghost strange: set<RequestId>,
                   ghost at: Entry)
      returns (ok: bool, ready': seq<Output>)
      requires Midway(ready, due, at)
      requires o.id in due && due[o.id] == o.prompt && o.finished && Known(prompts, retries, due, was, strange)
      modifies this, engine
      ensures ok ==> Midway(ready', due - {o.id}, at)
      ensures !ok ==> Within(at) && View().Keys <= at.view.Keys
      ensures ok ==> ready' == ready || ready' == ready + [o.(id := Base(o.id))]
      ensures ok ==> Dealt(Base(o.id), ready', at.reruns, Reruns())
      ensures ok ==> forall id :: Dealt(id, ready, at.reruns, old(Reruns())) ==> Dealt(id, ready', at.reruns, Reruns())
      ensures !ok <==> Fails(o, was, strange)
      ensures ok ==> Known(prompts, retries, due - {o.id}, was, strange)
      ensures old(Balanced()) ==> Balanced()
      ensures ok ==> FinishedIds(ready') == FinishedIds(ready) + if o.missing then {} else {Base(o.id)}
      ensures ok && o.missing ==> !o.id.Recompute?
      ensures Trace() == AfterReruns(old(Trace()), if ok && o.missing then [o.id] else [])
    {
      var arrival := Arrive(o, due, was, strange);
      ok, ready' := !arrival.Failed?, ready;
      if arrival.Delivered? {
        LegalAppend(at.view, ready, arrival.output);
        FinishedIdsAppend(ready, arrival.output);
        ready' := ready + [arrival.output];
        ReadyMore(ready, arrival.output);
      }
    }

    /** The first i outputs of a step have been handled. */
    ghost predicate Handled(outputs: seq<Output>, i: nat, ready: seq<Output>, was: Held, strange: set<RequestId>, at: Entry)
      requires i <= |outputs|
      reads this, engine
    {
      && Midway(ready, DueOf(was, outputs[i..]), at) && Known(prompts, retries, DueOf(was, outputs[i..]), was, strange)
      && (forall j :: 0 <= j < i ==> !Fails(outputs[j], was, strange))
      && AllHandled(outputs[..i], ready, at.reruns, Reruns())
    }

    /** After these outputs, those with their rows are to be delivered, and some of the others were queued again. */
    ghost predicate Sorts(outputs: seq<Output>, ready: seq<Output>, again: seq<RequestId>, t: Trace)
      reads engine
    {
      FinishedIds(ready) == AnsweredBy(outputs) && SentAgain(again, outputs) && Trace() == AfterReruns(t, again)
    }

    /** Take finished output i of a step. */
    method ReceiveFinished(outputs: seq<Output>, i: nat, ready: seq<Output>, ghost was: Held, ghost strange: set<RequestId>,
                           ghost at: Entry, ghost again: seq<RequestId>, ghost t: Trace)
      returns (ok: bool, ready': seq<Output>, ghost again': seq<RequestId>)
      requires i < |outputs| && Legal(PromptsOf(was), outputs) && Handled(outputs, i, ready, was, strange, at)
      requires outputs[i].finished && Sorts(outputs[..i], ready, again, t)
      modifies this, engine
      ensures ok ==> Handled(outputs, i + 1, ready', was, strange, at) && Sorts(outputs[..i + 1], ready', again', t)
      ensures !ok ==> Within(at) && View().Keys <= at.view.Keys && Fails(outputs[i], was, strange)
      ensures !ok ==> SentAgain(again', outputs[..i]) && Trace() == AfterReruns(t, again')
      ensures old(Balanced()) ==> Balanced()
    {
      var o := outputs[i];
      DueNext(was, outputs, i);
      TakeNext(outputs, i);
      FinishOnce(PromptsOf(was), outputs, i);
      ghost var reruns := Reruns();
      ok, ready' := Receive(o, ready, DueOf(was, outputs[i..]), was, strange, at);
      again' := again;
      if ok {
        HandledMore(outputs[..i], o, ready, ready', at.reruns, reruns, Reruns());
        SortsNext(outputs[..i], FinishedIds(ready), again, t, o);
        again' := again + if o.missing then [o.id] else [];
      } else {
        NoReruns(AfterReruns(t, again));
      }
    }

    /** Take output i of a step, if it is finished. */
    method ReceiveAt(outputs: seq<Output>, i: nat, ready: seq<Output>, ghost was: Held, ghost strange: set<RequestId>,
                     ghost at: Entry, ghost again: seq<RequestId>, ghost t: Trace)
      returns (ok: bool, ready': seq<Output>, ghost again': seq<RequestId>)
      requires i < |outputs| && Legal(PromptsOf(was), outputs) && Handled(outputs, i, ready, was, strange, at)
      requires Sorts(outputs[..i], ready, again, t)
      modifies this, engine
      ensures ok ==> Handled(outputs, i + 1, ready', was, strange, at) && Sorts(outputs[..i + 1], ready', again', t)
      ensures !ok ==> Within(at) && View().Keys <= at.view.Keys && Fails(outputs[i], was, strange)
      ensures !ok ==> SentAgain(again', outputs[..i]) && Trace() == AfterReruns(t, again')
      ensures old(Balanced()) ==> Balanced()
    {
      var o := outputs[i];
      if o.finished {
        ok, ready', again' := ReceiveFinished(outputs, i, ready, was, strange, at, again, t);
      } else {
        DueNext(was, outputs, i);
        TakeNext(outputs, i);
        ok, ready', again' := true, ready, again;
        HandledSkip(outputs[..i], o, ready, at.reruns, Reruns());
        AnsweredByNext(outputs[..i], o);
        SentAgainSkip(again, outputs[..i], o);
      }
    }

    /** Deliver the finished outputs of one step under their original ids, rerunning the ones without
        their rows; `was` is what the engine held before. */
    method Deliver(outputs: seq<Output>, ghost was: Held) returns (batch: Batch, ghost again: seq<RequestId>)
      requires Valid() && Linked(prompts, retries, issued, was) && InEngine(prompts, retries, was, map[])
      requires Legal(PromptsOf(was), outputs) && engine.outstanding == was - FinishedIds(outputs)
      modifies this, engine
      ensures batch.Raised? ==> Within(old(Now())) && View().Keys <= old(View()).Keys
      ensures batch.Ready? ==> Midway(batch.outputs, map[], old(Now()))
      ensures batch.Raised? <==> AnyFails(outputs, was, old(StrangersOf(prompts, retries, was)))
      ensures old(Balanced()) ==> Balanced()
      ensures batch.Ready? ==> AllHandled(outputs, batch.outputs, old(Reruns()), Reruns())
      ensures batch.Ready? ==> FinishedIds(batch.outputs) == AnsweredBy(outputs)
      ensures SentAgain(again, outputs) && Trace() == AfterReruns(old(Trace()), again)
    {
      ghost var (at, strange, t) := (Now(), StrangersOf(prompts, retries, was), Trace());
      NoReruns(t);
      StartMidway(outputs, was);
      KnownAtFirst(prompts, retries, issued, was, DueOf(was, outputs));
      var ready := [];
      again := [];
      assert outputs[0..] == outputs;
      for i := 0 to |outputs|
        invariant Handled(outputs, i, ready, was, strange, at)
        invariant Sorts(outputs[..i], ready, again, t)
        invariant old(Balanced()) ==> Balanced()
      {
        var ok;
        ok, ready, again := ReceiveAt(outputs, i, ready, was, strange, at, again, t);
        if !ok {
          SentAgainWhole(again, outputs, i);
          return Raised, again;
        }
      }
      assert DueOf(was, outputs[|outputs|..]) == map[];
      assert outputs[..|outputs|] == outputs;
      batch := Ready(ready);
    }

    lemma StepBalanced(events: seq<EngineEvent>, was: set<RequestId>, outputs: seq<Output>)
      requires eventsBefore <= |events| && Ledger(issued, heldBefore, events[eventsBefore..], was)
      requires engine.events == events + [Stepped] + ShownBy(outputs)
      requires engine.outstanding.Keys == was - FinishedIds(outputs)
      ensures Balanced()
    {
      EventsMore(events, [Stepped]);
      EventsMore(events + [Stepped], ShownBy(outputs));
      LedgerStep(issued, heldBefore, events[eventsBefore..], was, outputs);
    }

    /** Deliver finished outputs under their original ids, rerunning the ones without their rows.  It raises
        exactly when the engine does, when somebody else's request finishes, or when rows are missing from a
        run that skipped the prefix cache. */
    method Step(ghost mine: RequestId -> bool) returns (batch: Batch, ghost shown: seq<Output>, ghost again: seq<RequestId>)
      requires Valid() && Synced()
      modifies this, engine
      ensures Valid() && Strangers() <= old(Strangers())
      ensures engine.script == if old(engine.script) == [] then [] else old(engine.script)[1..]
      ensures old(engine.script) == [] ==> batch.Raised?
      ensures old(engine.script == [] || engine.script[0].Raise?) ==>
        batch.Raised? && View() == old(View()) && engine.outstanding == old(engine.outstanding)
      ensures batch.Raised? <==> old(Raises())
      ensures old(Balanced()) ==> Balanced()
      ensures batch.Raised? ==> View().Keys <= old(View()).Keys
      ensures batch.Ready? ==> Synced() && Legal(old(View()), batch.outputs)
      ensures batch.Ready? ==> forall o :: o in batch.outputs ==> o.finished && !o.missing
      ensures batch.Ready? ==> View() == old(View()) - FinishedIds(batch.outputs)
      ensures batch.Ready? ==> old(Reruns()) - FinishedIds(batch.outputs) <= Reruns()
      ensures issued == old(issued)
      ensures engine.outstanding.Keys <= old(engine.outstanding).Keys + RerunIds()
      ensures old(Answerable(mine)) ==> batch.Ready? && Replies(batch.outputs, mine, old(Reruns()), Reruns())
      ensures Legal(PromptsOf(old(engine.outstanding)), shown) && SentAgain(again, shown)
      ensures Trace() == AfterReruns(AfterOutputs(old(Trace()), shown), again)
      ensures batch.Ready? ==> FinishedIds(batch.outputs) == AnsweredBy(shown)
    {
      ghost var was := engine.outstanding;
      ghost var good := Answerable(mine);
      ghost var (balanced, events) := (Balanced(), engine.events);
      shown, again := [], [];
      var inner := engine.Step();
      if balanced {
        StepBalanced(events, was.Keys, if inner.Ready? then inner.outputs else []);
      }
      if inner.Raised? {
        NoReruns(Trace());
        return Raised, [], [];
      }
      if good {
        AnswerableArrives(prompts, retries, issued, was, old(engine.script)[0], mine);
      }
      shown := inner.outputs;
      batch, again := Deliver(inner.outputs, was);
      if good {
        HandledAnswers(inner.outputs, batch.outputs, mine, old(Reruns()), Reruns());
      }
    }

    /** The next step raises. */
    ghost predicate Raises()
      reads this, engine
    {
      engine.script == [] || engine.script[0].Raise?
      || AnyFails(Emitted(engine.outstanding, engine.script[0]).outputs, engine.outstanding, Strangers())
    }

    /** The next turn answers one of these requests. */
    ghost predicate Answerable(mine: RequestId -> bool)
      reads this, engine
    {
      && engine.script != [] && Productive(engine.script[0], WithReruns(mine))
      && Faithful(engine.script[0], WithReruns(mine))
      && (forall id :: id in Strangers() ==> !WithReruns(mine)(id))
      && exists id :: id in View() && mine(id)
    }
  }

  /** A request of the view reaches the engine at most twice: once, and once more to be rerun. */
  lemma SentAtMostTwice(view: RetryingEngine, o: RequestId)
    requires view.Valid() && !o.Recompute?
    ensures Sends(view.engine.sent, o) <= Sends(view.sentBefore, o) + 2
  {
    assert Sends(view.engine.sent, o)
        <= Sends(view.sentBefore, o) + SendLimit(view.prompts, view.retries, view.issued, o);
  }
}
