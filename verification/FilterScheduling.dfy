/** The step-loop scheduler of a filter sequence (`run_filter_sequence`). */
module FilterScheduling {
  import opened Prompts
  import opened Requests
  import opened EngineLog
  import opened FilterLog
  import opened Retrying
  import opened Engines
  import opened DocumentCaps
  import opened Common
  import opened FilterTask
  import opened Sorting

  /** A document's answer could be read, or reading it raised. */
  datatype Recorded = Unreadable | Read(advances: bool)

  /** Answers, survivors, and counters for one filter sequence. */
  class FilterSequence {
    const task: Task
    var answers: map<Cell, bool>
    var survivors: seq<nat>
    var requests: nat
    var promptTokens: nat

    constructor (task: Task)
      ensures this.task == task && answers == map[] && survivors == [] && requests == 0 && promptTokens == 0
    {
      this.task := task;
      answers, survivors, requests, promptTokens := map[], [], 0, 0;
    }

    /** The fields hold what the abstract progress has recorded. */
    ghost predicate Holds(p: Progress)
      reads this
    {
      answers == p.answers && survivors == p.survivors && requests == p.requests && promptTokens == p.promptTokens
    }

    /** Record one answer; the result advances when the document goes on to its next stage. */
    method Record(document: nat, stage: nat, output: Output) returns (r: Recorded)
      modifies this
      ensures r.Unreadable? <==> output.malformed
      ensures r.Read? ==>
        && answers == old(answers)[(document, stage + 1) := task.truth(output.prompt)]
        && requests == old(requests) + 1
        && promptTokens == old(promptTokens) + |output.prompt|
        && r.advances == (task.truth(output.prompt) && stage + 1 < |task.questions|)
        && survivors == old(survivors)
             + (if task.truth(output.prompt) && !r.advances then [document] else [])
    {
      requests := requests + 1;
      promptTokens := promptTokens + |output.prompt|;
      if output.malformed {
        return Unreadable;
      }
      var answer := task.truth(output.prompt);
      answers := answers[(document, stage + 1) := answer];
      if answer && stage + 1 < |task.questions| {
        return Read(true);
      }
      if answer {
        survivors := survivors + [document];
      }
      r := Read(false);
    }
  }

  /** The result of a sequence; wall time, cached tokens and settings are left out. */
  datatype FilterResult = FilterResult(
    survivors: seq<int>, answers: map<Cell, bool>, requests: nat, promptTokens: nat)

  datatype Outcome = Propagated | Returned(result: FilterResult)

  ghost function ReferenceResult(task: Task): FilterResult {
    FilterResult(task.SurvivorsBelow(|task.bodies|), task.Reference(1),
                 |task.AskedCells(1)|, task.PromptTokens(task.AskedCells(1), 1))
  }

  /** How the sequence starts: the requests in the engine that are not the view's, the engine's history, and the
      document cap. */
  datatype Mark = Mark(strangers: set<RequestId>, events: nat, cap: nat)

  predicate InFlight(at: map<nat, nat>, id: RequestId) {
    id.Numbered? && id.document in at && at[id.document] == id.part
  }

  /** The scheduler's `inflight` dictionary, when each document in `at` waits at its stage. */
  ghost predicate Mirrors(inflight: map<RequestId, Cell>, at: map<nat, nat>) {
    && (forall id :: id in inflight <==> InFlight(at, id))
    && (forall id :: id in inflight ==> inflight[id] == (id.document, id.part))
  }

  lemma MirrorsSubmit(inflight: map<RequestId, Cell>, at: map<nat, nat>, d: nat, s: nat)
    requires Mirrors(inflight, at) && d !in at
    ensures Mirrors(inflight[Numbered(d, s) := (d, s)], at[d := s])
  {
  }

  lemma MirrorsPop(inflight: map<RequestId, Cell>, at: map<nat, nat>, id: RequestId)
    requires Mirrors(inflight, at) && id in inflight
    ensures Mirrors(inflight - {id}, at - {id.document})
  {
    assert id == Numbered(id.document, id.part);
  }

  /** Every document in flight has its own prompt in the engine's view, or its output is due; `due`
      holds the prompts of the requests that finish in the rest of the current batch. */
  ghost predicate Waiting(task: Task, at: map<nat, nat>, view: View, due: View, others: set<RequestId>) {
    && (forall id :: id in view || id in due ==> InFlight(at, id) || id in others)
    && (forall id :: id in due ==> id !in view)
    && forall d :: d in at ==>
         && task.Asked(d, at[d])
         && PendingPrompt(view, due, Numbered(d, at[d]), task.PromptOf(d, at[d]))
  }

  ghost predicate PendingPrompt(view: View, due: View, id: RequestId, prompt: Prompt) {
    (id in view && view[id] == prompt) || (id in due && due[id] == prompt)
  }

  /** A cell not submitted yet. */
  predicate Unsubmitted(at: map<nat, nat>, answered: set<Cell>, d: nat, s: nat) {
    (d, s + 1) !in answered && !(d in at && at[d] == s)
  }

  /** Admitting the next document: its first stage has not been submitted. */
  lemma AdmitNext(task: Task, cap: nat, p: Progress) returns (q: Progress)
    requires |task.questions| > 0 && Reachable(task, cap, p) && Enabled(task, cap, p, Admit)
    ensures Reachable(task, cap, q) && q.next == p.next + 1 && q.inflight == p.inflight[p.next := 0]
    ensures q.answers == p.answers && q.survivors == p.survivors
    ensures q.requests == p.requests && q.promptTokens == p.promptTokens
    ensures task.Asked(p.next, 0) && p.next !in p.inflight
    ensures Unsubmitted(p.inflight, p.answers.Keys, p.next, 0)
  {
    ReachableInv(task, cap, p);
    StepReachable(task, cap, p, Admit);
    q := Step(task, cap, p, Admit);
  }

  predicate Advances(task: Task, d: nat, s: nat)
    requires task.Asked(d, s)
  {
    task.Truth(d, s) && s + 1 < |task.questions|
  }

  /** The documents in flight after the answer of cell (d, s). */
  ghost function NextAt(at: map<nat, nat>, d: nat, s: nat, advances: bool): map<nat, nat> {
    if advances then (at - {d})[d := s + 1] else at - {d}
  }

  /** q is p with the answer of cell (d, s) recorded. */
  ghost predicate Recording(task: Task, p: Progress, d: nat, s: nat, q: Progress)
    requires task.Asked(d, s)
  {
    && q.next == p.next
    && q.answers == p.answers[(d, s + 1) := task.Truth(d, s)]
    && q.requests == p.requests + 1 && q.promptTokens == p.promptTokens + |task.PromptOf(d, s)|
    && q.survivors == p.survivors + (if task.Truth(d, s) && !Advances(task, d, s) then [d] else [])
  }

  /** q is what the answer of cell (d, s) leads to: it is recorded, and either the next stage is
      asked, which has not been submitted, or the document is settled. */
  ghost predicate Completes(task: Task, p: Progress, d: nat, s: nat, q: Progress)
    requires task.Asked(d, s)
  {
    && Recording(task, p, d, s, q) && q.answers.Keys == p.answers.Keys + {(d, s + 1)}
    && q.inflight == NextAt(p.inflight, d, s, Advances(task, d, s))
    && (Advances(task, d, s) ==>
          task.Asked(d, s + 1) && Unsubmitted(p.inflight - {d}, q.answers.Keys, d, s + 1))
  }

  lemma CompleteNext(task: Task, cap: nat, p: Progress, d: nat, s: nat) returns (q: Progress)
    requires |task.questions| > 0 && Reachable(task, cap, p)
    requires d in p.inflight && p.inflight[d] == s && task.Asked(d, s)
    ensures Reachable(task, cap, q) && Completes(task, p, d, s, q)
    ensures |p.inflight.Keys| > 0
    ensures |q.inflight.Keys| == if Advances(task, d, s) then |p.inflight.Keys| else |p.inflight.Keys| - 1
  {
    ReachableInv(task, cap, p);
    StepReachable(task, cap, p, Complete(d));
    q := Step(task, cap, p, Complete(d));
    StepCompletes(task, cap, p, d, s);
    NextAtCounts(p.inflight, d, s, Advances(task, d, s));
  }

  lemma StepCompletes(task: Task, cap: nat, p: Progress, d: nat, s: nat)
    requires AnswersOk(task, p) && d in p.inflight && p.inflight[d] == s && task.Asked(d, s)
    ensures Completes(task, p, d, s, Step(task, cap, p, Complete(d)))
  {
    PassedNext(task, d, s);
    NextUnanswered(task, p, d, s);
    NextAtCounts(p.inflight, d, s, Advances(task, d, s));
  }

  lemma NextUnanswered(task: Task, p: Progress, d: nat, s: nat)
    requires AnswersOk(task, p) && d in p.inflight && p.inflight[d] == s
    ensures (d, s + 2) !in p.answers
  {
    assert !Answered(task, p, d, s + 2);
  }

  lemma NextAtCounts(at: map<nat, nat>, d: nat, s: nat, advances: bool)
    requires d in at
    ensures NextAt(at, d, s, advances) == if advances then at[d := s + 1] else at - {d}
    ensures |at.Keys| > 0
    ensures |NextAt(at, d, s, advances).Keys| == if advances then |at.Keys| else |at.Keys| - 1
  {
    assert (at - {d}).Keys == at.Keys - {d};
    assert (at - {d})[d := s + 1] == at[d := s + 1];
    assert at[d := s + 1].Keys == at.Keys;
  }

  lemma WaitingSubmit(task: Task, at: map<nat, nat>, view: View, due: View, others: set<RequestId>, d: nat, s: nat)
    requires Waiting(task, at, view, due, others) && task.Asked(d, s) && d !in at && Numbered(d, s) !in due
    ensures Waiting(task, at[d := s], view[Numbered(d, s) := task.PromptOf(d, s)], due, others)
  {
  }

  lemma WaitingPop(task: Task, at: map<nat, nat>, view: View, due: View, others: set<RequestId>, id: RequestId)
    requires Waiting(task, at, view, due, others) && InFlight(at, id) && id !in others && id in due
    ensures Waiting(task, at - {id.document}, view, due - {id}, others)
    ensures task.Asked(id.document, id.part) && due[id] == task.PromptOf(id.document, id.part)
  {
    assert id == Numbered(id.document, id.part);
  }

  lemma WaitingAsked(task: Task, at: map<nat, nat>, view: View, due: View, others: set<RequestId>, id: RequestId)
    requires Waiting(task, at, view, due, others) && InFlight(at, id)
    ensures task.Asked(id.document, id.part)
  {
  }

  lemma WaitingSkip(task: Task, at: map<nat, nat>, view: View, due: View, others: set<RequestId>, id: RequestId)
    requires Waiting(task, at, view, due, others) && !InFlight(at, id)
    ensures Waiting(task, at, view, due - {id}, others)
  {
  }

  /** The scheduler's local variables agree with a reachable progress. */
  ghost predicate Scheduled(task: Task, cap: nat, p: Progress, inflight: map<RequestId, Cell>, next: nat, expected: nat) {
    && |task.questions| > 0
    && Reachable(task, cap, p) && Mirrors(inflight, p.inflight)
    && next == p.next <= |task.bodies| && expected == |p.inflight.Keys| <= cap
  }

  /** The sequence, as its engine sees it. */
  function FilteringOf(task: Task, engine: AnyEngine, base: Mark): Filtering {
    Filtering(task, base.cap, engine.Retry?)
  }

  /** The events since the start. */
  ghost function LogOf(engine: AnyEngine, base: Mark): Log
    reads engine.Inner()
  {
    Since(engine.Inner().events, base.events)
  }

  /** The engine's events since the start are orderly. */
  ghost predicate InOrder(engine: AnyEngine, task: Task, base: Mark)
    reads engine.Inner()
  {
    base.events <= |engine.Inner().events| && Orderly(FilteringOf(task, engine, base), LogOf(engine, base))
  }

  /** The next request may be queued. */
  ghost predicate MaySubmit(engine: AnyEngine, task: Task, base: Mark, d: nat, s: nat)
    reads engine.Inner()
  {
    MayQueue(FilteringOf(task, engine, base), LogOf(engine, base), d, s)
  }

  /** The engine's events since the start are those of a filter sequence in this state. */
  ghost predicate Records(engine: AnyEngine, task: Task, at: map<nat, nat>, answered: set<Cell>, due: View, base: Mark)
    reads engine.Inner()
  {
    && base.events <= |engine.Inner().events|
    && Logged(FilteringOf(task, engine, base), LogOf(engine, base), at, answered, due)
    && Flown(FilteringOf(task, engine, base), LogOf(engine, base), engine.Inner().outstanding.Keys)
  }

  /** The engine holds what the scheduler waits for, and every cell not submitted yet may be added. */
  ghost predicate Serves(engine: AnyEngine, task: Task, at: map<nat, nat>, answered: set<Cell>, due: View,
                         others: set<RequestId>, base: Mark, script: seq<Turn>)
    reads engine.Repr()
  {
    && engine.Valid() && engine.Synced()
    && engine.Strangers() <= base.strangers && engine.Script() == script
    && Waiting(task, at, engine.View(), due, others)
    && Records(engine, task, at, answered, due, base)
    && forall d: nat, s: nat :: Unsubmitted(at, answered, d, s) ==> engine.MayAdd(Numbered(d, s))
  }

  /** `submit`: remember the request, then queue it. */
  method Submit(task: Task, engine: AnyEngine, uncached: bool, inflight: map<RequestId, Cell>, document: nat, stage: nat)
    returns (submitted: map<RequestId, Cell>)
    requires document < |task.bodies| && stage < |task.questions|
    requires engine.Valid() && engine.Synced() && engine.MayAdd(Numbered(document, stage))
    modifies engine.Repr()
    ensures submitted == inflight[Numbered(document, stage) := (document, stage)]
    ensures engine.Valid() && engine.Synced()
    ensures engine.View() == old(engine.View())[Numbered(document, stage) := task.PromptOf(document, stage)]
    ensures engine.Strangers() == old(engine.Strangers()) && engine.Script() == old(engine.Script())
    ensures engine.Reruns() == old(engine.Reruns())
    ensures engine.Trace() == AfterQueue(old(engine.Trace()), Numbered(document, stage))
    ensures forall x :: x != Numbered(document, stage) && old(engine.MayAdd(x)) ==> engine.MayAdd(x)
  {
    var id := Numbered(document, stage);
    submitted := inflight[id := (document, stage)];
    engine.AddRequest(id, task.PromptOf(document, stage), uncached);
  }

  lemma RecordsSubmit(engine: AnyEngine, task: Task, at: map<nat, nat>, answered: set<Cell>, due: View, base: Mark,
                      before: Trace, d: nat, s: nat)
    requires base.events <= |before.events| && engine.Trace() == AfterQueue(before, Numbered(d, s))
    requires var (x, log) := (FilteringOf(task, engine, base), Since(before.events, base.events));
      Logged(x, log, at, answered, due) && Flown(x, log, before.held) && MayQueue(x, log, d, s)
    requires d !in at && Numbered(d, s) !in due
    ensures Records(engine, task, at[d := s], answered, due, base)
  {
    var (x, log) := (FilteringOf(task, engine, base), Since(before.events, base.events));
    SinceMore(before.events, [Queued(Numbered(d, s))], base.events);
    LoggedSubmit(x, log, at, answered, due, d, s);
    FlownSubmit(x, log, before.held, d, s);
  }

  /** Submit a stage of a document that is not in flight. */
  method SubmitNext(task: Task, engine: AnyEngine, uncached: bool, inflight: map<RequestId, Cell>,
                    document: nat, stage: nat, ghost at: map<nat, nat>, ghost answered: set<Cell>,
                    ghost due: View, ghost others: set<RequestId>, ghost base: Mark,
                    ghost script: seq<Turn>)
    returns (submitted: map<RequestId, Cell>)
    requires task.Asked(document, stage) && document !in at && Unsubmitted(at, answered, document, stage)
    requires Serves(engine, task, at, answered, due, others, base, script)
    requires Numbered(document, stage) !in due && MaySubmit(engine, task, base, document, stage)
    modifies engine.Repr()
    ensures submitted == inflight[Numbered(document, stage) := (document, stage)]
    ensures Serves(engine, task, at[document := stage], answered, due, others, base, script)
    ensures engine.Reruns() == old(engine.Reruns())
  {
    ghost var before := engine.Trace();
    submitted := Submit(task, engine, uncached, inflight, document, stage);
    RecordsSubmit(engine, task, at, answered, due, base, before, document, stage);
    WaitingSubmit(task, at, old(engine.View()), due, others, document, stage);
  }

  /** What the scheduler did with one output of a batch. */
  datatype Handled = Unread | Settled | Advanced

  lemma ServesSkip(engine: AnyEngine, task: Task, at: map<nat, nat>, answered: set<Cell>, due: View,
                   others: set<RequestId>, base: Mark, script: seq<Turn>, id: RequestId)
    requires Serves(engine, task, at, answered, due, others, base, script) && !InFlight(at, id)
    requires forall d: nat, s: nat :: Numbered(d, s) !in others
    ensures Serves(engine, task, at, answered, due - {id}, others, base, script)
  {
    assert id.Numbered? ==> id == Numbered(id.document, id.part);
    WaitingSkip(task, at, engine.View(), due, others, id);
    LoggedSkip(FilteringOf(task, engine, base), LogOf(engine, base), at, answered, due, id);
  }

  /** A recorded answer takes its request out of the batch's rest and its document out of flight. */
  lemma ServesPop(engine: AnyEngine, task: Task, at: map<nat, nat>, answered: set<Cell>, due: View,
                  others: set<RequestId>, base: Mark, script: seq<Turn>, id: RequestId)
    requires Serves(engine, task, at, answered, due, others, base, script)
    requires InFlight(at, id) && id !in others && id in due
    requires Numbered(id.document, id.part + 1) !in others
    ensures Numbered(id.document, id.part + 1) !in due - {id}
    ensures Serves(engine, task, at - {id.document}, answered + {(id.document, id.part + 1)}, due - {id},
                   others, base, script)
    ensures task.Asked(id.document, id.part) && due[id] == task.PromptOf(id.document, id.part)
  {
    assert id == Numbered(id.document, id.part);
    WaitingPop(task, at, engine.View(), due, others, id);
    LoggedPop(FilteringOf(task, engine, base), LogOf(engine, base), at, answered, due, id.document, id.part);
  }

  /** The document's next stage can be submitted. */
  predicate MayAdvance(task: Task, answered: set<Cell>, due: View, d: nat, s: nat) {
    && task.Asked(d, s + 1) && task.Truth(d, s) && (d, s + 1) in answered
    && (d, s + 2) !in answered && Numbered(d, s + 1) !in due
  }

  lemma ServesMaySend(engine: AnyEngine, task: Task, at: map<nat, nat>, answered: set<Cell>, due: View,
                      others: set<RequestId>, base: Mark, script: seq<Turn>, d: nat, s: nat)
    requires Serves(engine, task, at, answered, due, others, base, script) && d !in at
    requires MayAdvance(task, answered, due, d, s)
    ensures MaySubmit(engine, task, base, d, s + 1)
  {
    MaySendNext(FilteringOf(task, engine, base), LogOf(engine, base), at, answered, due, d, s);
  }

  /** Submit the stage after one that was answered TRUE. */
  method SendNext(task: Task, engine: AnyEngine, uncached: bool, inflight: map<RequestId, Cell>,
                  document: nat, stage: nat, ghost at: map<nat, nat>, ghost answered: set<Cell>, ghost due: View,
                  ghost others: set<RequestId>, ghost base: Mark, ghost script: seq<Turn>)
    returns (left: map<RequestId, Cell>)
    requires Mirrors(inflight, at) && document !in at
    requires Serves(engine, task, at, answered, due, others, base, script)
    requires MayAdvance(task, answered, due, document, stage)
    modifies engine.Repr()
    ensures Mirrors(left, at[document := stage + 1])
    ensures Serves(engine, task, at[document := stage + 1], answered, due, others, base, script)
    ensures engine.Reruns() == old(engine.Reruns())
  {
    MirrorsSubmit(inflight, at, document, stage + 1);
    ServesMaySend(engine, task, at, answered, due, others, base, script, document, stage);
    left := SubmitNext(task, engine, uncached, inflight, document, stage + 1, at, answered, due, others, base, script);
  }

  /** Pop the request of a recorded output, and submit the next stage when its document advances. */
  method Proceed(task: Task, engine: AnyEngine, uncached: bool, inflight: map<RequestId, Cell>,
                 id: RequestId, advances: bool, ghost at: map<nat, nat>, ghost answered: set<Cell>, ghost due: View,
                 ghost others: set<RequestId>, ghost base: Mark, ghost script: seq<Turn>)
    returns (left: map<RequestId, Cell>)
    requires id in inflight && Mirrors(inflight, at) && InFlight(at, id)
    requires Serves(engine, task, at - {id.document}, answered, due, others, base, script)
    requires advances ==> MayAdvance(task, answered, due, id.document, id.part)
    modifies engine.Repr()
    ensures Mirrors(left, NextAt(at, id.document, id.part, advances))
    ensures Serves(engine, task, NextAt(at, id.document, id.part, advances), answered, due, others, base, script)
    ensures engine.Reruns() == old(engine.Reruns())
  {
    ghost var rest := at - {id.document};
    MirrorsPop(inflight, at, id);
    left := inflight - {id};
    if advances {
      left := SendNext(task, engine, uncached, left, id.document, id.part, rest, answered, due, others, base, script);
      assert NextAt(at, id.document, id.part, true) == rest[id.document := id.part + 1];
    }
  }

  /** After an exception: aborting `inflight` leaves only requests of others in the engine. */
  ghost predicate Abortable(engine: AnyEngine, task: Task, inflight: map<RequestId, Cell>, others: set<RequestId>,
                            base: Mark, script: seq<Turn>)
    reads engine.Repr()
  {
    && engine.Valid() && engine.Strangers() <= base.strangers && engine.Script() == script
    && engine.View().Keys <= inflight.Keys + others
    && InOrder(engine, task, base)
  }

  lemma ServesAbortable(engine: AnyEngine, task: Task, at: map<nat, nat>, answered: set<Cell>, due: View,
                        others: set<RequestId>, base: Mark, script: seq<Turn>,
                        inflight: map<RequestId, Cell>)
    requires Serves(engine, task, at, answered, due, others, base, script) && Mirrors(inflight, at)
    ensures Abortable(engine, task, inflight, others, base, script)
  {
  }

  /** Record the answer of a finished output; `q` is the progress it leads to.  The engine does not
      notice. */
  method Record(task: Task, engine: AnyEngine, sequence: FilterSequence, o: Output, ghost p: Progress, ghost q: Progress,
                ghost at: map<nat, nat>, ghost answered: set<Cell>, ghost due: View,
                ghost others: set<RequestId>, ghost base: Mark, ghost script: seq<Turn>)
    returns (r: Handled)
    requires sequence !in engine.Repr() && sequence.task == task && sequence.Holds(p)
    requires o.id.Numbered? && task.Asked(o.id.document, o.id.part)
    requires o.prompt == task.PromptOf(o.id.document, o.id.part)
    requires Recording(task, p, o.id.document, o.id.part, q)
    requires Serves(engine, task, at, answered, due, others, base, script)
    modifies sequence
    ensures r.Unread? <==> o.malformed
    ensures !r.Unread? ==> sequence.Holds(q) && r.Advanced? == Advances(task, o.id.document, o.id.part)
    ensures Serves(engine, task, at, answered, due, others, base, script)
  {
    var recorded := sequence.Record(o.id.document, o.id.part, o);
    r := if recorded.Unreadable? then Unread else if recorded.advances then Advanced else Settled;
  }

  /** Record the answer of a request in flight, pop the request, and let its document advance or leave. */
  method Reply(task: Task, engine: AnyEngine, uncached: bool, sequence: FilterSequence,
               inflight: map<RequestId, Cell>, o: Output, ghost p: Progress, ghost q: Progress, ghost answered: set<Cell>,
               ghost due: View, ghost others: set<RequestId>, ghost base: Mark, ghost script: seq<Turn>)
    returns (r: Handled, left: map<RequestId, Cell>)
    requires sequence !in engine.Repr() && sequence.task == task && sequence.Holds(p)
    requires o.id in inflight && InFlight(p.inflight, o.id) && Mirrors(inflight, p.inflight)
    requires Serves(engine, task, p.inflight - {o.id.document}, answered, due, others, base, script)
    requires task.Asked(o.id.document, o.id.part) && o.prompt == task.PromptOf(o.id.document, o.id.part)
    requires Recording(task, p, o.id.document, o.id.part, q)
    requires Advances(task, o.id.document, o.id.part) ==>
      MayAdvance(task, answered, due, o.id.document, o.id.part)
    modifies engine.Repr(), sequence
    ensures !r.Unread? ==>
      && r.Advanced? == Advances(task, o.id.document, o.id.part) && sequence.Holds(q)
      && Mirrors(left, NextAt(p.inflight, o.id.document, o.id.part, r.Advanced?))
      && Serves(engine, task, NextAt(p.inflight, o.id.document, o.id.part, r.Advanced?), answered, due,
                others, base, script)
    ensures r.Unread? ==> o.malformed && Abortable(engine, task, left, others, base, script)
    ensures engine.Reruns() == old(engine.Reruns())
  {
    r := Record(task, engine, sequence, o, p, q, p.inflight - {o.id.document}, answered, due,
                others, base, script);
    if r.Unread? {
      MirrorsPop(inflight, p.inflight, o.id);
      ServesAbortable(engine, task, p.inflight - {o.id.document}, answered, due, others, base, script,
                      inflight - {o.id});
      return r, inflight - {o.id};
    }
    left := Proceed(task, engine, uncached, inflight, o.id, r.Advanced?, p.inflight, answered, due,
                    others, base, script);
  }

  /** Read a finished output of a request in flight; `q` is the progress its answer leads to. */
  method ConsumeReply(task: Task, engine: AnyEngine, uncached: bool, sequence: FilterSequence,
                      inflight: map<RequestId, Cell>, o: Output, ghost p: Progress, ghost q: Progress,
                      ghost due: View, ghost others: set<RequestId>, ghost base: Mark,
                      ghost script: seq<Turn>)
    returns (r: Handled, left: map<RequestId, Cell>)
    requires Mirrors(inflight, p.inflight)
    requires sequence !in engine.Repr() && sequence.task == task && sequence.Holds(p)
    requires Serves(engine, task, p.inflight, p.answers.Keys, due, others, base, script)
    requires o.id in inflight && InFlight(p.inflight, o.id) && o.id in due && due[o.id] == o.prompt
    requires o.id !in others && Numbered(o.id.document, o.id.part + 1) !in others
    requires task.Asked(o.id.document, o.id.part) && Completes(task, p, o.id.document, o.id.part, q)
    modifies engine.Repr(), sequence
    ensures !r.Unread? ==>
      && Mirrors(left, q.inflight) && sequence.Holds(q) && r.Advanced? == Advances(task, o.id.document, o.id.part)
      && Serves(engine, task, q.inflight, q.answers.Keys, due - {o.id}, others, base, script)
    ensures r.Unread? ==> o.malformed && Abortable(engine, task, left, others, base, script)
    ensures engine.Reruns() == old(engine.Reruns())
  {
    ServesPop(engine, task, p.inflight, p.answers.Keys, due, others, base, script, o.id);
    r, left := Reply(task, engine, uncached, sequence, inflight, o, p, q, q.answers.Keys,
                     due - {o.id}, others, base, script);
  }

  /** The requests in `done` that were in flight are answered; the others still are. */
  ghost predicate Delivers(p: Progress, q: Progress, done: set<RequestId>) {
    && p.answers.Keys <= q.answers.Keys
    && forall id :: InFlight(p.inflight, id) ==>
         if id in done then (id.document, id.part + 1) in q.answers.Keys else InFlight(q.inflight, id)
  }

  lemma DeliversBoth(p: Progress, q: Progress, r: Progress, first: set<RequestId>, second: set<RequestId>)
    requires Delivers(p, q, first) && Delivers(q, r, second)
    ensures Delivers(p, r, first + second)
  {
  }

  lemma DeliversNone(p: Progress, inflight: map<RequestId, Cell>, o: Output)
    requires Mirrors(inflight, p.inflight) && (!o.finished || o.id !in inflight)
    ensures Delivers(p, p, DoneBy(o))
  {
  }

  lemma DeliversOne(task: Task, p: Progress, id: RequestId, q: Progress)
    requires InFlight(p.inflight, id) && task.Asked(id.document, id.part)
    requires Completes(task, p, id.document, id.part, q)
    ensures Delivers(p, q, {id})
  {
    assert id == Numbered(id.document, id.part);
  }

  /** Requests whose output has been read after i outputs. */
  ghost function DoneBefore(outputs: seq<Output>, i: nat): set<RequestId>
    requires i <= |outputs|
  {
    FinishedIds(outputs) - FinishedIds(outputs[i..])
  }

  lemma DoneStep(view: View, outputs: seq<Output>, i: nat)
    requires Legal(view, outputs) && i < |outputs|
    ensures DoneBefore(outputs, i + 1) == DoneBefore(outputs, i) + DoneBy(outputs[i])
    ensures Due(view, outputs[i + 1..]) == Due(view, outputs[i..]) - DoneBy(outputs[i])
    ensures outputs[i].finished ==>
      outputs[i].id in Due(view, outputs[i..]) && Due(view, outputs[i..])[outputs[i].id] == outputs[i].prompt
  {
    LegalTail(view, outputs, i);
    assert FinishedIds(outputs[i..]) <= FinishedIds(outputs);
  }

  function DoneBy(o: Output): set<RequestId> {
    if o.finished then {o.id} else {}
  }

  /** Read the output of a request in flight, and count the document out when it is settled. */
  method ConsumeHit(task: Task, engine: AnyEngine, uncached: bool, sequence: FilterSequence,
                    inflight: map<RequestId, Cell>, expected: nat, o: Output, ghost cap: nat, ghost next: nat,
                    ghost p: Progress, ghost due: View, ghost others: set<RequestId>,
                    ghost base: Mark, ghost script: seq<Turn>)
    returns (ok: bool, left: map<RequestId, Cell>, remaining: nat, ghost q: Progress)
    requires Scheduled(task, cap, p, inflight, next, expected)
    requires sequence !in engine.Repr() && sequence.task == task && sequence.Holds(p)
    requires Serves(engine, task, p.inflight, p.answers.Keys, due, others, base, script)
    requires o.id in inflight && o.id in due && due[o.id] == o.prompt
    requires forall d: nat, s: nat :: Numbered(d, s) !in others
    modifies engine.Repr(), sequence
    ensures ok ==> Scheduled(task, cap, q, left, next, remaining) && sequence.Holds(q)
    ensures ok ==> Serves(engine, task, q.inflight, q.answers.Keys, due - {o.id}, others, base, script)
    ensures ok ==> Delivers(p, q, {o.id})
    ensures !ok ==> o.malformed && o.id.Numbered? && Abortable(engine, task, left, others, base, script)
    ensures engine.Reruns() == old(engine.Reruns())
  {
    WaitingAsked(task, p.inflight, engine.View(), due, others, o.id);
    q := CompleteNext(task, cap, p, o.id.document, o.id.part);
    DeliversOne(task, p, o.id, q);
    var r;
    r, left := ConsumeReply(task, engine, uncached, sequence, inflight, o, p, q, due, others, base, script);
    ok := !r.Unread?;
    remaining := if r.Settled? then expected - 1 else expected;
  }

  /** Read one output: skip it, or record its answer and let its document advance or leave. */
  method ConsumeOne(task: Task, engine: AnyEngine, uncached: bool, sequence: FilterSequence,
                    inflight: map<RequestId, Cell>, expected: nat, o: Output, ghost cap: nat, ghost next: nat,
                    ghost p: Progress, ghost due: View, ghost others: set<RequestId>,
                    ghost base: Mark, ghost script: seq<Turn>)
    returns (ok: bool, left: map<RequestId, Cell>, remaining: nat, ghost q: Progress)
    requires Scheduled(task, cap, p, inflight, next, expected)
    requires sequence !in engine.Repr() && sequence.task == task && sequence.Holds(p)
    requires Serves(engine, task, p.inflight, p.answers.Keys, due, others, base, script)
    requires o.finished ==> o.id in due && due[o.id] == o.prompt
    requires forall d: nat, s: nat :: Numbered(d, s) !in others
    modifies engine.Repr(), sequence
    ensures ok ==> Scheduled(task, cap, q, left, next, remaining) && sequence.Holds(q)
    ensures ok ==> Serves(engine, task, q.inflight, q.answers.Keys, due - DoneBy(o), others, base, script)
    ensures ok ==> Delivers(p, q, DoneBy(o))
    ensures !ok ==> o.malformed && o.id.Numbered? && Abortable(engine, task, left, others, base, script)
    ensures engine.Reruns() == old(engine.Reruns())
  {
    if o.finished && o.id in inflight {
      ok, left, remaining, q := ConsumeHit(task, engine, uncached, sequence, inflight, expected, o, cap, next,
                                           p, due, others, base, script);
      return;
    }
    DeliversNone(p, inflight, o);
    ServesPass(engine, task, p.inflight, p.answers.Keys, due, others, base, script, inflight, o);
    return true, inflight, expected, p;
  }

  /** An output that answers no request in flight changes nothing. */
  lemma ServesPass(engine: AnyEngine, task: Task, at: map<nat, nat>, answered: set<Cell>, due: View,
                   others: set<RequestId>, base: Mark, script: seq<Turn>, inflight: map<RequestId, Cell>, o: Output)
    requires Serves(engine, task, at, answered, due, others, base, script) && Mirrors(inflight, at)
    requires (!o.finished || o.id !in inflight) && forall d: nat, s: nat :: Numbered(d, s) !in others
    ensures Serves(engine, task, at, answered, due - DoneBy(o), others, base, script)
  {
    if o.finished {
      ServesSkip(engine, task, at, answered, due, others, base, script, o.id);
    } else {
      assert due - DoneBy(o) == due;
    }
  }

  /** The requests that finish in a batch, with their prompts. */
  ghost function Due(view: View, outputs: seq<Output>): View {
    map id | id in FinishedIds(outputs) && id in view :: view[id]
  }

  lemma LegalFinished(view: View, outputs: seq<Output>, i: nat)
    requires Legal(view, outputs) && i <= |outputs|
    ensures FinishedIds(outputs[i..]) <= view.Keys
  {
  }

  /** A step moves the requests it finishes from the engine's view into the batch. */
  lemma WaitingStep(task: Task, at: map<nat, nat>, view: View, others: set<RequestId>, finished: set<RequestId>, due: View)
    requires Waiting(task, at, view, map[], others) && finished <= view.Keys
    requires due.Keys == finished && forall id :: id in due ==> due[id] == view[id]
    ensures Waiting(task, at, view - finished, due, others)
  {
    forall d | d in at
      ensures PendingPrompt(view - finished, due, Numbered(d, at[d]), task.PromptOf(d, at[d]))
    {
      assert PendingPrompt(view, map[], Numbered(d, at[d]), task.PromptOf(d, at[d]));
    }
  }

  /** Every answer to a request of a filter sequence can be read. */
  ghost predicate Readable(outputs: seq<Output>) {
    forall i :: 0 <= i < |outputs| && outputs[i].id.Numbered? ==> !outputs[i].malformed
  }

  /** Read the outputs of one step, in order. */
  method Consume(task: Task, engine: AnyEngine, uncached: bool, sequence: FilterSequence,
                 inflight: map<RequestId, Cell>, expected: nat, outputs: seq<Output>, ghost cap: nat, ghost next: nat,
                 ghost p: Progress, ghost view: View, ghost others: set<RequestId>,
                 ghost base: Mark, ghost script: seq<Turn>)
    returns (ok: bool, left: map<RequestId, Cell>, remaining: nat, ghost q: Progress)
    requires Legal(view, outputs) && FinishedIds(outputs) <= view.Keys
    requires Scheduled(task, cap, p, inflight, next, expected)
    requires sequence !in engine.Repr() && sequence.task == task && sequence.Holds(p)
    requires Serves(engine, task, p.inflight, p.answers.Keys, Due(view, outputs), others, base, script)
    requires forall d: nat, s: nat :: Numbered(d, s) !in others
    modifies engine.Repr(), sequence
    ensures ok ==> Scheduled(task, cap, q, left, next, remaining) && sequence.Holds(q)
    ensures ok ==> Serves(engine, task, q.inflight, q.answers.Keys, map[], others, base, script)
    ensures ok ==> Delivers(p, q, FinishedIds(outputs))
    ensures !ok ==> Abortable(engine, task, left, others, base, script)
    ensures !ok ==> !Readable(outputs)
    ensures engine.Reruns() == old(engine.Reruns())
  {
    ok, left, remaining, q := true, inflight, expected, p;
    assert outputs[0..] == outputs;
    for i := 0 to |outputs|
      invariant Scheduled(task, cap, q, left, next, remaining) && sequence.Holds(q)
      invariant Serves(engine, task, q.inflight, q.answers.Keys, Due(view, outputs[i..]), others, base, script)
      invariant Delivers(p, q, DoneBefore(outputs, i))
      invariant engine.Reruns() == old(engine.Reruns())
    {
      DoneStep(view, outputs, i);
      ghost var before := q;
      ok, left, remaining, q := ConsumeOne(task, engine, uncached, sequence, left, remaining, outputs[i], cap, next,
                                           before, Due(view, outputs[i..]), others, base, script);
      if !ok {
        return;
      }
      DeliversBoth(p, before, q, DoneBefore(outputs, i), DoneBy(outputs[i]));
    }
    assert Due(view, outputs[|outputs|..]) == map[];
    assert DoneBefore(outputs, |outputs|) == FinishedIds(outputs);
  }

  ghost predicate SameRecord(p: Progress, q: Progress) {
    && q.answers == p.answers && q.survivors == p.survivors
    && q.requests == p.requests && q.promptTokens == p.promptTokens
  }

  /** Admit the next document: submit its first stage. */
  method AdmitOne(task: Task, ghost cap: nat, engine: AnyEngine, uncached: bool, inflight: map<RequestId, Cell>,
                  next: nat, ghost expected: nat, ghost p: Progress, ghost others: set<RequestId>,
                  ghost base: Mark, ghost script: seq<Turn>)
    returns (flying: map<RequestId, Cell>, ghost q: Progress)
    requires Scheduled(task, cap, p, inflight, next, expected) && next < |task.bodies| && expected < cap == base.cap
    requires Serves(engine, task, p.inflight, p.answers.Keys, map[], others, base, script)
    modifies engine.Repr()
    ensures Scheduled(task, cap, q, flying, next + 1, expected + 1) && SameRecord(p, q)
    ensures Serves(engine, task, q.inflight, q.answers.Keys, map[], others, base, script)
    ensures engine.Reruns() == old(engine.Reruns())
  {
    q := AdmitNext(task, cap, p);
    MirrorsSubmit(inflight, p.inflight, next, 0);
    ReachableInv(task, cap, p);
    MayAdmit(FilteringOf(task, engine, base), LogOf(engine, base), p);
    flying := SubmitNext(task, engine, uncached, inflight, next, 0, p.inflight, p.answers.Keys, map[],
                         others, base, script);
  }

  /** Admit documents while the cap allows. */
  method AdmitAll(task: Task, cap: nat, engine: AnyEngine, uncached: bool, inflight: map<RequestId, Cell>,
                  nextDocument: nat, expectedRows: nat, ghost p: Progress, ghost others: set<RequestId>,
                  ghost base: Mark, ghost script: seq<Turn>)
    returns (flying: map<RequestId, Cell>, next: nat, expected: nat, ghost q: Progress)
    requires Scheduled(task, cap, p, inflight, nextDocument, expectedRows) && base.cap == cap
    requires Serves(engine, task, p.inflight, p.answers.Keys, map[], others, base, script)
    modifies engine.Repr()
    ensures Scheduled(task, cap, q, flying, next, expected) && SameRecord(p, q)
    ensures Serves(engine, task, q.inflight, q.answers.Keys, map[], others, base, script)
    ensures next == |task.bodies| || expected == cap
    ensures nextDocument <= next && expected == expectedRows + (next - nextDocument)
    ensures engine.Reruns() == old(engine.Reruns())
  {
    flying, next, expected, q := inflight, nextDocument, expectedRows, p;
    while next < |task.bodies| && expected < cap
      invariant Scheduled(task, cap, q, flying, next, expected) && SameRecord(p, q)
      invariant nextDocument <= next && expected == expectedRows + (next - nextDocument)
      invariant engine.Reruns() == old(engine.Reruns())
      invariant Serves(engine, task, q.inflight, q.answers.Keys, map[], others, base, script)
    {
      ghost var before := q;
      flying, q := AdmitOne(task, cap, engine, uncached, flying, next, expected, before, others, base, script);
      expected := expected + 1;
      next := next + 1;
    }
  }

  /** A document in flight has a cell to answer. */
  lemma InFlightUnanswered(task: Task, cap: nat, p: Progress, d: nat)
    requires |task.questions| > 0 && Reachable(task, cap, p) && d in p.inflight
    ensures (d, p.inflight[d] + 1) in Unanswered(task, p)
  {
    ReachableInv(task, cap, p);
    CompletionAnswers(task, cap, p, d);
  }

  /** The answers that requests would give. */
  ghost function CellsOf(ids: set<RequestId>): set<Cell> {
    set id | id in ids && id.Numbered? :: (id.document, id.part + 1)
  }

  /** How many turns the run can still take when each answers one request: a request that may be sent
      twice takes two, unless it is already being rerun. */
  ghost function Remaining(task: Task, p: Progress, tries: nat, reruns: set<RequestId>): nat {
    |Unanswered(task, p)| + if tries <= 1 then 0 else |Unanswered(task, p) - CellsOf(reruns)|
  }

  /** One of the cells in flight is answered, or from now on rerun. */
  ghost predicate Moves(at: map<nat, nat>, d: nat, done: set<RequestId>, before: set<RequestId>, after: set<RequestId>) {
    d in at && (Numbered(d, at[d]) in done || (Numbered(d, at[d]) in after && Numbered(d, at[d]) !in before))
  }

  lemma CellRerun(reruns: set<RequestId>, d: nat, s: nat)
    ensures (d, s + 1) in CellsOf(reruns) <==> Numbered(d, s) in reruns
  {
    if Numbered(d, s) in reruns {
      assert (Numbered(d, s).document, Numbered(d, s).part + 1) in CellsOf(reruns);
    }
  }

  /** What is being rerun stays so until it is answered. */
  lemma RerunsKept(task: Task, p: Progress, q: Progress, done: set<RequestId>, before: set<RequestId>,
                   after: set<RequestId>)
    requires Delivers(p, q, done) && before - done <= after
    requires forall id :: id in before && id.Numbered? ==> InFlight(p.inflight, id)
    ensures Unanswered(task, q) - CellsOf(after) <= Unanswered(task, p) - CellsOf(before)
    ensures Unanswered(task, q) <= Unanswered(task, p)
  {
    forall cell | cell in CellsOf(before) && cell in Unanswered(task, q) ensures cell in CellsOf(after) {
      var id :| id in before && id.Numbered? && (id.document, id.part + 1) == cell;
      assert id == Numbered(id.document, id.part) && InFlight(p.inflight, id);
      CellRerun(after, id.document, id.part);
    }
  }

  /** A set that loses an element is smaller; one that may lose some is no larger. */
  lemma OneLess(a: set<Cell>, b: set<Cell>, c: set<Cell>, d: set<Cell>, cell: Cell)
    requires a <= b && c <= d && (cell in b - a || cell in d - c)
    ensures |a| <= |b| && |c| <= |d|
    ensures cell in b - a ==> |a| < |b|
    ensures cell in d - c ==> |c| < |d|
  {
    SubsetSize(a, b);
    SubsetSize(c, d);
    if cell in b - a {
      SubsetSize(a, b - {cell});
    }
    if cell in d - c {
      SubsetSize(c, d - {cell});
    }
  }

  /** Answering or rerunning a cell in flight leaves fewer turns to take. */
  lemma MovingShrinks(task: Task, cap: nat, p: Progress, q: Progress, d: nat, done: set<RequestId>,
                      before: set<RequestId>, after: set<RequestId>, tries: nat)
    requires |task.questions| > 0 && Reachable(task, cap, p) && Delivers(p, q, done) && before - done <= after
    requires forall id :: id in before && id.Numbered? ==> InFlight(p.inflight, id)
    requires Moves(p.inflight, d, done, before, after) && (tries <= 1 ==> after == {})
    ensures Remaining(task, q, tries, after) < Remaining(task, p, tries, before)
  {
    var (a, b) := (Unanswered(task, q), Unanswered(task, p));
    RerunsKept(task, p, q, done, before, after);
    MovedCell(task, cap, p, q, d, done, before, after);
    OneLess(a, b, a - CellsOf(after), b - CellsOf(before), (d, p.inflight[d] + 1));
  }

  lemma MovedCell(task: Task, cap: nat, p: Progress, q: Progress, d: nat, done: set<RequestId>,
                  before: set<RequestId>, after: set<RequestId>)
    requires |task.questions| > 0 && Reachable(task, cap, p) && Delivers(p, q, done)
    requires Moves(p.inflight, d, done, before, after)
    ensures var cell := (d, p.inflight[d] + 1);
      var (a, b) := (Unanswered(task, q), Unanswered(task, p));
      if Numbered(d, p.inflight[d]) in done then cell in b - a
      else cell in (b - CellsOf(before)) - (a - CellsOf(after)) && after != {}
  {
    var id := Numbered(d, p.inflight[d]);
    assert InFlight(p.inflight, id);
    InFlightUnanswered(task, cap, p, d);
    if id !in done {
      CellRerun(before, d, p.inflight[d]);
      CellRerun(after, d, p.inflight[d]);
    }
  }

  /** Admission answers nothing. */
  lemma SameRemaining(task: Task, p: Progress, q: Progress, tries: nat, reruns: set<RequestId>)
    requires SameRecord(p, q)
    ensures Remaining(task, p, tries, reruns) == Remaining(task, q, tries, reruns)
  {
  }

  /** The engine holds no requests with the ids of a filter sequence but its own. */
  ghost predicate Separate(others: set<RequestId>, base: Mark) {
    && (forall d: nat, s: nat :: Numbered(d, s) !in others)
    && forall id :: id in base.strangers ==> !WithReruns(IsNumbered)(id)
  }

  /** While a document is in flight, a turn that answers makes one move. */
  lemma AnsweredMoves(task: Task, at: map<nat, nat>, view: View, others: set<RequestId>, outputs: seq<Output>,
                      before: set<RequestId>, after: set<RequestId>)
    returns (d: nat)
    requires Waiting(task, at, view, map[], others) && forall d: nat, s: nat :: Numbered(d, s) !in others
    requires Replied(outputs, IsNumbered, before, after)
    requires FinishedIds(outputs) <= view.Keys && after <= view.Keys
    ensures Readable(outputs) && Moves(at, d, FinishedIds(outputs), before, after)
  {
    var id :| IsNumbered(id) && Dealt(id, outputs, before, after);
    assert id == Numbered(id.document, id.part);
    assert InFlight(at, id);
    d := id.document;
  }

  /** While a document is in flight, the engine holds a request of the sequence. */
  lemma WaitingAnswerable(engine: AnyEngine, task: Task, at: map<nat, nat>, answered: set<Cell>, others: set<RequestId>,
                          base: Mark)
    requires Serves(engine, task, at, answered, map[], others, base, engine.Script())
    requires Separate(others, base) && at != map[]
    requires engine.Script() != [] && engine.Answering(engine.Script()[0], IsNumbered)
    ensures engine.Answerable(IsNumbered)
  {
    var d :| d in at;
    assert PendingPrompt(engine.View(), map[], Numbered(d, at[d]), task.PromptOf(d, at[d]));
    assert Numbered(d, at[d]) in engine.View() && IsNumbered(Numbered(d, at[d]));
  }

  /** A step keeps the records: what it answers is due. */
  lemma StepRecords(engine: AnyEngine, task: Task, at: map<nat, nat>, answered: set<Cell>, base: Mark, before: Trace,
                    held: View, shown: seq<Output>, again: seq<RequestId>, due: View)
    requires base.events <= |before.events| && held.Keys == before.held
    requires var (x, log) := (FilteringOf(task, engine, base), Since(before.events, base.events));
      Logged(x, log, at, answered, map[]) && Flown(x, log, before.held) && AtStep(x, log)
    requires Legal(held, shown) && SentAgain(again, shown)
    requires engine.Trace() == AfterReruns(AfterOutputs(before, shown), again)
    requires forall id: RequestId :: id.Numbered? ==> (id in due <==> id in AnswersOf(engine.Retry?, shown))
    ensures Records(engine, task, at, answered, due, base)
  {
    var (x, log) := (FilteringOf(task, engine, base), Since(before.events, base.events));
    LoggedStep(x, log, at, answered, held, shown, again, due);
    StepOrderly(x, log, held, shown, again);
    SinceMore(before.events, [Stepped], base.events);
    SinceMore(before.events + [Stepped], ShownBy(shown), base.events);
    SinceMore(before.events + [Stepped] + ShownBy(shown), QueuedAgain(again), base.events);
  }

  /** A document in flight has a request in flight. */
  lemma ServesFlies(engine: AnyEngine, task: Task, at: map<nat, nat>, answered: set<Cell>, others: set<RequestId>, base: Mark,
                    script: seq<Turn>, d: nat)
    requires Serves(engine, task, at, answered, map[], others, base, script) && d in at
    ensures Flies(FilteringOf(task, engine, base), LogOf(engine, base), d)
  {
    var x := FilteringOf(task, engine, base);
    var id := Numbered(d, at[d]);
    assert PendingPrompt(engine.View(), map[], id, task.PromptOf(d, at[d]));
    engine.ViewHeld(id);
    assert x.Owns(id) && (engine.Retry? ==> x.Owns(Recompute(id)));
    assert DocumentOf(id) == d && DocumentOf(Recompute(id)) == d;
  }

  /** Once it has admitted all it may, the scheduler may step the engine. */
  lemma ServesAtStep(engine: AnyEngine, task: Task, cap: nat, p: Progress, others: set<RequestId>, base: Mark,
                     script: seq<Turn>)
    requires |task.questions| > 0 && Reachable(task, cap, p) && base.cap == cap
    requires Serves(engine, task, p.inflight, p.answers.Keys, map[], others, base, script)
    requires p.next == |task.bodies| || |p.inflight.Keys| == cap
    ensures AtStep(FilteringOf(task, engine, base), LogOf(engine, base))
  {
    ReachableInv(task, cap, p);
    forall d | d in p.inflight ensures Flies(FilteringOf(task, engine, base), LogOf(engine, base), d) {
      ServesFlies(engine, task, p.inflight, p.answers.Keys, others, base, script, d);
    }
    MayStep(FilteringOf(task, engine, base), LogOf(engine, base), p);
  }

  /** One engine step, which keeps the records. */
  method StepEngine(task: Task, engine: AnyEngine, ghost at: map<nat, nat>, ghost answered: set<Cell>, ghost base: Mark)
    returns (batch: Batch)
    requires engine.Valid() && engine.Synced() && Records(engine, task, at, answered, map[], base)
    requires AtStep(FilteringOf(task, engine, base), LogOf(engine, base))
    modifies engine.Repr()
    ensures engine.Valid() && engine.Strangers() <= old(engine.Strangers())
    ensures engine.Script() == if old(engine.Script()) == [] then [] else old(engine.Script())[1..]
    ensures old(engine.Script()) == [] ==> batch.Raised?
    ensures batch.Raised? ==> engine.View().Keys <= old(engine.View()).Keys
    ensures batch.Ready? ==> engine.Synced() && Legal(old(engine.View()), batch.outputs)
    ensures batch.Ready? ==> FinishedIds(batch.outputs) <= old(engine.View()).Keys
    ensures batch.Ready? ==> engine.View() == old(engine.View()) - FinishedIds(batch.outputs)
    ensures batch.Ready? ==> old(engine.Reruns()) - FinishedIds(batch.outputs) <= engine.Reruns()
    ensures old(engine.Answerable(IsNumbered)) ==>
      batch.Ready? && Replied(batch.outputs, IsNumbered, old(engine.Reruns()), engine.Reruns())
    ensures forall x :: old(engine.MayAdd(x)) ==> engine.MayAdd(x)
    ensures InOrder(engine, task, base)
    ensures batch.Ready? ==> Records(engine, task, at, answered, Due(old(engine.View()), batch.outputs), base)
  {
    ghost var (view, trace, held) := (engine.View(), engine.Trace(), PromptsOf(engine.Inner().outstanding));
    ghost var shown, again;
    batch, shown, again := engine.Step(IsNumbered);
    ghost var due := if batch.Ready? then Due(view, batch.outputs) else AllDue(AnswersOf(engine.Retry?, shown));
    if batch.Ready? {
      assert batch.outputs[0..] == batch.outputs;
      LegalFinished(view, batch.outputs, 0);
    }
    StepRecords(engine, task, at, answered, base, trace, held, shown, again, due);
  }

  ghost function AllDue(ids: set<RequestId>): (r: View)
    ensures r.Keys == ids
  {
    map id | id in ids :: []
  }

  /** One engine step, as the scheduler sees it; an answering turn moves some document `d`. */
  method StepOnce(task: Task, engine: AnyEngine, ghost at: map<nat, nat>, ghost answered: set<Cell>,
                  ghost others: set<RequestId>, ghost base: Mark)
    returns (batch: Batch, ghost d: nat)
    requires Serves(engine, task, at, answered, map[], others, base, engine.Script())
    requires Separate(others, base) && AtStep(FilteringOf(task, engine, base), LogOf(engine, base))
    modifies engine.Repr()
    ensures engine.Script() == if old(engine.Script()) == [] then [] else old(engine.Script())[1..]
    ensures old(engine.Script()) == [] ==> batch.Raised?
    ensures batch.Ready? ==>
      && Legal(old(engine.View()), batch.outputs) && FinishedIds(batch.outputs) <= old(engine.View()).Keys
      && Serves(engine, task, at, answered, Due(old(engine.View()), batch.outputs), others, base, engine.Script())
      && old(engine.Reruns()) - FinishedIds(batch.outputs) <= engine.Reruns()
    ensures batch.Raised? ==>
      && engine.Valid() && engine.View().Keys <= old(engine.View()).Keys && engine.Strangers() <= base.strangers
      && InOrder(engine, task, base)
    ensures old(NextAnswers(engine)) && at != map[] ==>
      && batch.Ready? && Readable(batch.outputs)
      && Moves(at, d, FinishedIds(batch.outputs), old(engine.Reruns()), engine.Reruns())
  {
    ghost var good := NextAnswers(engine) && at != map[];
    ghost var (view, before) := (engine.View(), engine.Reruns());
    if good {
      WaitingAnswerable(engine, task, at, answered, others, base);
    }
    batch := StepEngine(task, engine, at, answered, base);
    d := 0;
    if batch.Ready? {
      WaitingStep(task, at, view, others, FinishedIds(batch.outputs), Due(view, batch.outputs));
      engine.RerunsInView();
      if good {
        d := AnsweredMoves(task, at, view, others, batch.outputs, before, engine.Reruns());
      }
    }
  }

  /** The next turn answers a request of the sequence, if there is one. */
  ghost predicate NextAnswers(engine: AnyEngine)
    reads engine.Repr()
  {
    engine.Script() != [] && engine.Answering(engine.Script()[0], IsNumbered)
  }

  /** Requests of the sequence that are being rerun are in flight. */
  lemma RerunsInFlight(engine: AnyEngine, task: Task, at: map<nat, nat>, answered: set<Cell>, others: set<RequestId>,
                       base: Mark)
    requires Serves(engine, task, at, answered, map[], others, base, engine.Script())
    requires Separate(others, base)
    ensures forall id :: id in engine.Reruns() && id.Numbered? ==> InFlight(at, id)
  {
    engine.RerunsInView();
    forall id | id in engine.Reruns() && id.Numbered? ensures InFlight(at, id) {
      assert id == Numbered(id.document, id.part);
      assert id in engine.View();
    }
  }

  /** Step the engine and read its outputs. */
  method StepAndConsume(task: Task, engine: AnyEngine, uncached: bool, sequence: FilterSequence,
                        inflight: map<RequestId, Cell>, expectedRows: nat, ghost cap: nat, ghost next: nat, ghost p: Progress,
                        ghost others: set<RequestId>, ghost base: Mark)
    returns (ok: bool, left: map<RequestId, Cell>, expected: nat, ghost q: Progress)
    requires Scheduled(task, cap, p, inflight, next, expectedRows) && base.cap == cap
    requires next == |task.bodies| || expectedRows == cap
    requires sequence !in engine.Repr() && sequence.task == task && sequence.Holds(p)
    requires Serves(engine, task, p.inflight, p.answers.Keys, map[], others, base, engine.Script())
    requires Separate(others, base)
    modifies engine.Repr(), sequence
    ensures engine.Script() == if old(engine.Script()) == [] then [] else old(engine.Script())[1..]
    ensures old(engine.Script()) == [] ==> !ok
    ensures ok ==> Scheduled(task, cap, q, left, next, expected) && sequence.Holds(q)
    ensures ok ==> Serves(engine, task, q.inflight, q.answers.Keys, map[], others, base, engine.Script())
    ensures !ok ==> Abortable(engine, task, left, others, base, engine.Script())
    ensures old(NextAnswers(engine)) && p.inflight != map[] ==>
      ok && Remaining(task, q, engine.Tries(), engine.Reruns()) < Remaining(task, p, engine.Tries(), old(engine.Reruns()))
  {
    ghost var (good, before) := (NextAnswers(engine) && p.inflight != map[], engine.Reruns());
    ServesAbortable(engine, task, p.inflight, p.answers.Keys, map[], others, base, engine.Script(), inflight);
    RerunsInFlight(engine, task, p.inflight, p.answers.Keys, others, base);
    ghost var view := engine.View();
    ghost var d;
    var batch;
    ServesAtStep(engine, task, cap, p, others, base, engine.Script());
    batch, d := StepOnce(task, engine, p.inflight, p.answers.Keys, others, base);
    if batch.Raised? {
      return false, inflight, expectedRows, p;
    }
    ok, left, expected, q := Consume(task, engine, uncached, sequence, inflight, expectedRows, batch.outputs, cap, next,
                                     p, view, others, base, engine.Script());
    if good {
      MovingShrinks(task, cap, p, q, d, FinishedIds(batch.outputs), before, engine.Reruns(), engine.Tries());
    }
  }

  /** One round of the scheduler: admit, step, and read the outputs. */
  method Round(task: Task, cap: nat, engine: AnyEngine, uncached: bool, sequence: FilterSequence,
               inflight: map<RequestId, Cell>, nextDocument: nat, expectedRows: nat, ghost p: Progress,
               ghost others: set<RequestId>, ghost base: Mark)
    returns (ok: bool, left: map<RequestId, Cell>, next: nat, expected: nat, ghost q: Progress)
    requires Scheduled(task, cap, p, inflight, nextDocument, expectedRows)
    requires sequence !in engine.Repr() && sequence.task == task && sequence.Holds(p)
    requires Serves(engine, task, p.inflight, p.answers.Keys, map[], others, base, engine.Script())
    requires Separate(others, base)
    requires (nextDocument < |task.bodies| || expectedRows > 0) && base.cap == cap
    modifies engine.Repr(), sequence
    ensures engine.Script() == if old(engine.Script()) == [] then [] else old(engine.Script())[1..]
    ensures old(engine.Script()) == [] ==> !ok
    ensures ok ==> Scheduled(task, cap, q, left, next, expected) && sequence.Holds(q)
    ensures ok ==> Serves(engine, task, q.inflight, q.answers.Keys, map[], others, base, engine.Script())
    ensures !ok ==> Abortable(engine, task, left, others, base, engine.Script())
    ensures old(NextAnswers(engine)) && cap > 0 ==>
      ok && Remaining(task, q, engine.Tries(), engine.Reruns()) < Remaining(task, p, engine.Tries(), old(engine.Reruns()))
  {
    ghost var flying;
    left, next, expected, flying := AdmitAll(task, cap, engine, uncached, inflight, nextDocument, expectedRows, p,
                                             others, base, engine.Script());
    SameRemaining(task, p, flying, engine.Tries(), engine.Reruns());
    assert cap > 0 ==> flying.inflight != map[];
    ok, left, expected, q := StepAndConsume(task, engine, uncached, sequence, left, expected, cap, next, flying,
                                            others, base);
  }

  /** Every turn answers a request of the sequence, if there is one, and there are enough turns. */
  ghost predicate KeepsAnswering(engine: AnyEngine, turns: nat)
    reads engine.Repr()
  {
    |engine.Script()| >= turns && forall turn :: turn in engine.Script() ==> engine.Answering(turn, IsNumbered)
  }

  /** The scheduling loop: rounds until every document is settled or something raises. */
  method RunRounds(task: Task, cap: nat, engine: AnyEngine, uncached: bool, sequence: FilterSequence,
                   ghost others: set<RequestId>, ghost base: Mark)
    returns (ok: bool, inflight: map<RequestId, Cell>, ghost p: Progress)
    requires |task.questions| > 0 && sequence !in engine.Repr() && sequence.task == task && sequence.Holds(START)
    requires Serves(engine, task, map[], {}, map[], others, base, engine.Script())
    requires Separate(others, base) && base.cap == cap
    modifies engine.Repr(), sequence
    ensures Abortable(engine, task, inflight, others, base, engine.Script())
    ensures ok ==> Reachable(task, cap, p) && Finished(task, p) && sequence.Holds(p) && inflight == map[]
    ensures (cap > 0 || task.bodies == []) && old(KeepsAnswering(engine, engine.Tries() * |task.AskedCells(1)|)) ==> ok
  {
    StartReachable(task, cap);
    p, inflight, ok := START, map[], true;
    var expectedRows, nextDocument: nat := 0, 0;
    StartRemaining(task, engine.Tries(), engine.Reruns());
    ghost var live := cap > 0 && KeepsAnswering(engine, engine.Tries() * |task.AskedCells(1)|);
    while nextDocument < |task.bodies| || inflight != map[]
      invariant ok && sequence !in engine.Repr() && sequence.task == task && sequence.Holds(p)
      invariant Scheduled(task, cap, p, inflight, nextDocument, expectedRows)
      invariant Serves(engine, task, p.inflight, p.answers.Keys, map[], others, base, engine.Script())
      invariant live ==> KeepsAnswering(engine, Remaining(task, p, engine.Tries(), engine.Reruns()))
      decreases |engine.Script()|
    {
      MoreToDo(task, cap, p, inflight, nextDocument, expectedRows);
      ghost var before := p;
      ok, inflight, nextDocument, expectedRows, p := Round(task, cap, engine, uncached, sequence, inflight, nextDocument,
                                                           expectedRows, before, others, base);
      if !ok {
        return;
      }
    }
    ServesAbortable(engine, task, p.inflight, p.answers.Keys, map[], others, base, engine.Script(), inflight);
    NothingInFlight(inflight, p.inflight);
  }

  /** At the start each request may take all its tries. */
  lemma StartRemaining(task: Task, tries: nat, reruns: set<RequestId>)
    requires tries == 1 || tries == 2
    ensures Remaining(task, START, tries, reruns) <= tries * |task.AskedCells(1)|
  {
    assert START.answers.Keys == {};
    assert Unanswered(task, START) == task.AskedCells(1);
    SubsetSize(Unanswered(task, START) - CellsOf(reruns), task.AskedCells(1));
  }

  lemma NothingInFlight(inflight: map<RequestId, Cell>, at: map<nat, nat>)
    requires Mirrors(inflight, at) && inflight == map[]
    ensures at == map[]
  {
    forall d ensures d !in at {
      assert d in at ==> InFlight(at, Numbered(d, at[d]));
    }
  }

  /** `run_filter_sequence`: whatever the engine does, a run that returns has the reference result,
      and a run that ends, normally or by an exception, leaves none of its requests in the engine.
      An engine that answers some request of the run in each turn makes it return, in no more turns
      than cells to ask; with reruns, in twice as many. */
  method RunFilterSequence(task: Task, engine: AnyEngine, uncached: bool, budget: int, block: nat, maxSeqs: Option<nat>)
    returns (r: Outcome)
    requires |task.questions| > 0 && block >= 1
    requires engine.Valid() && engine.Synced()
    requires forall d: nat, s: nat :: engine.MayAdd(Numbered(d, s))
    modifies engine.Repr()
    ensures r.Returned? ==> r.result == ReferenceResult(task)
    ensures engine.Valid() && engine.View().Keys <= old(engine.View()).Keys
    ensures engine.Strangers() <= old(engine.Strangers())
    ensures engine.Inner().outstanding.Keys
      <= old(engine.Inner().outstanding).Keys + Carriers(old(engine.View()).Keys)
    ensures |old(engine.Inner().events)| <= |engine.Inner().events|
    ensures Orderly(Filtering(task, FilterDocumentCap(task.bodies, task.questions, budget, block, maxSeqs), engine.Retry?),
                    engine.Inner().events[|old(engine.Inner().events)|..])
    ensures maxSeqs == Some(0) && task.bodies != [] ==> r.Propagated?
    ensures maxSeqs != Some(0) && old(KeepsAnswering(engine, engine.Tries() * |task.AskedCells(1)|)) ==> r.Returned?
  {
    var cap := FilterDocumentCap(task.bodies, task.questions, budget, block, maxSeqs);
    ghost var others, base := engine.View().Keys, Mark(engine.Strangers(), |engine.Inner().events|, cap);
    var sequence := new FilterSequence(task);
    engine.StrangersHeld();
    ghost var held := engine.Inner().outstanding.Keys;
    NumberedAreNew(engine);
    StrangersApart(engine);
    StartRecords(engine, task, base);
    if task.bodies != [] {
      FilterCapPositive(task.bodies, task.questions, budget, block, maxSeqs);
    }
    var ok, inflight;
    ghost var p;
    ok, inflight, p := RunRounds(task, cap, engine, uncached, sequence, others, base);
    r := Propagated;
    if ok {
      FinalState(task, cap, p);
      r := Returned(FilterResult(SortInts(sequence.survivors), sequence.answers,
                                 sequence.requests, sequence.promptTokens));
    }
    if inflight != map[] {
      engine.AbortRequest(inflight.Keys);
    }
    engine.HeldWithin(base.strangers, others, held);
  }

  /** The loop condition means that some cell is unanswered. */
  lemma MoreToDo(task: Task, cap: nat, p: Progress, inflight: map<RequestId, Cell>, next: nat, expected: nat)
    requires Scheduled(task, cap, p, inflight, next, expected)
    requires next < |task.bodies| || inflight != map[]
    ensures next < |task.bodies| || expected > 0
    ensures |Unanswered(task, p)| > 0
  {
    ReachableInv(task, cap, p);
    if inflight != map[] {
      var id :| id in inflight;
      assert InFlight(p.inflight, id);
      assert id.document in p.inflight.Keys;
      InFlightUnanswered(task, cap, p, id.document);
    } else {
      assert task.Asked(next, 0);
      assert !Answered(task, p, next, 1);
      assert (next, 1) in Unanswered(task, p);
    }
  }

  /** The result of the sequence is the reference result once every document is settled. */
  lemma FinalState(task: Task, cap: nat, p: Progress)
    requires |task.questions| > 0 && Reachable(task, cap, p) && Finished(task, p)
    ensures FilterResult(SortInts(p.survivors), p.answers, p.requests, p.promptTokens) == ReferenceResult(task)
    ensures cap == 0 ==> task.bodies == []
  {
    ReachableInv(task, cap, p);
    FinishedIsReference(task, cap, p);
    if cap == 0 {
      var states, events :| IsRun(task, cap, states, events) && states[|events|] == p;
      ZeroCapStarves(task, states, events);
    }
  }

  /** At the start the engine holds nothing of the sequence. */
  lemma StartRecords(engine: AnyEngine, task: Task, base: Mark)
    requires forall d: nat, s: nat :: engine.MayAdd(Numbered(d, s))
    requires base.events == |engine.Inner().events|
    ensures Records(engine, task, map[], {}, map[], base)
  {
    var x := FilteringOf(task, engine, base);
    assert LogOf(engine, base) == [];
    LoggedStart(x);
    forall id | x.Owns(id) ensures id !in engine.Inner().outstanding {
      assert Base(id) == Numbered(Base(id).document, Base(id).part);
      assert engine.MayAdd(Base(id));
    }
  }

  lemma StrangersApart(engine: AnyEngine)
    requires engine.Valid() && forall d: nat, s: nat :: engine.MayAdd(Numbered(d, s))
    ensures forall id :: id in engine.Strangers() ==> !WithReruns(IsNumbered)(id)
  {
    forall id | WithReruns(IsNumbered)(id) ensures id !in engine.Strangers() {
      assert IsNumbered(Base(id));
      assert Base(id) == Numbered(Base(id).document, Base(id).part);
      engine.AddableApart(id);
    }
  }

  lemma NumberedAreNew(engine: AnyEngine)
    requires engine.Valid() && forall d: nat, s: nat :: engine.MayAdd(Numbered(d, s))
    ensures forall d: nat, s: nat :: Numbered(d, s) !in engine.View()
  {
    forall d: nat, s: nat ensures Numbered(d, s) !in engine.View() {
      engine.MayAddIsNew(Numbered(d, s));
    }
  }
}
