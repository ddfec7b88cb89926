/** Interleaved workers over one document iterator (`run_filter_sequence_async`). */
module AsyncFilter {
  import opened Requests
  import opened DocumentCaps
  import opened Common
  import opened FilterTask
  import opened FilterScheduling
  import opened Sorting

  /** A worker task: not started, awaiting one request, or out of documents. */
  datatype Worker = Created | Awaiting(document: nat, stage: nat) | Done

  /** What the event loop does next: look at the workers and resume one, whose request answers, cannot
      be read, or fails. */
  datatype Wake = Wake(pick: seq<Worker> -> nat, malformed: bool, fails: bool)

  /** The event loop resumes a worker that can be resumed, and the worker goes on. */
  ghost predicate WakesOne(wake: Wake) {
    && !wake.malformed && !wake.fails
    && forall workers: seq<Worker> {:trigger wake.pick(workers)} :: SomeActive(workers) ==>
         wake.pick(workers) < |workers| && workers[wake.pick(workers)] != Done
  }

  predicate SomeActive(workers: seq<Worker>) {
    exists w :: 0 <= w < |workers| && workers[w] != Done
  }

  ghost predicate KeepsWaking(wakes: seq<Wake>, turns: int) {
    |wakes| >= turns && forall wake :: wake in wakes ==> WakesOne(wake)
  }

  /** Workers that have not started. */
  function Unstarted(workers: seq<Worker>): (r: nat)
    ensures r <= |workers|
  {
    if workers == [] then 0
    else Unstarted(workers[..|workers| - 1]) + if workers[|workers| - 1].Created? then 1 else 0
  }

  lemma {:induction false} UnstartedUpdate(workers: seq<Worker>, w: nat, x: Worker)
    requires w < |workers|
    ensures Unstarted(workers[w := x]) + (if workers[w].Created? then 1 else 0)
      == Unstarted(workers) + if x.Created? then 1 else 0
  {
    var n := |workers| - 1;
    if w < n {
      UnstartedUpdate(workers[..n], w, x);
      assert workers[w := x][..n] == workers[..n][w := x];
    } else {
      assert workers[w := x][..n] == workers[..n];
    }
  }

  /** The workers awaiting a request are the documents in flight, one each. */
  ghost predicate Covers(workers: seq<Worker>, at: map<nat, nat>) {
    Places(workers, at) && |at.Keys| == Busy(workers)
  }

  ghost predicate Places(workers: seq<Worker>, at: map<nat, nat>) {
    && (forall w :: 0 <= w < |workers| && workers[w].Awaiting? ==>
          workers[w].document in at && at[workers[w].document] == workers[w].stage)
    && (forall v, w :: 0 <= v < w < |workers| && workers[v].Awaiting? && workers[w].Awaiting? ==>
          workers[v].document != workers[w].document)
    && (forall d :: d in at ==> Awaited(workers, d, at[d]))
  }

  function Busy(workers: seq<Worker>): (r: nat)
    ensures r <= |workers|
  {
    if workers == [] then 0
    else Busy(workers[..|workers| - 1]) + if workers[|workers| - 1].Awaiting? then 1 else 0
  }

  lemma {:induction false} BusyUpdate(workers: seq<Worker>, w: nat, x: Worker)
    requires w < |workers|
    ensures Busy(workers[w := x]) + (if workers[w].Awaiting? then 1 else 0)
      == Busy(workers) + if x.Awaiting? then 1 else 0
  {
    var n := |workers| - 1;
    if w < n {
      BusyUpdate(workers[..n], w, x);
      assert workers[w := x][..n] == workers[..n][w := x];
    } else {
      assert workers[w := x][..n] == workers[..n];
    }
  }

  lemma BusyRoom(workers: seq<Worker>, w: nat)
    requires w < |workers| && !workers[w].Awaiting?
    ensures Busy(workers) < |workers|
  {
    BusyUpdate(workers, w, Awaiting(0, 0));
  }

  /** Some worker awaits document d at stage s. */
  ghost predicate Awaited(workers: seq<Worker>, d: nat, s: nat) {
    exists w :: 0 <= w < |workers| && workers[w] == Awaiting(d, s)
  }

  /** A worker that awaits nothing sends a request of a document not in flight. */
  lemma CoversSend(workers: seq<Worker>, at: map<nat, nat>, w: nat, d: nat, s: nat)
    requires Covers(workers, at) && w < |workers| && !workers[w].Awaiting? && d !in at
    ensures Covers(workers[w := Awaiting(d, s)], at[d := s])
  {
    BusyUpdate(workers, w, Awaiting(d, s));
    PlacesSend(workers, at, w, d, s);
    assert at[d := s].Keys == at.Keys + {d};
  }

  lemma PlacesSend(workers: seq<Worker>, at: map<nat, nat>, w: nat, d: nat, s: nat)
    requires Places(workers, at) && w < |workers| && !workers[w].Awaiting? && d !in at
    ensures Places(workers[w := Awaiting(d, s)], at[d := s])
  {
    var (after, at') := (workers[w := Awaiting(d, s)], at[d := s]);
    assert forall v :: 0 <= v < |workers| && workers[v].Awaiting? ==> workers[v].document != d;
    forall e | e in at' ensures Awaited(after, e, at'[e]) {
      if e == d {
        assert after[w] == Awaiting(e, at'[e]);
      } else {
        StillAwaited(workers, w, Awaiting(d, s), e, at[e]);
      }
    }
  }

  lemma StillAwaited(workers: seq<Worker>, w: nat, x: Worker, e: nat, s: nat)
    requires w < |workers| && Awaited(workers, e, s) && workers[w] != Awaiting(e, s)
    ensures Awaited(workers[w := x], e, s)
  {
    var v :| 0 <= v < |workers| && workers[v] == Awaiting(e, s);
    assert workers[w := x][v] == Awaiting(e, s);
  }

  /** A worker's request is answered. */
  lemma CoversAnswer(workers: seq<Worker>, at: map<nat, nat>, w: nat)
    requires Covers(workers, at) && w < |workers| && workers[w].Awaiting?
    ensures Covers(workers[w := Created], at - {workers[w].document})
  {
    var d := workers[w].document;
    var (after, at') := (workers[w := Created], at - {d});
    BusyUpdate(workers, w, Created);
    assert at'.Keys == at.Keys - {d};
    forall e | e in at' ensures Awaited(after, e, at'[e]) {
      StillAwaited(workers, w, Created, e, at[e]);
    }
  }

  lemma CoversAdvance(workers: seq<Worker>, at: map<nat, nat>, w: nat, d: nat, s: nat)
    requires Covers(workers, at) && w < |workers| && workers[w] == Awaiting(d, s)
    ensures Covers(workers[w := Awaiting(d, s + 1)], NextAt(at, d, s, true))
  {
    var (waiting, rest, next) := (workers[w := Created], at - {d}, Awaiting(d, s + 1));
    CoversAnswer(workers, at, w);
    CoversSend(waiting, rest, w, d, s + 1);
    assert waiting[w := next] == workers[w := next];
  }

  lemma CoversDone(workers: seq<Worker>, at: map<nat, nat>, w: nat)
    requires Covers(workers, at) && w < |workers| && !workers[w].Awaiting?
    ensures Covers(workers[w := Done], at)
  {
    var after := workers[w := Done];
    BusyUpdate(workers, w, Done);
    forall e | e in at ensures Awaited(after, e, at[e]) {
      StillAwaited(workers, w, Done, e, at[e]);
    }
  }

  /** The state of the worker group: the abstract progress, and the documents not handed out. */
  ghost predicate Grouped(task: Task, cap: nat, p: Progress, workers: seq<Worker>, next: nat) {
    && |task.questions| > 0 && |workers| <= cap
    && Reachable(task, cap, p) && Covers(workers, p.inflight)
    && next == p.next <= |task.bodies|
    && (forall w :: 0 <= w < |workers| && workers[w].Done? ==> next == |task.bodies|)
  }

  /** `for document in documents`: take the next document, or finish. */
  method TakeDocument(task: Task, ghost cap: nat, workers: seq<Worker>, w: nat, next: nat, ghost p: Progress)
    returns (workers': seq<Worker>, next': nat, ghost q: Progress)
    requires Grouped(task, cap, p, workers, next) && w < |workers| && !workers[w].Awaiting?
    ensures Grouped(task, cap, q, workers', next') && |workers'| == |workers|
    ensures SameRecord(p, q)
    ensures Unstarted(workers') + (if workers[w].Created? then 1 else 0) == Unstarted(workers)
  {
    UnstartedUpdate(workers, w, Awaiting(next, 0));
    UnstartedUpdate(workers, w, Done);
    if next < |task.bodies| {
      BusyRoom(workers, w);
      q := AdmitNext(task, cap, p);
      CoversSend(workers, p.inflight, w, next, 0);
      return workers[w := Awaiting(next, 0)], next + 1, q;
    }
    CoversDone(workers, p.inflight, w);
    return workers[w := Done], next, p;
  }

  /** A worker between two documents, after the answer that settled the first. */
  lemma GroupedIdle(task: Task, cap: nat, p: Progress, q: Progress, workers: seq<Worker>, w: nat, next: nat,
                    d: nat, s: nat)
    requires Grouped(task, cap, p, workers, next) && w < |workers| && workers[w] == Awaiting(d, s)
    requires Reachable(task, cap, q) && q.next == p.next
    requires q.inflight == NextAt(p.inflight, d, s, false)
    ensures Grouped(task, cap, q, workers[w := Created], next)
  {
    CoversAnswer(workers, p.inflight, w);
    DoneKept(workers, w, Created);
  }

  lemma DoneKept(workers: seq<Worker>, w: nat, x: Worker)
    requires w < |workers| && !x.Done?
    ensures forall v :: 0 <= v < |workers| && workers[w := x][v].Done? ==> workers[v].Done?
  {
  }

  /** A worker whose document goes on to its next question. */
  lemma GroupedAdvance(task: Task, cap: nat, p: Progress, q: Progress, workers: seq<Worker>, w: nat, next: nat,
                       d: nat, s: nat)
    requires Grouped(task, cap, p, workers, next) && w < |workers| && workers[w] == Awaiting(d, s)
    requires Reachable(task, cap, q) && q.next == p.next
    requires q.inflight == NextAt(p.inflight, d, s, true)
    ensures Grouped(task, cap, q, workers[w := Awaiting(d, s + 1)], next)
  {
    CoversAdvance(workers, p.inflight, w, d, s);
    DoneKept(workers, w, Awaiting(d, s + 1));
  }

  /** After an answer: await the document's next question, or leave the document. */
  method Continue(task: Task, ghost cap: nat, workers: seq<Worker>, w: nat, document: nat, stage: nat, advances: bool,
                  next: nat, ghost p: Progress, ghost q: Progress)
    returns (workers': seq<Worker>, next': nat, ghost r: Progress)
    requires Grouped(task, cap, p, workers, next) && w < |workers| && workers[w] == Awaiting(document, stage)
    requires Reachable(task, cap, q) && q.next == p.next
    requires q.inflight == NextAt(p.inflight, document, stage, advances)
    ensures Grouped(task, cap, r, workers', next') && |workers'| == |workers| && SameRecord(q, r)
    ensures Unstarted(workers') == Unstarted(workers)
  {
    UnstartedUpdate(workers, w, Awaiting(document, stage + 1));
    UnstartedUpdate(workers, w, Created);
    if advances {
      GroupedAdvance(task, cap, p, q, workers, w, next, document, stage);
      return workers[w := Awaiting(document, stage + 1)], next, q;
    }
    GroupedIdle(task, cap, p, q, workers, w, next, document, stage);
    workers', next', r := TakeDocument(task, cap, workers[w := Created], w, next, q);
  }

  /** Read the answer of a worker's request. */
  method Answer(task: Task, sequence: FilterSequence, w: nat, document: nat, stage: nat, malformed: bool,
                ghost p: Progress, ghost q: Progress)
    returns (ok: bool, advances: bool)
    requires sequence.task == task && sequence.Holds(p) && task.Asked(document, stage)
    requires Recording(task, p, document, stage, q)
    modifies sequence
    ensures ok == !malformed
    ensures ok ==> sequence.Holds(q) && advances == Advances(task, document, stage)
  {
    var recorded := sequence.Record(document, stage,
                                    Output(Direct(w), task.PromptOf(document, stage), true, false, malformed));
    ok := recorded.Read?;
    advances := ok && recorded.advances;
  }

  /** A worker's request returned: record the answer, then ask the next question or leave the document. */
  method Resume(task: Task, ghost cap: nat, sequence: FilterSequence, workers: seq<Worker>, w: nat, malformed: bool,
                next: nat, ghost p: Progress)
    returns (ok: bool, workers': seq<Worker>, next': nat, ghost r: Progress)
    requires Grouped(task, cap, p, workers, next) && w < |workers| && workers[w].Awaiting?
    requires sequence.task == task && sequence.Holds(p)
    modifies sequence
    ensures ok == !malformed
    ensures ok ==> Grouped(task, cap, r, workers', next') && |workers'| == |workers| && sequence.Holds(r)
    ensures ok ==> Unstarted(workers') == Unstarted(workers) && |Unanswered(task, r)| < |Unanswered(task, p)|
  {
    AwaitingAsked(task, cap, p, workers, w, next);
    ghost var q := CompleteNext(task, cap, p, workers[w].document, workers[w].stage);
    AnswerShrinks(task, cap, p, q, workers[w].document, workers[w].stage);
    var advances;
    ok, advances := Answer(task, sequence, w, workers[w].document, workers[w].stage, malformed, p, q);
    if !ok {
      return false, workers, next, p;
    }
    workers', next', r := Continue(task, cap, workers, w, workers[w].document, workers[w].stage, advances, next, p, q);
  }

  lemma AnswerShrinks(task: Task, cap: nat, p: Progress, q: Progress, d: nat, s: nat)
    requires |task.questions| > 0 && Reachable(task, cap, p) && d in p.inflight && p.inflight[d] == s && task.Asked(d, s)
    requires q.answers.Keys == p.answers.Keys + {(d, s + 1)}
    ensures |Unanswered(task, q)| < |Unanswered(task, p)|
  {
    InFlightUnanswered(task, cap, p, d);
    RemoveOne(task.AskedCells(1), p.answers.Keys, (d, s + 1));
  }

  lemma AwaitingAsked(task: Task, cap: nat, p: Progress, workers: seq<Worker>, w: nat, next: nat)
    requires Grouped(task, cap, p, workers, next) && w < |workers| && workers[w].Awaiting?
    ensures task.Asked(workers[w].document, workers[w].stage)
    ensures workers[w].document in p.inflight && p.inflight[workers[w].document] == workers[w].stage
  {
    ReachableInv(task, cap, p);
  }

  /** Resume one worker: it starts, or its request returned. */
  method Wakeup(task: Task, ghost cap: nat, sequence: FilterSequence, workers: seq<Worker>, wake: Wake, next: nat,
                ghost p: Progress)
    returns (ok: bool, workers': seq<Worker>, next': nat, ghost q: Progress)
    requires Grouped(task, cap, p, workers, next) && sequence.task == task && sequence.Holds(p)
    modifies sequence
    ensures ok ==> Grouped(task, cap, q, workers', next') && |workers'| == |workers| && sequence.Holds(q)
    ensures WakesOne(wake) && SomeActive(workers) ==>
      ok && |Unanswered(task, q)| + Unstarted(workers') < |Unanswered(task, p)| + Unstarted(workers)
  {
    var w := wake.pick(workers);
    ok, workers', next', q := true, workers, next, p;
    if w < |workers| && workers[w] != Done {
      if workers[w].Created? {
        workers', next', q := TakeDocument(task, cap, workers, w, next, p);
        return;
      }
      if wake.fails {
        return false, workers, next, p;
      }
      ok, workers', next', q := Resume(task, cap, sequence, workers, w, wake.malformed, next, p);
    }
  }

  /** The workers between two wakes, with the progress of the sequence. */
  datatype Moment = Moment(progress: Progress, workers: seq<Worker>, next: nat)

  /** As many workers as the cap admits, awaiting the requests in flight in a state the scheduler can reach. */
  ghost predicate InStep(task: Task, cap: nat, m: Moment) {
    |m.workers| == Min(cap, |task.bodies|) && Grouped(task, cap, m.progress, m.workers, m.next)
  }

  ghost predicate AllInStep(task: Task, cap: nat, history: seq<Moment>) {
    history != [] ==> AllInStep(task, cap, history[..|history| - 1]) && InStep(task, cap, history[|history| - 1])
  }

  lemma {:induction false} InStepAt(task: Task, cap: nat, history: seq<Moment>, k: nat)
    requires AllInStep(task, cap, history) && k < |history|
    ensures InStep(task, cap, history[k])
    decreases |history|
  {
    if k < |history| - 1 {
      InStepAt(task, cap, history[..|history| - 1], k);
    }
  }

  lemma InStepNext(task: Task, cap: nat, history: seq<Moment>, m: Moment)
    requires AllInStep(task, cap, history) && InStep(task, cap, m)
    ensures AllInStep(task, cap, history + [m])
  {
    assert (history + [m])[..|history|] == history;
  }

  /** Workers in step await requests of different documents, each of a stage that is asked, no more than the cap. */
  lemma AwaitsWithinCap(task: Task, cap: nat, m: Moment)
    requires InStep(task, cap, m)
    ensures Busy(m.workers) <= Min(cap, |task.bodies|)
    ensures forall v, w :: 0 <= v < w < |m.workers| && m.workers[v].Awaiting? && m.workers[w].Awaiting? ==>
      m.workers[v].document != m.workers[w].document
    ensures forall w :: 0 <= w < |m.workers| && m.workers[w].Awaiting? ==>
      task.Asked(m.workers[w].document, m.workers[w].stage)
  {
    forall w | 0 <= w < |m.workers| && m.workers[w].Awaiting?
      ensures task.Asked(m.workers[w].document, m.workers[w].stage)
    {
      AwaitingAsked(task, cap, m.progress, m.workers, w, m.next);
    }
  }

  /** The moments so far, the last of them now. */
  ghost predicate Traced(task: Task, cap: nat, history: seq<Moment>, m: Moment) {
    AllInStep(task, cap, history) && history != [] && history[|history| - 1] == m
  }

  /** What is left to do when each wake lets one worker go on. */
  ghost function Left(task: Task, p: Progress, workers: seq<Worker>): nat {
    |Unanswered(task, p)| + Unstarted(workers)
  }

  /** One wake of the event loop. */
  method WakeNext(task: Task, ghost cap: nat, sequence: FilterSequence, workers: seq<Worker>, wake: Wake, next: nat,
                  ghost p: Progress, ghost history: seq<Moment>)
    returns (ok: bool, workers': seq<Worker>, next': nat, ghost q: Progress, ghost history': seq<Moment>)
    requires Traced(task, cap, history, Moment(p, workers, next)) && SomeActive(workers)
    requires sequence.task == task && sequence.Holds(p)
    modifies sequence
    ensures ok ==> sequence.Holds(q)
    ensures AllInStep(task, cap, history') && history' != []
    ensures ok ==> Traced(task, cap, history', Moment(q, workers', next'))
    ensures WakesOne(wake) ==> ok && Left(task, q, workers') < Left(task, p, workers)
  {
    ok, workers', next', q := Wakeup(task, cap, sequence, workers, wake, next, p);
    history' := history;
    if ok {
      InStepNext(task, cap, history, Moment(q, workers', next'));
      history' := history + [Moment(q, workers', next')];
    }
  }

  /** The event loop, until no worker has anything left to do, or one raises, or the run is cancelled. */
  method RunWakes(task: Task, ghost cap: nat, sequence: FilterSequence, started: seq<Worker>, wakes: seq<Wake>)
    returns (ok: bool, workers: seq<Worker>, next: nat, ghost p: Progress, ghost history: seq<Moment>)
    requires InStep(task, cap, Moment(START, started, 0))
    requires sequence.task == task && sequence.Holds(START)
    modifies sequence
    ensures ok ==> sequence.Holds(p) && !SomeActive(workers)
    ensures AllInStep(task, cap, history) && history != []
    ensures ok ==> Traced(task, cap, history, Moment(p, workers, next))
    ensures KeepsWaking(wakes, |task.AskedCells(1)| + |started|) ==> ok
  {
    ok, workers, next, p := true, started, 0, START;
    InStepNext(task, cap, [], Moment(p, workers, next));
    history := [] + [Moment(p, workers, next)];
    var i: nat := 0;
    ghost var live := KeepsWaking(wakes, |task.AskedCells(1)| + |started|);
    assert Unanswered(task, START) == task.AskedCells(1);
    while SomeActive(workers)
      invariant ok && sequence.task == task && sequence.Holds(p) && i <= |wakes|
      invariant Traced(task, cap, history, Moment(p, workers, next))
      invariant live ==> |wakes| - i >= Left(task, p, workers)
      decreases |wakes| - i
    {
      if i >= |wakes| {
        StillToDo(task, cap, p, workers, next);
        return false, workers, next, p, history;  // the run is cancelled before it ends
      }
      ghost var before := p;
      ok, workers, next, p, history := WakeNext(task, cap, sequence, workers, wakes[i], next, before, history);
      if !ok {
        return;
      }
      i := i + 1;
    }
  }

  /** `run_filter_sequence_async`: under every interleaving of its workers, a run that returns has the
      reference result exactly when a worker could be started or there was nothing to do.  When each
      wake lets one worker go on, it returns once as many wakes have happened as there are cells and
      workers.  However it ends, the workers were in step after every wake. */
  method RunFilterSequenceAsync(task: Task, budget: int, block: nat, maxSeqs: Option<nat>, wakes: seq<Wake>)
    returns (r: Outcome, ghost history: seq<Moment>)
    requires |task.questions| > 0 && block >= 1
    ensures r.Returned? ==> (r.result == ReferenceResult(task) <==> maxSeqs != Some(0) || task.bodies == [])
    ensures r.Returned? && maxSeqs == Some(0) ==> r.result == FilterResult([], map[], 0, 0)
    ensures var cap := FilterDocumentCap(task.bodies, task.questions, budget, block, maxSeqs);
      KeepsWaking(wakes, |task.AskedCells(1)| + Min(cap, |task.bodies|)) ==> r.Returned?
    ensures AllInStep(task, FilterDocumentCap(task.bodies, task.questions, budget, block, maxSeqs), history)
    ensures history != [] && (r.Returned? ==> !SomeActive(history[|history| - 1].workers))
  {
    var cap := FilterDocumentCap(task.bodies, task.questions, budget, block, maxSeqs);
    if task.bodies != [] {
      FilterCapPositive(task.bodies, task.questions, budget, block, maxSeqs);
    }
    var workers := seq(Min(cap, |task.bodies|) as nat, _ => Created);
    var sequence := new FilterSequence(task);
    GroupStart(task, cap, workers);
    var ok, next;
    ghost var p;
    ok, workers, next, p, history := RunWakes(task, cap, sequence, workers, wakes);
    if !ok {
      return Propagated, history;
    }
    GroupEnd(task, cap, p, workers, next);
    r := Returned(FilterResult(SortInts(sequence.survivors), sequence.answers,
                               sequence.requests, sequence.promptTokens));
  }

  /** A worker that is not done has yet to start, or has a question to be answered. */
  lemma StillToDo(task: Task, cap: nat, p: Progress, workers: seq<Worker>, next: nat)
    requires Grouped(task, cap, p, workers, next) && SomeActive(workers)
    ensures |Unanswered(task, p)| + Unstarted(workers) > 0
  {
    var w :| 0 <= w < |workers| && workers[w] != Done;
    if workers[w].Created? {
      UnstartedUpdate(workers, w, Done);
    } else {
      InFlightUnanswered(task, cap, p, workers[w].document);
    }
  }

  lemma {:induction false} CreatedNotBusy(workers: seq<Worker>)
    requires forall w :: 0 <= w < |workers| ==> workers[w] == Created
    ensures Busy(workers) == 0
  {
    if workers != [] {
      CreatedNotBusy(workers[..|workers| - 1]);
    }
  }

  lemma GroupStart(task: Task, cap: nat, workers: seq<Worker>)
    requires |task.questions| > 0 && |workers| <= cap && forall w :: 0 <= w < |workers| ==> workers[w] == Created
    ensures Grouped(task, cap, START, workers, 0)
  {
    StartReachable(task, cap);
    CreatedNotBusy(workers);
  }

  /** When every worker is done, all documents are settled, unless there was no worker at all. */
  lemma GroupEnd(task: Task, cap: nat, p: Progress, workers: seq<Worker>, next: nat)
    requires Grouped(task, cap, p, workers, next) && |workers| == Min(cap, |task.bodies|)
    requires !SomeActive(workers)
    ensures
      var result := FilterResult(SortInts(p.survivors), p.answers, p.requests, p.promptTokens);
      && (cap > 0 || task.bodies == [] ==> result == ReferenceResult(task))
      && (cap == 0 ==> result == FilterResult([], map[], 0, 0))
      && (cap == 0 && task.bodies != [] ==> result != ReferenceResult(task))
  {
    assert p.inflight.Keys == {};
    assert p.inflight == map[];
    if |workers| > 0 {
      assert workers[0].Done?;
    }
    ReachableInv(task, cap, p);
    if cap > 0 || task.bodies == [] {
      FinishedIsReference(task, cap, p);
    }
    if cap == 0 {
      var states, events :| IsRun(task, cap, states, events) && states[|events|] == p;
      ZeroCapStarves(task, states, events);
      assert p == START;
      if task.bodies != [] {
        assert task.Asked(0, 0) && (0, 1) in task.AskedCells(1);
      }
    }
  }
}
