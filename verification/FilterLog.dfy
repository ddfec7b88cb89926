/** A filter sequence as its engine sees it: what is queued, stepped, shown and queued again, and in which order. */
module FilterLog {
  import opened Prompts
  import opened Requests
  import opened EngineLog
  import opened DocumentCaps
  import opened FilterTask
  import opened Common

  /** A filter sequence, its document cap, and whether its engine reruns requests that finish without their rows. */
  datatype Filtering = Filtering(task: Task, cap: nat, retries: bool) {
    predicate Has(d: nat, s: nat) {
      d < |task.bodies| && s < |task.questions|
    }

    predicate IsTrue(d: nat, s: nat) {
      Has(d, s) && task.Truth(d, s)
    }

    /** The sequence's own requests: in an engine that reruns them, under both ids. */
    predicate Owns(id: RequestId) {
      id.Numbered? || (retries && id.Recompute? && id.original.Numbered?)
    }

    /** The request this event answers: one that finishes, with its rows where reruns would bring them. */
    function AnswerOf(e: EngineEvent): set<RequestId> {
      if !e.Shown? || !e.finished || (retries && e.missing) then {} else if retries then {Base(e.id)} else {e.id}
    }
  }

  /** The requests that have been answered. */
  function AnsweredIn(x: Filtering, log: Log): set<RequestId> {
    if log == [] then {} else AnsweredIn(x, log[..|log| - 1]) + x.AnswerOf(log[|log| - 1])
  }

  /** An answer settles its document when it is FALSE or the last. */
  ghost predicate Settled(x: Filtering, log: Log, d: nat) {
    exists s: nat :: Numbered(d, s) in AnsweredIn(x, log) && Settles(x, d, s)
  }

  predicate Settles(x: Filtering, d: nat, s: nat) {
    x.IsTrue(d, s) ==> s + 1 == |x.task.questions|
  }

  /** The documents that are admitted and not settled. */
  ghost function LiveIn(x: Filtering, log: Log): set<nat> {
    set d: nat | d < |x.task.bodies| && Numbered(d, 0) in SentIn(log) && !Settled(x, log, d)
  }

  /** The sequence's requests in flight. */
  function FlyingIn(x: Filtering, log: Log): set<RequestId> {
    set id | id in SentIn(log) && x.Owns(id) && id !in DoneIn(log)
  }

  /** Documents are admitted in order, while fewer than the cap are live; a later stage is sent only after its
      predecessor was answered TRUE; nothing is sent twice. */
  ghost predicate MayQueue(x: Filtering, log: Log, d: nat, s: nat) {
    && x.Has(d, s) && Numbered(d, s) !in SentIn(log)
    && (s == 0 ==> |LiveIn(x, log)| < x.cap && forall e: nat :: e < d ==> Numbered(e, 0) in SentIn(log))
    && (s > 0 ==> Numbered(d, s - 1) in AnsweredIn(x, log) && x.IsTrue(d, s - 1))
  }

  /** A request is rerun once, after it finished without its rows. */
  ghost predicate MayRerun(x: Filtering, log: Log, id: RequestId) {
    id in DoneIn(log) && id !in AnsweredIn(x, log) && Recompute(id) !in SentIn(log)
  }

  /** When the engine is stepped, as many documents are live as may be, and each of them has a request in flight. */
  ghost predicate AtStep(x: Filtering, log: Log) {
    && (|LiveIn(x, log)| == x.cap || forall d: nat :: d < |x.task.bodies| ==> Numbered(d, 0) in SentIn(log))
    && forall d :: d in LiveIn(x, log) ==> Flies(x, log, d)
  }

  /** A request of this document is in flight. */
  ghost predicate Flies(x: Filtering, log: Log, d: nat) {
    exists id :: id in FlyingIn(x, log) && DocumentOf(id) == d
  }

  function DocumentOf(id: RequestId): nat {
    if Base(id).Numbered? then Base(id).document else 0
  }

  ghost predicate MayHappen(x: Filtering, log: Log, e: EngineEvent) {
    match e
    case Queued(id) =>
      && (id.Numbered? ==> MayQueue(x, log, id.document, id.part))
      && (x.Owns(id) && id.Recompute? ==> MayRerun(x, log, id.original))
    case Shown(id, _, _) => x.Owns(id) ==> id in SentIn(log) && id !in DoneIn(log)
    case Stepped => AtStep(x, log)
  }

  /** Every event is one that may happen then. */
  ghost predicate Orderly(x: Filtering, log: Log) {
    log != [] ==> Orderly(x, log[..|log| - 1]) && MayHappen(x, log[..|log| - 1], log[|log| - 1])
  }

  lemma OrderlyNext(x: Filtering, log: Log, e: EngineEvent)
    requires Orderly(x, log) && MayHappen(x, log, e)
    ensures Orderly(x, log + [e])
  {
    assert (log + [e])[..|log|] == log;
  }

  lemma {:induction false} OrderlyPrefix(x: Filtering, log: Log, k: nat)
    requires Orderly(x, log) && k <= |log|
    ensures Orderly(x, log[..k])
    ensures k < |log| ==> MayHappen(x, log[..k], log[k])
    decreases |log|
  {
    if k == |log| {
      assert log[..k] == log;
    } else if k < |log| - 1 {
      OrderlyPrefix(x, log[..|log| - 1], k);
      assert log[..|log| - 1][..k] == log[..k];
    }
  }

  lemma AnsweredNext(x: Filtering, log: Log, e: EngineEvent)
    ensures AnsweredIn(x, log + [e]) == AnsweredIn(x, log) + x.AnswerOf(e)
  {
    assert (log + [e])[..|log|] == log;
  }

  /** What holds of request (d, s) after any events: it is sent after its predecessor's TRUE, rerun only once it has
      finished, and answered only when neither it nor its rerun flies. */
  ghost predicate StageOk(x: Filtering, log: Log, d: nat, s: nat) {
    var id := Numbered(d, s);
    && (id in SentIn(log) ==> x.Has(d, s) && (s > 0 ==> Numbered(d, s - 1) in AnsweredIn(x, log) && x.IsTrue(d, s - 1)))
    && (id in DoneIn(log) ==> id in SentIn(log))
    && (x.retries ==>
          && (Recompute(id) in SentIn(log) ==> id in DoneIn(log))
          && (Recompute(id) in DoneIn(log) ==> Recompute(id) in SentIn(log)))
    && (id in AnsweredIn(x, log) ==>
          id in DoneIn(log) && (x.retries && Recompute(id) in SentIn(log) ==> Recompute(id) in DoneIn(log)))
  }

  ghost predicate StagesOk(x: Filtering, log: Log) {
    forall d: nat, s: nat :: StageOk(x, log, d, s)
  }

  lemma StageOkNext(x: Filtering, log: Log, e: EngineEvent, d: nat, s: nat)
    requires StageOk(x, log, d, s) && MayHappen(x, log, e)
    ensures StageOk(x, log + [e], d, s)
  {
    LogNext(log, e);
    AnsweredNext(x, log, e);
  }

  lemma {:induction false} OrderlyStages(x: Filtering, log: Log)
    requires Orderly(x, log)
    ensures StagesOk(x, log)
  {
    if log == [] {
      assert forall d: nat, s: nat :: StageOk(x, log, d, s);
    } else {
      var (front, e) := (log[..|log| - 1], log[|log| - 1]);
      OrderlyStages(x, front);
      assert log == front + [e];
      forall d: nat, s: nat ensures StageOk(x, log, d, s) {
        StageOkNext(x, front, e, d, s);
      }
    }
  }

  /** Every stage before one that was sent was answered TRUE. */
  lemma {:induction false} EarlierTrue(x: Filtering, log: Log, d: nat, s: nat, t: nat)
    requires StagesOk(x, log) && Numbered(d, t) in SentIn(log) && s < t
    ensures Numbered(d, s) in AnsweredIn(x, log) && x.IsTrue(d, s) && x.Has(d, t)
    decreases t
  {
    assert StageOk(x, log, d, t);
    if s < t - 1 {
      assert StageOk(x, log, d, t - 1);
      EarlierTrue(x, log, d, s, t - 1);
    }
  }

  /** A request in flight is its document's latest, and not answered. */
  lemma FlyingLatest(x: Filtering, log: Log, id: RequestId)
    requires StagesOk(x, log) && id in FlyingIn(x, log)
    ensures Base(id).Numbered? && Base(id) in SentIn(log) && Base(id) !in AnsweredIn(x, log)
    ensures forall t: nat :: t > Base(id).part ==> Numbered(DocumentOf(id), t) !in SentIn(log)
    ensures id.Numbered? ==> !x.retries || Recompute(id) !in SentIn(log)
    ensures id.Recompute? ==> id.original in DoneIn(log)
  {
    var (d, s) := (Base(id).document, Base(id).part);
    assert Base(id) == Numbered(d, s) && StageOk(x, log, d, s);
    forall t: nat | t > s ensures Numbered(d, t) !in SentIn(log) {
      if Numbered(d, t) in SentIn(log) {
        EarlierTrue(x, log, d, s, t);
      }
    }
  }

  /** A document with a request in flight is live. */
  lemma FlyingLive(x: Filtering, log: Log, id: RequestId)
    requires StagesOk(x, log) && id in FlyingIn(x, log)
    ensures DocumentOf(id) in LiveIn(x, log)
  {
    var (d, s) := (Base(id).document, Base(id).part);
    FlyingLatest(x, log, id);
    assert Base(id) == Numbered(d, s) && StageOk(x, log, d, s);
    if s > 0 {
      EarlierTrue(x, log, d, 0, s);
      assert StageOk(x, log, d, 0);
    }
    forall t: nat | Numbered(d, t) in AnsweredIn(x, log) ensures !Settles(x, d, t) {
      assert StageOk(x, log, d, t);
      assert Numbered(DocumentOf(id), t) in SentIn(log);
      if t < s {
        EarlierTrue(x, log, d, t, s);
      }
    }
  }

  /** A document has at most one request in flight. */
  lemma OneFlies(x: Filtering, log: Log, a: RequestId, b: RequestId)
    requires StagesOk(x, log) && a in FlyingIn(x, log) && b in FlyingIn(x, log) && DocumentOf(a) == DocumentOf(b)
    ensures a == b
  {
    FlyingLatest(x, log, a);
    FlyingLatest(x, log, b);
    assert Base(a) == Numbered(DocumentOf(a), Base(a).part) && Base(b) == Numbered(DocumentOf(b), Base(b).part);
  }

  lemma {:induction false} AtMostOneEach(ids: set<RequestId>, documents: set<nat>)
    requires forall id :: id in ids ==> DocumentOf(id) in documents
    requires forall a, b :: a in ids && b in ids && DocumentOf(a) == DocumentOf(b) ==> a == b
    ensures |ids| <= |documents|
    decreases ids
  {
    if ids != {} {
      var id :| id in ids;
      AtMostOneEach(ids - {id}, documents - {DocumentOf(id)});
    }
  }

  lemma FlyingAtMostLive(x: Filtering, log: Log)
    requires Orderly(x, log)
    ensures |FlyingIn(x, log)| <= |LiveIn(x, log)|
  {
    OrderlyStages(x, log);
    forall id | id in FlyingIn(x, log) ensures DocumentOf(id) in LiveIn(x, log) {
      FlyingLive(x, log, id);
    }
    forall a, b | a in FlyingIn(x, log) && b in FlyingIn(x, log) && DocumentOf(a) == DocumentOf(b) ensures a == b {
      OneFlies(x, log, a, b);
    }
    AtMostOneEach(FlyingIn(x, log), LiveIn(x, log));
  }

  lemma SettledNext(x: Filtering, log: Log, e: EngineEvent, d: nat)
    ensures Settled(x, log, d) ==> Settled(x, log + [e], d)
  {
    AnsweredNext(x, log, e);
    if Settled(x, log, d) {
      var s: nat :| Numbered(d, s) in AnsweredIn(x, log) && Settles(x, d, s);
      assert Numbered(d, s) in AnsweredIn(x, log + [e]);
    }
  }

  /** Only an admission makes a document live. */
  lemma LiveNext(x: Filtering, log: Log, e: EngineEvent)
    ensures LiveIn(x, log + [e]) <=
      LiveIn(x, log) + if e.Queued? && e.id.Numbered? && e.id.part == 0 then {e.id.document} else {}
  {
    LogNext(log, e);
    forall d | d in LiveIn(x, log + [e]) && Numbered(d, 0) in SentIn(log) ensures d in LiveIn(x, log) {
      SettledNext(x, log, e, d);
    }
  }

  lemma LiveAfter(x: Filtering, log: Log, e: EngineEvent)
    requires |LiveIn(x, log)| <= x.cap && MayHappen(x, log, e)
    ensures |LiveIn(x, log + [e])| <= x.cap
  {
    LiveNext(x, log, e);
    if e.Queued? && e.id.Numbered? && e.id.part == 0 {
      SubsetSize(LiveIn(x, log + [e]), LiveIn(x, log) + {e.id.document});
    } else {
      SubsetSize(LiveIn(x, log + [e]), LiveIn(x, log));
    }
  }

  /** In every state of the run at most `cap` documents are live. */
  lemma {:induction false} LiveBounded(x: Filtering, log: Log)
    requires Orderly(x, log)
    ensures |LiveIn(x, log)| <= x.cap
  {
    if log == [] {
      assert LiveIn(x, log) == {};
    } else {
      var (front, e) := (log[..|log| - 1], log[|log| - 1]);
      LiveBounded(x, front);
      LiveAfter(x, front, e);
      assert log == front + [e];
    }
  }

  /** In every state of the run no more of its requests are in flight than documents are live, no more than the document
      cap, and no more than `max_num_seqs`. */
  lemma SequencesBounded(task: Task, budget: int, block: nat, maxSeqs: Option<nat>, retries: bool, log: Log, k: nat)
    requires block >= 1 && k <= |log|
    requires Orderly(Filtering(task, FilterDocumentCap(task.bodies, task.questions, budget, block, maxSeqs), retries), log)
    ensures var x := Filtering(task, FilterDocumentCap(task.bodies, task.questions, budget, block, maxSeqs), retries);
      && |FlyingIn(x, log[..k])| <= |LiveIn(x, log[..k])| <= x.cap
      && (maxSeqs.Some? ==> x.cap <= maxSeqs.value)
  {
    var x := Filtering(task, FilterDocumentCap(task.bodies, task.questions, budget, block, maxSeqs), retries);
    OrderlyPrefix(x, log, k);
    LiveBounded(x, log[..k]);
    FlyingAtMostLive(x, log[..k]);
    if task.bodies != [] {
      FilterCapPositive(task.bodies, task.questions, budget, block, maxSeqs);
    }
  }

  /** Whenever the engine is stepped, each live document has exactly one request in flight: its latest stage, or the rerun
      of that. */
  lemma OneInFlight(x: Filtering, log: Log, k: nat, d: nat)
    returns (id: RequestId)
    requires Orderly(x, log) && k < |log| && log[k].Stepped? && d in LiveIn(x, log[..k])
    ensures id in FlyingIn(x, log[..k]) && DocumentOf(id) == d
    ensures forall other :: other in FlyingIn(x, log[..k]) && DocumentOf(other) == d ==> other == id
    ensures Base(id).Numbered? && forall t: nat :: Numbered(d, t) in SentIn(log[..k]) ==> t <= Base(id).part
  {
    var now := log[..k];
    OrderlyPrefix(x, log, k);
    OrderlyStages(x, now);
    assert Flies(x, now, d);
    id :| id in FlyingIn(x, now) && DocumentOf(id) == d;
    FlyingLatest(x, now, id);
    forall other | other in FlyingIn(x, now) && DocumentOf(other) == d ensures other == id {
      OneFlies(x, now, other, id);
    }
  }

  /** The engine holds exactly the sequence's requests that are in flight. */
  ghost predicate Flown(x: Filtering, log: Log, held: set<RequestId>) {
    forall id :: x.Owns(id) ==> (id in held <==> id in FlyingIn(x, log))
  }

  lemma {:induction false} BatchAnswered(x: Filtering, log: Log, outputs: seq<Output>)
    ensures AnsweredIn(x, log + ShownBy(outputs)) == AnsweredIn(x, log) + AnswersOf(x.retries, outputs)
  {
    if outputs == [] {
      assert log + ShownBy(outputs) == log;
    } else {
      var (front, last) := (outputs[..|outputs| - 1], outputs[|outputs| - 1]);
      assert outputs == front + [last];
      BatchAnswered(x, log, front);
      ShownByNext(log, front, last);
      AnsweredNext(x, log + ShownBy(front), ShownAs(last));
      FinishedIdsAppend(front, last);
      AnsweredByNext(front, last);
    }
  }

  lemma {:induction false} BatchOrderly(x: Filtering, log: Log, view: View, outputs: seq<Output>)
    requires Orderly(x, log) && Legal(view, outputs) && Flown(x, log, view.Keys)
    ensures Orderly(x, log + ShownBy(outputs))
  {
    if outputs == [] {
      assert log + ShownBy(outputs) == log;
    } else {
      var (front, last) := (outputs[..|outputs| - 1], outputs[|outputs| - 1]);
      assert outputs == front + [last];
      BatchOrderly(x, log, view, front);
      ShownByNext(log, front, last);
      OutputMayHappen(x, log, view, outputs, |front|);
      OrderlyNext(x, log + ShownBy(front), ShownAs(last));
    }
  }

  lemma OutputMayHappen(x: Filtering, log: Log, view: View, outputs: seq<Output>, i: nat)
    requires Legal(view, outputs) && Flown(x, log, view.Keys) && i < |outputs|
    ensures MayHappen(x, log + ShownBy(outputs[..i]), ShownAs(outputs[i]))
  {
    BatchLogged(log, outputs[..i]);
    FinishOnce(view, outputs, i);
    assert outputs[i].id in view;
  }

  /** Requests that may be rerun. */
  ghost predicate MayRerunAll(x: Filtering, log: Log, again: seq<RequestId>) {
    && (forall i, j :: 0 <= i < j < |again| ==> again[i] != again[j])
    && forall i :: 0 <= i < |again| && x.Owns(Recompute(again[i])) ==> MayRerun(x, log, again[i])
  }

  lemma {:induction false} RerunsLogged(x: Filtering, log: Log, again: seq<RequestId>)
    ensures AnsweredIn(x, log + QueuedAgain(again)) == AnsweredIn(x, log)
    ensures SentIn(log + QueuedAgain(again)) == SentIn(log) + RerunsFor(again)
    ensures DoneIn(log + QueuedAgain(again)) == DoneIn(log)
  {
    if again == [] {
      assert log + QueuedAgain(again) == log;
    } else {
      var (front, id) := (again[..|again| - 1], again[|again| - 1]);
      assert again == front + [id];
      RerunsLogged(x, log, front);
      QueuedAgainNext(log, front, id);
      AnsweredNext(x, log + QueuedAgain(front), Queued(Recompute(id)));
      LogNext(log + QueuedAgain(front), Queued(Recompute(id)));
      RerunsForNext(front, id);
    }
  }

  lemma {:induction false} RerunsOrderly(x: Filtering, log: Log, again: seq<RequestId>)
    requires Orderly(x, log) && MayRerunAll(x, log, again)
    ensures Orderly(x, log + QueuedAgain(again))
  {
    if again == [] {
      assert log + QueuedAgain(again) == log;
    } else {
      var (front, id) := (again[..|again| - 1], again[|again| - 1]);
      assert again == front + [id];
      FewerRerun(x, log, again, |front|);
      RerunsOrderly(x, log, front);
      QueuedAgainNext(log, front, id);
      RerunMayHappen(x, log, again, |front|);
      OrderlyNext(x, log + QueuedAgain(front), Queued(Recompute(id)));
    }
  }

  lemma FewerRerun(x: Filtering, log: Log, again: seq<RequestId>, i: nat)
    requires MayRerunAll(x, log, again) && i <= |again|
    ensures MayRerunAll(x, log, again[..i])
  {
  }

  lemma RerunMayHappen(x: Filtering, log: Log, again: seq<RequestId>, i: nat)
    requires MayRerunAll(x, log, again) && i < |again|
    ensures MayHappen(x, log + QueuedAgain(again[..i]), Queued(Recompute(again[i])))
  {
    RerunsLogged(x, log, again[..i]);
  }

  /** A request that finished without its rows may be rerun. */
  lemma LacksRowsMayRerun(x: Filtering, log: Log, view: View, shown: seq<Output>, id: RequestId)
    requires StagesOk(x, log) && Legal(view, shown) && Flown(x, log, view.Keys) && LacksRows(shown, id)
    requires x.Owns(Recompute(id))
    ensures id in FinishedIds(shown) && id !in AnsweredIn(x, log) && id !in AnsweredBy(shown)
    ensures Recompute(id) !in SentIn(log)
  {
    var i :| 0 <= i < |shown| && shown[i].id == id && shown[i].finished && shown[i].missing;
    assert id == Numbered(id.document, id.part) && x.Owns(id);
    assert id in view && id in FlyingIn(x, log);
    FlyingLatest(x, log, id);
    forall j | 0 <= j < |shown| && shown[j].finished && !shown[j].missing ensures Base(shown[j].id) != id {
      assert shown[j].id in view;
      assert x.Owns(Recompute(id)) && (Recompute(id) in view ==> Recompute(id) in FlyingIn(x, log));
    }
  }

  /** The log once the engine has been stepped and has shown its outputs. */
  ghost function LogOfOutputs(log: Log, shown: seq<Output>): Log {
    log + [Stepped] + ShownBy(shown)
  }

  /** What one step of the engine adds to the log. */
  ghost function LogOfStep(log: Log, shown: seq<Output>, again: seq<RequestId>): Log {
    LogOfOutputs(log, shown) + QueuedAgain(again)
  }

  lemma StepFlown(x: Filtering, log: Log, after: Log, held: set<RequestId>, done: set<RequestId>, more: set<RequestId>)
    requires Flown(x, log, held)
    requires SentIn(after) == SentIn(log) + more && DoneIn(after) == DoneIn(log) + done
    requires forall id :: id in more && x.Owns(id) ==> id !in DoneIn(log) + done
    ensures Flown(x, after, held - done + more)
  {
  }

  lemma OutputsLogged(x: Filtering, log: Log, shown: seq<Output>)
    ensures SentIn(LogOfOutputs(log, shown)) == SentIn(log)
    ensures DoneIn(LogOfOutputs(log, shown)) == DoneIn(log) + FinishedIds(shown)
    ensures AnsweredIn(x, LogOfOutputs(log, shown)) == AnsweredIn(x, log) + AnswersOf(x.retries, shown)
  {
    LogNext(log, Stepped);
    AnsweredNext(x, log, Stepped);
    BatchLogged(log + [Stepped], shown);
    BatchAnswered(x, log + [Stepped], shown);
  }

  lemma OutputsOrderly(x: Filtering, log: Log, view: View, shown: seq<Output>)
    requires Orderly(x, log) && AtStep(x, log) && Legal(view, shown) && Flown(x, log, view.Keys)
    ensures Orderly(x, LogOfOutputs(log, shown))
  {
    OrderlyNext(x, log, Stepped);
    LogNext(log, Stepped);
    BatchOrderly(x, log + [Stepped], view, shown);
  }

  lemma OutputsMayRerun(x: Filtering, log: Log, view: View, shown: seq<Output>, again: seq<RequestId>)
    requires StagesOk(x, log) && Legal(view, shown) && Flown(x, log, view.Keys) && SentAgain(again, shown)
    ensures MayRerunAll(x, LogOfOutputs(log, shown), again)
  {
    OutputsLogged(x, log, shown);
    forall i | 0 <= i < |again| && x.Owns(Recompute(again[i])) ensures MayRerun(x, LogOfOutputs(log, shown), again[i]) {
      assert LacksRows(shown, again[i]);
      LacksRowsMayRerun(x, log, view, shown, again[i]);
    }
  }

  /** A step of the engine is orderly: it shows requests in flight, and queues again those that lack their rows. */
  lemma StepOrderly(x: Filtering, log: Log, view: View, shown: seq<Output>, again: seq<RequestId>)
    requires Orderly(x, log) && AtStep(x, log) && Legal(view, shown) && Flown(x, log, view.Keys) && SentAgain(again, shown)
    ensures Orderly(x, LogOfStep(log, shown, again))
    ensures Flown(x, LogOfStep(log, shown, again), view.Keys - FinishedIds(shown) + RerunsFor(again))
  {
    OrderlyStages(x, log);
    OutputsOrderly(x, log, view, shown);
    OutputsMayRerun(x, log, view, shown, again);
    RerunsOrderly(x, LogOfOutputs(log, shown), again);
    OutputsLogged(x, log, shown);
    RerunsLogged(x, LogOfOutputs(log, shown), again);
    RerunsUnseen(x, log, view, shown, again);
    StepFlown(x, log, LogOfStep(log, shown, again), view.Keys, FinishedIds(shown), RerunsFor(again));
  }

  /** What a step answers and sends. */
  lemma StepLogged(x: Filtering, log: Log, shown: seq<Output>, again: seq<RequestId>)
    ensures AnsweredIn(x, LogOfStep(log, shown, again)) == AnsweredIn(x, log) + AnswersOf(x.retries, shown)
    ensures forall d: nat, s: nat :: Numbered(d, s) in SentIn(LogOfStep(log, shown, again)) <==> Numbered(d, s) in SentIn(log)
  {
    OutputsLogged(x, log, shown);
    RerunsLogged(x, LogOfOutputs(log, shown), again);
  }

  /** A rerun that is queued only now has not finished. */
  lemma RerunsUnseen(x: Filtering, log: Log, view: View, shown: seq<Output>, again: seq<RequestId>)
    requires StagesOk(x, log) && Legal(view, shown) && Flown(x, log, view.Keys) && SentAgain(again, shown)
    ensures forall id :: id in RerunsFor(again) && x.Owns(id) ==> id !in DoneIn(log) + FinishedIds(shown)
  {
    forall id | id in RerunsFor(again) && x.Owns(id) ensures id !in DoneIn(log) + FinishedIds(shown) {
      var i :| 0 <= i < |again| && Recompute(again[i]) == id;
      assert LacksRows(shown, again[i]);
      LacksRowsMayRerun(x, log, view, shown, again[i]);
      assert again[i] == Numbered(again[i].document, again[i].part);
      assert StageOk(x, log, again[i].document, again[i].part);
      assert id !in view;
      assert forall j :: 0 <= j < |shown| ==> shown[j].id in view;
    }
  }

  /** The log is orderly, and says which cells are in flight or answered, the due ones included. */
  ghost predicate Logged(x: Filtering, log: Log, at: map<nat, nat>, answered: set<Cell>, due: View) {
    Orderly(x, log) && forall d: nat, s: nat :: CellLogged(x, log, at, answered, due, d, s)
  }

  ghost predicate CellLogged(x: Filtering, log: Log, at: map<nat, nat>, answered: set<Cell>, due: View, d: nat, s: nat) {
    && (Numbered(d, s) in SentIn(log) <==> (d, s + 1) in answered || (d in at && at[d] == s))
    && (Numbered(d, s) in AnsweredIn(x, log) <==> (d, s + 1) in answered || Numbered(d, s) in due)
  }

  lemma LoggedStart(x: Filtering)
    ensures Logged(x, [], map[], {}, map[])
  {
    assert forall d: nat, s: nat :: CellLogged(x, [], map[], {}, map[], d, s);
  }

  lemma LoggedSubmit(x: Filtering, log: Log, at: map<nat, nat>, answered: set<Cell>, due: View, d: nat, s: nat)
    requires Logged(x, log, at, answered, due) && d !in at && Numbered(d, s) !in due && MayQueue(x, log, d, s)
    ensures Logged(x, log + [Queued(Numbered(d, s))], at[d := s], answered, due)
  {
    var e := Queued(Numbered(d, s));
    OrderlyNext(x, log, e);
    LogNext(log, e);
    AnsweredNext(x, log, e);
    var (now, next) := (log + [e], at[d := s]);
    forall i: nat, j: nat ensures CellLogged(x, now, next, answered, due, i, j) {
      assert CellLogged(x, log, at, answered, due, i, j);
    }
  }

  lemma FlownSubmit(x: Filtering, log: Log, held: set<RequestId>, d: nat, s: nat)
    requires Orderly(x, log) && Flown(x, log, held) && MayQueue(x, log, d, s)
    ensures Flown(x, log + [Queued(Numbered(d, s))], held + {Numbered(d, s)})
  {
    OrderlyStages(x, log);
    LogNext(log, Queued(Numbered(d, s)));
    assert StageOk(x, log, d, s);
  }

  lemma LoggedPop(x: Filtering, log: Log, at: map<nat, nat>, answered: set<Cell>, due: View, d: nat, s: nat)
    requires Logged(x, log, at, answered, due) && d in at && at[d] == s && Numbered(d, s) in due
    ensures Logged(x, log, at - {d}, answered + {(d, s + 1)}, due - {Numbered(d, s)})
  {
    var (left, more, rest) := (at - {d}, answered + {(d, s + 1)}, due - {Numbered(d, s)});
    forall i: nat, j: nat ensures CellLogged(x, log, left, more, rest, i, j) {
      assert CellLogged(x, log, at, answered, due, i, j);
    }
  }

  lemma LoggedSkip(x: Filtering, log: Log, at: map<nat, nat>, answered: set<Cell>, due: View, id: RequestId)
    requires Logged(x, log, at, answered, due) && (id.Numbered? ==> id !in due)
    ensures Logged(x, log, at, answered, due - {id})
  {
    var rest := due - {id};
    forall i: nat, j: nat ensures CellLogged(x, log, at, answered, rest, i, j) {
      assert CellLogged(x, log, at, answered, due, i, j);
    }
  }

  lemma LoggedStep(x: Filtering, log: Log, at: map<nat, nat>, answered: set<Cell>, view: View, shown: seq<Output>,
                   again: seq<RequestId>, due: View)
    requires Logged(x, log, at, answered, map[]) && AtStep(x, log)
    requires Legal(view, shown) && Flown(x, log, view.Keys) && SentAgain(again, shown)
    requires forall id: RequestId :: id.Numbered? ==> (id in due <==> id in AnswersOf(x.retries, shown))
    ensures Logged(x, LogOfStep(log, shown, again), at, answered, due)
  {
    StepOrderly(x, log, view, shown, again);
    StepLogged(x, log, shown, again);
    forall i: nat, j: nat ensures CellLogged(x, LogOfStep(log, shown, again), at, answered, due, i, j) {
      assert CellLogged(x, log, at, answered, map[], i, j);
    }
  }

  /** A document is settled by its first FALSE, or by its last answer. */
  lemma {:induction false} SettlingStage(x: Filtering, d: nat, s: nat) returns (t: nat)
    requires d < |x.task.bodies| && x.task.Asked(d, s)
    ensures x.task.Asked(d, t) && Settles(x, d, t)
    decreases |x.task.questions| - s
  {
    t := s;
    if !Settles(x, d, s) {
      PassedNext(x.task, d, s);
      t := SettlingStage(x, d, s + 1);
    }
  }

  /** Between batches, the documents the log shows live are those in flight. */
  lemma LiveIsInflight(x: Filtering, log: Log, p: Progress, d: nat)
    requires |x.task.questions| > 0 && p.next <= |x.task.bodies| && InflightOk(x.task, x.cap, p) && AnswersOk(x.task, p)
    requires Logged(x, log, p.inflight, p.answers.Keys, map[])
    ensures Numbered(d, 0) in SentIn(log) <==> d < p.next
    ensures d in LiveIn(x, log) <==> d in p.inflight
  {
    assert CellLogged(x, log, p.inflight, p.answers.Keys, map[], d, 0);
    AskedFirst(x, p, d);
    if d in p.inflight {
      forall t: nat | Numbered(d, t) in AnsweredIn(x, log) ensures !Settles(x, d, t) {
        assert CellLogged(x, log, p.inflight, p.answers.Keys, map[], d, t);
        AnsweredEarlier(x, p, d, t);
      }
    } else if d < p.next {
      var t := SettlingStage(x, d, 0);
      assert CellLogged(x, log, p.inflight, p.answers.Keys, map[], d, t);
      assert Answered(x.task, p, d, t + 1);
    }
  }

  lemma AskedFirst(x: Filtering, p: Progress, d: nat)
    requires |x.task.questions| > 0 && p.next <= |x.task.bodies| && InflightOk(x.task, x.cap, p) && AnswersOk(x.task, p)
    ensures (d, 1) in p.answers || (d in p.inflight && p.inflight[d] == 0) <==> d < p.next
  {
    assert (d, 1) in p.answers <==> Answered(x.task, p, d, 1);
    if d < p.next {
      assert x.task.Asked(d, 0);
    }
  }

  lemma AnsweredEarlier(x: Filtering, p: Progress, d: nat, t: nat)
    requires InflightOk(x.task, x.cap, p) && AnswersOk(x.task, p) && d in p.inflight && (d, t + 1) in p.answers
    ensures !Settles(x, d, t)
  {
    assert Answered(x.task, p, d, t + 1);
    assert x.task.Asked(d, p.inflight[d]);
    assert x.task.Truth(d, t);
  }

  /** The scheduler may step its engine once it has admitted all it may. */
  lemma MayStep(x: Filtering, log: Log, p: Progress)
    requires |x.task.questions| > 0 && p.next <= |x.task.bodies| && InflightOk(x.task, x.cap, p) && AnswersOk(x.task, p)
    requires Logged(x, log, p.inflight, p.answers.Keys, map[])
    requires p.next == |x.task.bodies| || |p.inflight.Keys| == x.cap
    requires forall d :: d in p.inflight ==> Flies(x, log, d)
    ensures AtStep(x, log)
  {
    forall d: nat ensures Numbered(d, 0) in SentIn(log) <==> d < p.next ensures d in LiveIn(x, log) <==> d in p.inflight {
      LiveIsInflight(x, log, p, d);
    }
    assert LiveIn(x, log) == p.inflight.Keys;
  }

  /** The scheduler may admit the next document while fewer than the cap are in flight. */
  lemma MayAdmit(x: Filtering, log: Log, p: Progress)
    requires |x.task.questions| > 0 && p.next < |x.task.bodies| && InflightOk(x.task, x.cap, p) && AnswersOk(x.task, p)
    requires Logged(x, log, p.inflight, p.answers.Keys, map[]) && |p.inflight.Keys| < x.cap
    ensures MayQueue(x, log, p.next, 0)
  {
    forall d: nat ensures Numbered(d, 0) in SentIn(log) <==> d < p.next ensures d in LiveIn(x, log) <==> d in p.inflight {
      LiveIsInflight(x, log, p, d);
    }
    assert LiveIn(x, log) == p.inflight.Keys;
  }

  /** The next stage may be sent once its predecessor is answered TRUE. */
  lemma MaySendNext(x: Filtering, log: Log, at: map<nat, nat>, answered: set<Cell>, due: View, d: nat, s: nat)
    requires Logged(x, log, at, answered, due) && d !in at && (d, s + 1) in answered && (d, s + 2) !in answered
    requires x.Has(d, s + 1) && x.IsTrue(d, s)
    ensures MayQueue(x, log, d, s + 1)
  {
    assert CellLogged(x, log, at, answered, due, d, s) && CellLogged(x, log, at, answered, due, d, s + 1);
  }
}
