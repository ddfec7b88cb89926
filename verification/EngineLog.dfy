/** An engine's history: what was queued, shown and finished, in order. */
module EngineLog {
  import opened Prompts
  import opened Requests

  type Log = seq<EngineEvent>

  /** The events from event `from` on. */
  ghost function Since(events: Log, from: nat): Log {
    if from <= |events| then events[from..] else []
  }

  lemma SinceMore(events: Log, more: Log, from: nat)
    requires from <= |events|
    ensures Since(events + more, from) == Since(events, from) + more
  {
  }

  /** The requests queued so far. */
  function SentIn(log: Log): set<RequestId> {
    if log == [] then
      {}
    else
      var last := log[|log| - 1];
      SentIn(log[..|log| - 1]) + if last.Queued? then {last.id} else {}
  }

  /** The requests that have shown an output. */
  function ShownIn(log: Log): set<RequestId> {
    if log == [] then
      {}
    else
      var last := log[|log| - 1];
      ShownIn(log[..|log| - 1]) + if last.Shown? then {last.id} else {}
  }

  /** The requests that have finished. */
  function DoneIn(log: Log): (r: set<RequestId>)
    ensures r <= ShownIn(log)
  {
    if log == [] then
      {}
    else
      var last := log[|log| - 1];
      DoneIn(log[..|log| - 1]) + if last.Shown? && last.finished then {last.id} else {}
  }

  /** What an engine holds that held `before`: a queued request until it finishes. */
  function HeldAfter(before: set<RequestId>, log: Log): set<RequestId> {
    if log == [] then
      before
    else
      var (held, e) := (HeldAfter(before, log[..|log| - 1]), log[|log| - 1]);
      if e.Queued? then held + {e.id} else if e.Shown? && e.finished then held - {e.id} else held
  }

  lemma HeldNext(before: set<RequestId>, log: Log, e: EngineEvent)
    ensures e.Queued? ==> HeldAfter(before, log + [e]) == HeldAfter(before, log) + {e.id}
    ensures e.Shown? && e.finished ==> HeldAfter(before, log + [e]) == HeldAfter(before, log) - {e.id}
    ensures e.Stepped? || (e.Shown? && !e.finished) ==> HeldAfter(before, log + [e]) == HeldAfter(before, log)
  {
    assert (log + [e])[..|log|] == log;
  }

  predicate Ends(e: EngineEvent, id: RequestId) {
    e.Shown? && e.finished && e.id == id
  }

  /** The request was queued and has not finished since. */
  ghost predicate QueuedLast(log: Log, id: RequestId) {
    exists k :: 0 <= k < |log| && log[k] == Queued(id) && Unfinished(log, k, id)
  }

  ghost predicate Unfinished(log: Log, k: nat, id: RequestId) {
    forall j :: k < j < |log| ==> !Ends(log[j], id)
  }

  lemma QueuedNext(log: Log, e: EngineEvent, id: RequestId)
    ensures QueuedLast(log + [e], id) <==> e == Queued(id) || (QueuedLast(log, id) && !Ends(e, id))
  {
    var all := log + [e];
    if QueuedLast(all, id) && e != Queued(id) {
      var k :| 0 <= k < |all| && all[k] == Queued(id) && Unfinished(all, k, id);
      assert all[|log|] == e && k < |log| && log[k] == Queued(id);
      assert forall j :: k < j < |log| ==> log[j] == all[j];
      assert Unfinished(log, k, id);
    }
    if e == Queued(id) {
      assert all[|log|] == Queued(id) && Unfinished(all, |log|, id);
    } else if QueuedLast(log, id) && !Ends(e, id) {
      var k :| 0 <= k < |log| && log[k] == Queued(id) && Unfinished(log, k, id);
      assert all[k] == Queued(id) && Unfinished(all, k, id);
    }
  }

  /** A request is held when it was queued and has not finished since, or was held and has done neither. */
  lemma {:induction false} HeldUnfinished(before: set<RequestId>, log: Log, id: RequestId)
    ensures id in HeldAfter(before, log) <==>
      QueuedLast(log, id) || (id in before && id !in SentIn(log) && id !in DoneIn(log))
  {
    if log != [] {
      var (front, e) := (log[..|log| - 1], log[|log| - 1]);
      assert log == front + [e];
      HeldUnfinished(before, front, id);
      HeldNext(before, front, e);
      LogNext(front, e);
      QueuedNext(front, e, id);
    }
  }

  lemma {:induction false} HeldBatch(before: set<RequestId>, log: Log, outputs: seq<Output>)
    ensures HeldAfter(before, log + ShownBy(outputs)) == HeldAfter(before, log) - FinishedIds(outputs)
  {
    if outputs == [] {
      assert log + ShownBy(outputs) == log;
    } else {
      var (front, last) := (outputs[..|outputs| - 1], outputs[|outputs| - 1]);
      assert outputs == front + [last];
      HeldBatch(before, log, front);
      ShownByNext(log, front, last);
      HeldNext(before, log + ShownBy(front), ShownAs(last));
      FinishedIdsAppend(front, last);
    }
  }

  lemma LogNext(log: Log, e: EngineEvent)
    ensures SentIn(log + [e]) == SentIn(log) + if e.Queued? then {e.id} else {}
    ensures ShownIn(log + [e]) == ShownIn(log) + if e.Shown? then {e.id} else {}
    ensures DoneIn(log + [e]) == DoneIn(log) + if e.Shown? && e.finished then {e.id} else {}
  {
    assert (log + [e])[..|log|] == log;
  }

  ghost predicate ShowsOne(outputs: seq<Output>, id: RequestId) {
    exists i :: 0 <= i < |outputs| && outputs[i].id == id
  }

  lemma ShowsNext(front: seq<Output>, last: Output, id: RequestId)
    ensures ShowsOne(front + [last], id) <==> ShowsOne(front, id) || id == last.id
  {
    var all := front + [last];
    if ShowsOne(front, id) {
      var i :| 0 <= i < |front| && front[i].id == id;
      assert all[i].id == id;
    }
    assert all[|front|] == last;
  }

  lemma ShownByNext(log: Log, front: seq<Output>, last: Output)
    ensures log + ShownBy(front + [last]) == (log + ShownBy(front)) + [ShownAs(last)]
  {
    assert ShownBy(front + [last]) == ShownBy(front) + [ShownAs(last)];
  }

  lemma {:induction false} BatchLogged(log: Log, outputs: seq<Output>)
    ensures SentIn(log + ShownBy(outputs)) == SentIn(log)
    ensures DoneIn(log + ShownBy(outputs)) == DoneIn(log) + FinishedIds(outputs)
  {
    if outputs == [] {
      assert log + ShownBy(outputs) == log;
    } else {
      var (front, last) := (outputs[..|outputs| - 1], outputs[|outputs| - 1]);
      assert outputs == front + [last];
      BatchLogged(log, front);
      ShownByNext(log, front, last);
      LogNext(log + ShownBy(front), ShownAs(last));
      FinishedIdsAppend(front, last);
    }
  }

  lemma {:induction false} BatchShown(log: Log, outputs: seq<Output>, id: RequestId)
    ensures id in ShownIn(log + ShownBy(outputs)) <==> id in ShownIn(log) || ShowsOne(outputs, id)
  {
    if outputs == [] {
      assert log + ShownBy(outputs) == log;
    } else {
      var (front, last) := (outputs[..|outputs| - 1], outputs[|outputs| - 1]);
      assert outputs == front + [last];
      BatchShown(log, front, id);
      ShownByNext(log, front, last);
      LogNext(log + ShownBy(front), ShownAs(last));
      ShowsNext(front, last, id);
    }
  }

  /** The requests that these outputs finish with their rows. */
  function AnsweredBy(outputs: seq<Output>): set<RequestId> {
    set i | 0 <= i < |outputs| && outputs[i].finished && !outputs[i].missing :: Base(outputs[i].id)
  }

  /** The requests that these outputs answer, in an engine that reruns requests without their rows or in one that does not. */
  function AnswersOf(retries: bool, outputs: seq<Output>): set<RequestId> {
    if retries then AnsweredBy(outputs) else FinishedIds(outputs)
  }

  /** Requests that are queued again after these outputs, each because it finished without its rows. */
  ghost predicate SentAgain(again: seq<RequestId>, outputs: seq<Output>) {
    && (forall i, j :: 0 <= i < j < |again| ==> again[i] != again[j])
    && forall i :: 0 <= i < |again| ==> LacksRows(outputs, again[i])
  }

  ghost predicate LacksRows(outputs: seq<Output>, id: RequestId) {
    !id.Recompute? && exists i :: 0 <= i < |outputs| && outputs[i].id == id && outputs[i].finished && outputs[i].missing
  }

  /** Requests queued again, under their rerun ids. */
  function QueuedAgain(again: seq<RequestId>): (r: Log)
    ensures |r| == |again| && forall i :: 0 <= i < |r| ==> r[i] == Queued(Recompute(again[i]))
  {
    seq(|again|, i requires 0 <= i < |again| => Queued(Recompute(again[i])))
  }

  function RerunsFor(again: seq<RequestId>): set<RequestId> {
    set i | 0 <= i < |again| :: Recompute(again[i])
  }

  lemma QueuedAgainNext(log: Log, front: seq<RequestId>, id: RequestId)
    ensures log + QueuedAgain(front + [id]) == (log + QueuedAgain(front)) + [Queued(Recompute(id))]
  {
    assert QueuedAgain(front + [id]) == QueuedAgain(front) + [Queued(Recompute(id))];
  }

  /** What has happened in an engine, and what it holds. */
  datatype Trace = Trace(events: Log, held: set<RequestId>)

  /** A request is queued. */
  ghost function AfterQueue(t: Trace, id: RequestId): Trace {
    Trace(t.events + [Queued(id)], t.held + {id})
  }

  /** The engine is stepped and shows these outputs. */
  ghost function AfterOutputs(t: Trace, outputs: seq<Output>): Trace {
    Trace(t.events + [Stepped] + ShownBy(outputs), t.held - FinishedIds(outputs))
  }

  /** Some requests are queued again. */
  ghost function AfterReruns(t: Trace, again: seq<RequestId>): Trace {
    Trace(t.events + QueuedAgain(again), t.held + RerunsFor(again))
  }

  lemma NoReruns(t: Trace)
    ensures AfterReruns(t, []) == t
  {
  }

  lemma OneRerun(t: Trace, id: RequestId)
    ensures AfterReruns(t, [id]) == Trace(t.events + [Queued(Recompute(id))], t.held + {Recompute(id)})
  {
    RerunsForNext([], id);
    assert [] + [id] == [id];
    assert QueuedAgain([id]) == [Queued(Recompute(id))];
  }

  lemma MoreReruns(t: Trace, again: seq<RequestId>, id: RequestId)
    ensures AfterReruns(AfterReruns(t, again), [id]) == AfterReruns(t, again + [id])
  {
    OneRerun(AfterReruns(t, again), id);
    RerunsForNext(again, id);
    assert QueuedAgain(again + [id]) == QueuedAgain(again) + [Queued(Recompute(id))];
  }

  lemma AnsweredByNext(outputs: seq<Output>, o: Output)
    ensures AnsweredBy(outputs + [o]) == AnsweredBy(outputs) + if o.finished && !o.missing then {Base(o.id)} else {}
  {
    var all := outputs + [o];
    forall i | 0 <= i < |outputs| && outputs[i].finished && !outputs[i].missing ensures Base(outputs[i].id) in AnsweredBy(all) {
      assert all[i] == outputs[i];
    }
    if o.finished && !o.missing {
      assert Base(all[|outputs|].id) in AnsweredBy(all);
    }
  }

  lemma LacksRowsMore(outputs: seq<Output>, o: Output, id: RequestId)
    requires LacksRows(outputs, id)
    ensures LacksRows(outputs + [o], id)
  {
    var i :| 0 <= i < |outputs| && outputs[i].id == id && outputs[i].finished && outputs[i].missing;
    assert (outputs + [o])[i] == outputs[i];
  }

  lemma SentAgainSkip(again: seq<RequestId>, outputs: seq<Output>, o: Output)
    requires SentAgain(again, outputs)
    ensures SentAgain(again, outputs + [o])
  {
    forall i | 0 <= i < |again| ensures LacksRows(outputs + [o], again[i]) {
      LacksRowsMore(outputs, o, again[i]);
    }
  }

  lemma SentAgainNext(again: seq<RequestId>, outputs: seq<Output>, o: Output)
    requires SentAgain(again, outputs) && o.finished && o.missing && !o.id.Recompute? && o.id !in FinishedIds(outputs)
    ensures SentAgain(again + [o.id], outputs + [o])
  {
    SentAgainSkip(again, outputs, o);
    assert (outputs + [o])[|outputs|] == o;
    forall i | 0 <= i < |again| ensures again[i] != o.id {
      assert LacksRows(outputs, again[i]);
    }
  }

  lemma RerunsForNext(again: seq<RequestId>, id: RequestId)
    ensures RerunsFor(again + [id]) == RerunsFor(again) + {Recompute(id)}
  {
    var all := again + [id];
    forall i | 0 <= i < |again| ensures Recompute(again[i]) in RerunsFor(all) {
      assert all[i] == again[i];
    }
    assert Recompute(all[|again|]) in RerunsFor(all);
  }

  /** One more finished output is answered, or queued again. */
  lemma SortsNext(outputs: seq<Output>, answered: set<RequestId>, again: seq<RequestId>, t: Trace, o: Output)
    requires answered == AnsweredBy(outputs) && SentAgain(again, outputs)
    requires o.finished && o.id !in FinishedIds(outputs) && (o.missing ==> !o.id.Recompute?)
    ensures AnsweredBy(outputs + [o]) == answered + if o.missing then {} else {Base(o.id)}
    ensures var more := if o.missing then [o.id] else [];
      SentAgain(again + more, outputs + [o]) && AfterReruns(AfterReruns(t, again), more) == AfterReruns(t, again + more)
  {
    AnsweredByNext(outputs, o);
    if o.missing {
      SentAgainNext(again, outputs, o);
      MoreReruns(t, again, o.id);
    } else {
      SentAgainSkip(again, outputs, o);
      NoReruns(AfterReruns(t, again));
      assert again + [] == again;
    }
  }

  lemma {:induction false} SentAgainWhole(again: seq<RequestId>, outputs: seq<Output>, i: nat)
    requires i <= |outputs| && SentAgain(again, outputs[..i])
    ensures SentAgain(again, outputs)
    decreases |outputs| - i
  {
    if i == |outputs| {
      assert outputs[..i] == outputs;
    } else {
      SentAgainSkip(again, outputs[..i], outputs[i]);
      assert outputs[..i] + [outputs[i]] == outputs[..i + 1];
      SentAgainWhole(again, outputs, i + 1);
    }
  }
}
