/** The step-loop scheduler of a field extraction (`run_extract_fields`): a document's first field
    goes alone, and the others follow once it has written a token. */
module ExtractScheduling {
  import opened Prompts
  import opened Requests
  import opened DocumentCaps
  import opened Common
  import opened EngineLog
  import opened ExtractLog

  type Grid = seq<seq<Option<Output>>>

  datatype Extracted = Propagated | Returned(outputs: Grid)

  predicate InFlight(open: set<Cell>, id: RequestId) {
    id.Numbered? && (id.document, id.part) in open
  }

  /** The scheduler's `inflight` dictionary, when the cells in `open` wait for their outputs. */
  ghost predicate Mirrors(inflight: map<RequestId, Cell>, open: set<Cell>) {
    && (forall id :: id in inflight <==> InFlight(open, id))
    && (forall id :: id in inflight ==> inflight[id] == (id.document, id.part))
  }

  ghost predicate Pending(view: View, due: View, id: RequestId, prompt: Prompt) {
    (id in view && view[id] == prompt) || (id in due && due[id] == prompt)
  }

  /** Every open cell has its own prompt in the engine, or finishes in the rest of the batch. */
  ghost predicate Waiting(x: Extraction, open: set<Cell>, view: View, due: View, others: set<RequestId>) {
    && (forall id :: id in view || id in due ==> InFlight(open, id) || id in others)
    && (forall id :: id in due ==> id !in view)
    && (forall d: nat, f: nat :: Numbered(d, f) !in others)
    && forall d: nat, f: nat :: (d, f) in open ==>
         x.Has(d, f) && Pending(view, due, Numbered(d, f), x.PromptOf(d, f))
  }

  /** The engine's history when the extraction starts, and the document cap. */
  datatype Mark = Mark(sent: multiset<RequestId>, events: nat, cap: nat)

  /** Since the start, each submitted cell was sent to the engine once, and no other cell. */
  ghost predicate SentOnce(sent: multiset<RequestId>, before: multiset<RequestId>, submitted: set<Cell>) {
    forall d: nat, f: nat :: sent[Numbered(d, f)] == before[Numbered(d, f)] + (if (d, f) in submitted then 1 else 0)
  }

  /** An output of a request was shown since event `from`, before event k. */
  ghost predicate Seen(events: seq<EngineEvent>, from: nat, k: nat, id: RequestId) {
    exists j :: from <= j < k && j < |events| && events[j].Shown? && events[j].id == id
  }

  /** A later field is sent only after its document's first field has shown an output. */
  ghost predicate FirstFieldFirst(events: seq<EngineEvent>, from: nat) {
    forall k :: from <= k < |events| && events[k].Queued? && events[k].id.Numbered? && events[k].id.part >= 1 ==>
      Seen(events, from, k, Numbered(events[k].id.document, 0))
  }

  lemma {:induction false} ShownSeen(log: Log, id: RequestId)
    requires id in ShownIn(log)
    ensures Seen(log, 0, |log|, id)
  {
    var n := |log| - 1;
    if log[n].Shown? && log[n].id == id {
    } else {
      ShownSeen(log[..n], id);
      var j :| 0 <= j < n && log[..n][j].Shown? && log[..n][j].id == id;
      assert log[j].Shown? && log[j].id == id;
    }
  }

  lemma OrderlyFirst(x: Extraction, cap: nat, events: seq<EngineEvent>, from: nat)
    requires from <= |events| && Orderly(x, cap, events[from..])
    ensures FirstFieldFirst(events, from)
  {
    var log := events[from..];
    forall k | from <= k < |events| && events[k].Queued? && events[k].id.Numbered? && events[k].id.part >= 1
      ensures Seen(events, from, k, Numbered(events[k].id.document, 0))
    {
      var now := log[..k - from];
      OrderlyPrefix(x, cap, log, k - from);
      ShownSeen(now, Numbered(events[k].id.document, 0));
      var j :| 0 <= j < |now| && now[j].Shown? && now[j].id == Numbered(events[k].id.document, 0);
      assert events[from + j] == now[j];
    }
  }

  /** The events since the start. */
  ghost function LogOf(engine: Engine, base: Mark): Log
    reads engine
  {
    Since(engine.events, base.events)
  }

  /** The log is orderly, and says which cells were submitted, and which have finished, the due ones included. */
  ghost predicate Logged(x: Extraction, cap: nat, log: Log, open: set<Cell>, due: View, submitted: set<Cell>) {
    && Orderly(x, cap, log)
    && (forall d: nat, f: nat :: Numbered(d, f) in SentIn(log) <==> (d, f) in submitted)
    && (forall d: nat, f: nat :: (d, f) in submitted ==>
          (Numbered(d, f) in DoneIn(log) <==> (d, f) !in open || Numbered(d, f) in due))
  }

  ghost predicate Serves(engine: Engine, x: Extraction, open: set<Cell>, due: View, others: set<RequestId>,
                         submitted: set<Cell>, base: Mark)
    reads engine
  {
    && open <= submitted
    && Waiting(x, open, engine.View(), due, others) && SentOnce(engine.sent, base.sent, submitted)
    && base.events <= |engine.events| && Logged(x, base.cap, LogOf(engine, base), open, due, submitted)
  }

  /** The requests of which the engine has shown an output since the extraction started. */
  ghost function ShownTo(engine: Engine, base: Mark): set<RequestId>
    reads engine
  {
    ShownIn(LogOf(engine, base))
  }

  ghost predicate HasShown(engine: Engine, base: Mark, id: RequestId)
    reads engine
  {
    id in ShownTo(engine, base)
  }

  /** A document is released when its first field has shown an output. */
  ghost predicate Told(engine: Engine, base: Mark, submitted: set<Cell>, released: set<nat>)
    reads engine
  {
    forall d: nat :: (d, 0) in submitted ==> (HasShown(engine, base, Numbered(d, 0)) <==> d in released)
  }

  /** Which cells are submitted: the first field of every admitted document, and every field of a
      released one.  An answered first field has released its document. */
  ghost predicate Staged(x: Extraction, next: nat, released: set<nat>, submitted: set<Cell>, filled: set<Cell>) {
    && next <= |x.bodies| && |x.tails| > 0 && filled <= submitted
    && (forall d: nat, f: nat :: (d, f) in submitted <==> d < next && f < |x.tails| && (f == 0 || d in released))
    && (forall d :: d in released ==> d < next)
    && (forall d :: (d, 0) in filled ==> d in released)
  }

  function Unfilled(fields: nat, filled: set<Cell>, d: nat): set<nat> {
    set f: nat | f < fields && (d, f) !in filled
  }

  function Live(left: map<nat, nat>): set<nat> {
    set d | d in left && left[d] > 0
  }

  /** `left` counts each admitted document's unanswered fields, `expected` the documents with any. */
  ghost predicate Counted(x: Extraction, cap: nat, next: nat, filled: set<Cell>, left: map<nat, nat>, expected: nat) {
    && (forall d: nat :: d in left <==> d < next)
    && (forall d :: d in left ==> left[d] == |Unfilled(|x.tails|, filled, d)|)
    && expected == |Live(left)| <= cap
  }

  lemma CountAdmit(x: Extraction, cap: nat, next: nat, filled: set<Cell>, left: map<nat, nat>, expected: nat)
    requires Counted(x, cap, next, filled, left, expected) && expected < cap && |x.tails| > 0
    requires forall f: nat :: (next, f) !in filled
    ensures Counted(x, cap, next + 1, filled, left[next := |x.tails|], expected + 1)
  {
    var grown := left[next := |x.tails|];
    UnfilledAll(|x.tails|, filled, next);
    assert Live(grown) == Live(left) + {next};
  }

  lemma {:induction false} UnfilledAll(fields: nat, filled: set<Cell>, d: nat)
    requires forall f: nat :: (d, f) !in filled
    ensures |Unfilled(fields, filled, d)| == fields
  {
    if fields > 0 {
      UnfilledAll(fields - 1, filled, d);
      assert Unfilled(fields, filled, d) == Unfilled(fields - 1, filled, d) + {fields - 1};
    }
  }

  lemma CountFill(x: Extraction, cap: nat, next: nat, filled: set<Cell>, left: map<nat, nat>, expected: nat, d: nat, f: nat)
    returns (count: nat)
    requires Counted(x, cap, next, filled, left, expected) && d < next
    requires f < |x.tails| && (d, f) !in filled
    ensures d in left && left[d] > 0 && expected > 0 && count == left[d] - 1
    ensures Counted(x, cap, next, filled + {(d, f)}, left[d := count], if count == 0 then expected - 1 else expected)
  {
    var before := Unfilled(|x.tails|, filled, d);
    assert f in before;
    count := left[d] - 1;
    assert Unfilled(|x.tails|, filled + {(d, f)}, d) == before - {f};
    forall e | e in left && e != d
      ensures Unfilled(|x.tails|, filled + {(d, f)}, e) == Unfilled(|x.tails|, filled, e)
    {
    }
    assert d in Live(left);
    assert Live(left[d := count]) == if count == 0 then Live(left) - {d} else Live(left);
  }

  ghost predicate Filled(x: Extraction, o: Option<Output>, filled: set<Cell>, d: nat, f: nat)
    requires x.Has(d, f)
  {
    && (o.Some? <==> (d, f) in filled)
    && (o.Some? ==> o.value.finished && o.value.id == Numbered(d, f) && o.value.prompt == x.PromptOf(d, f))
  }

  /** The grid of outputs holds the finished output of each filled cell, made from its own prompt. */
  ghost predicate Holds(x: Extraction, outputs: Grid, filled: set<Cell>) {
    && |outputs| == |x.tails| && (forall f :: 0 <= f < |outputs| ==> |outputs[f]| == |x.bodies|)
    && forall d: nat, f: nat {:trigger x.Has(d, f)} :: x.Has(d, f) ==> Filled(x, outputs[f][d], filled, d, f)
  }

  lemma HoldsFill(x: Extraction, outputs: Grid, filled: set<Cell>, d: nat, f: nat, o: Output)
    requires Holds(x, outputs, filled) && x.Has(d, f) && (d, f) !in filled
    requires o.finished && o.id == Numbered(d, f) && o.prompt == x.PromptOf(d, f)
    ensures Holds(x, outputs[f := outputs[f][d := Some(o)]], filled + {(d, f)})
  {
    var put := outputs[f := outputs[f][d := Some(o)]];
    forall e: nat, g: nat | x.Has(e, g) ensures Filled(x, put[g][e], filled + {(d, f)}, e, g) {
      assert Filled(x, outputs[g][e], filled, e, g);
    }
  }

  /** The scheduler's variables agree. */
  ghost predicate Running(x: Extraction, cap: nat, next: nat, released: set<nat>, submitted: set<Cell>, filled: set<Cell>,
                          left: map<nat, nat>, expected: nat, inflight: map<RequestId, Cell>, outputs: Grid) {
    && Staged(x, next, released, submitted, filled)
    && Counted(x, cap, next, filled, left, expected)
    && Mirrors(inflight, submitted - filled)
    && Holds(x, outputs, filled)
  }

  /** A document may be admitted next. */
  ghost predicate MayAdmit(engine: Engine, x: Extraction, base: Mark, submitted: set<Cell>, d: nat)
    reads engine
  {
    |LiveIn(x, LogOf(engine, base))| < base.cap && forall e: nat :: e < d ==> (e, 0) in submitted
  }

  /** Sending a request that may be sent keeps the log orderly. */
  lemma LoggedQueue(x: Extraction, cap: nat, log: Log, open: set<Cell>, due: View, submitted: set<Cell>, d: nat, f: nat)
    requires Logged(x, cap, log, open, due, submitted) && x.Has(d, f) && (d, f) !in submitted && Numbered(d, f) !in due
    requires if f == 0 then |LiveIn(x, log)| < cap && forall e: nat :: e < d ==> (e, 0) in submitted
             else Numbered(d, 0) in ShownIn(log)
    ensures Logged(x, cap, log + [Queued(Numbered(d, f))], open + {(d, f)}, due, submitted + {(d, f)})
    ensures ShownIn(log + [Queued(Numbered(d, f))]) == ShownIn(log)
  {
    var e := Queued(Numbered(d, f));
    SentBefore(x, cap, log);
    OrderlyNext(x, cap, log, e);
    LogNext(log, e);
  }

  lemma QueueWaits(x: Extraction, open: set<Cell>, view: View, due: View, others: set<RequestId>, d: nat, f: nat)
    requires Waiting(x, open, view, due, others) && x.Has(d, f) && Numbered(d, f) !in due
    ensures Waiting(x, open + {(d, f)}, view[Numbered(d, f) := x.PromptOf(d, f)], due, others)
  {
  }

  lemma QueueSent(sent: multiset<RequestId>, before: multiset<RequestId>, submitted: set<Cell>, d: nat, f: nat)
    requires SentOnce(sent, before, submitted) && (d, f) !in submitted
    ensures SentOnce(sent + multiset{Numbered(d, f)}, before, submitted + {(d, f)})
  {
  }

  /** `submit`: remember the request, then queue it. */
  method Submit(x: Extraction, engine: Engine, uncached: bool, inflight: map<RequestId, Cell>, document: nat, field: nat,
                ghost open: set<Cell>, ghost due: View, ghost others: set<RequestId>, ghost submitted: set<Cell>,
                ghost base: Mark)
    returns (grown: map<RequestId, Cell>)
    requires x.Has(document, field) && (document, field) !in submitted
    requires Serves(engine, x, open, due, others, submitted, base) && Mirrors(inflight, open)
    requires Numbered(document, field) !in due
    requires if field == 0 then MayAdmit(engine, x, base, submitted, document)
             else HasShown(engine, base, Numbered(document, 0))
    modifies engine
    ensures Mirrors(grown, open + {(document, field)})
    ensures Serves(engine, x, open + {(document, field)}, due, others, submitted + {(document, field)}, base)
    ensures engine.script == old(engine.script)
    ensures ShownTo(engine, base) == old(ShownTo(engine, base))
  {
    var id := Numbered(document, field);
    grown := inflight[id := (document, field)];
    assert !InFlight(open, id);
    assert id !in engine.View();
    ghost var before := engine.events;
    engine.AddRequest(id, Request(x.PromptOf(document, field), uncached));
    assert engine.View() == old(engine.View())[id := x.PromptOf(document, field)];
    QueueWaits(x, open, old(engine.View()), due, others, document, field);
    QueueSent(old(engine.sent), base.sent, submitted, document, field);
    LoggedQueue(x, base.cap, Since(before, base.events), open, due, submitted, document, field);
    SinceMore(before, [Queued(id)], base.events);
  }

  /** Fields lo to hi of a document. */
  function Fields(d: nat, lo: nat, hi: nat): (r: set<Cell>)
    ensures forall e: nat, f: nat :: (e, f) in r <==> e == d && lo <= f < hi
  {
    set f: nat | lo <= f < hi :: (d, f)
  }

  lemma OneMoreField(open: set<Cell>, d: nat, later: nat)
    requires later >= 1
    ensures open + Fields(d, 1, later + 1) == open + Fields(d, 1, later) + {(d, later)}
  {
    forall cell: Cell ensures cell in Fields(d, 1, later + 1) <==> cell in Fields(d, 1, later) + {(d, later)} {
      assert cell == (cell.0, cell.1);
    }
  }

  /** Submit the later fields of a document. */
  method SubmitLater(x: Extraction, engine: Engine, uncached: bool, inflight: map<RequestId, Cell>, document: nat,
                     ghost open: set<Cell>, ghost due: View, ghost others: set<RequestId>, ghost submitted: set<Cell>,
                     ghost base: Mark)
    returns (grown: map<RequestId, Cell>)
    requires document < |x.bodies| && |x.tails| > 0
    requires forall f: nat :: 1 <= f ==> (document, f) !in submitted && Numbered(document, f) !in due
    requires HasShown(engine, base, Numbered(document, 0))
    requires Serves(engine, x, open, due, others, submitted, base) && Mirrors(inflight, open)
    modifies engine
    ensures Mirrors(grown, open + Fields(document, 1, |x.tails|))
    ensures Serves(engine, x, open + Fields(document, 1, |x.tails|), due, others,
                   submitted + Fields(document, 1, |x.tails|), base)
    ensures engine.script == old(engine.script)
    ensures ShownTo(engine, base) == old(ShownTo(engine, base))
  {
    grown := inflight;
    assert open + Fields(document, 1, 1) == open && submitted + Fields(document, 1, 1) == submitted;
    for later := 1 to |x.tails|
      invariant Mirrors(grown, open + Fields(document, 1, later))
      invariant Serves(engine, x, open + Fields(document, 1, later), due, others,
                       submitted + Fields(document, 1, later), base)
      invariant engine.script == old(engine.script)
      invariant ShownTo(engine, base) == old(ShownTo(engine, base))
    {
      OneMoreField(open, document, later);
      OneMoreField(submitted, document, later);
      grown := Submit(x, engine, uncached, grown, document, later, open + Fields(document, 1, later), due, others,
                      submitted + Fields(document, 1, later), base);
    }
  }

  /** A batch's finished requests, with their prompts. */
  ghost function Due(view: View, outputs: seq<Output>, i: nat): View
    requires i <= |outputs|
  {
    map id | id in view && id in FinishedIds(outputs[i..]) :: view[id]
  }

  lemma WaitingStep(x: Extraction, open: set<Cell>, view: View, others: set<RequestId>, outputs: seq<Output>)
    requires Waiting(x, open, view, map[], others)
    ensures Waiting(x, open, view - FinishedIds(outputs), Due(view, outputs, 0), others)
  {
    assert outputs[0..] == outputs;
  }

  /** An output that does not finish changes nothing that is due; a finished one is due no more. */
  lemma DueNext(view: View, outputs: seq<Output>, i: nat)
    requires Legal(view, outputs) && i < |outputs|
    ensures outputs[i].finished ==>
      && outputs[i].id in Due(view, outputs, i) && Due(view, outputs, i)[outputs[i].id] == outputs[i].prompt
      && Due(view, outputs, i + 1) == Due(view, outputs, i) - {outputs[i].id}
    ensures !outputs[i].finished ==> Due(view, outputs, i + 1) == Due(view, outputs, i)
  {
    LegalTail(view, outputs, i);
  }

  /** The documents released, the cells filled and the requests due after an output. */
  function ReleasedBy(open: set<Cell>, o: Output, released: set<nat>): set<nat> {
    if InFlight(open, o.id) && o.id.part == 0 then released + {o.id.document} else released
  }

  function FilledBy(open: set<Cell>, o: Output, filled: set<Cell>): set<Cell> {
    if InFlight(open, o.id) && o.finished then filled + {(o.id.document, o.id.part)} else filled
  }

  function DueAfter(due: View, o: Output): View {
    if o.finished then due - {o.id} else due
  }

  lemma ServesSkip(engine: Engine, x: Extraction, open: set<Cell>, due: View, others: set<RequestId>,
                   submitted: set<Cell>, base: Mark, o: Output)
    requires Serves(engine, x, open, due, others, submitted, base) && !InFlight(open, o.id)
    ensures Serves(engine, x, open, DueAfter(due, o), others, submitted, base)
  {
  }

  lemma ServesPop(engine: Engine, x: Extraction, open: set<Cell>, due: View, others: set<RequestId>,
                  submitted: set<Cell>, base: Mark, id: RequestId)
    requires Serves(engine, x, open, due, others, submitted, base) && InFlight(open, id) && id in due
    ensures Serves(engine, x, open - {(id.document, id.part)}, due - {id}, others, submitted, base)
    ensures x.Has(id.document, id.part) && due[id] == x.PromptOf(id.document, id.part)
  {
    assert id == Numbered(id.document, id.part);
  }

  lemma MirrorsPop(inflight: map<RequestId, Cell>, open: set<Cell>, id: RequestId)
    requires Mirrors(inflight, open) && InFlight(open, id)
    ensures Mirrors(inflight - {id}, open - {(id.document, id.part)})
  {
    assert id == Numbered(id.document, id.part);
  }

  /** The first output of a document's first field: its other fields are submitted. */
  method Release(x: Extraction, engine: Engine, uncached: bool, inflight: map<RequestId, Cell>, released: set<nat>,
                 document: nat, ghost next: nat, ghost filled: set<Cell>, ghost due: View, ghost others: set<RequestId>,
                 ghost submitted: set<Cell>, ghost base: Mark)
    returns (grown: map<RequestId, Cell>, more: set<nat>, ghost added: set<Cell>)
    requires document < next && document !in released && HasShown(engine, base, Numbered(document, 0))
    requires Staged(x, next, released, submitted, filled) && Mirrors(inflight, submitted - filled)
    requires Serves(engine, x, submitted - filled, due, others, submitted, base)
    modifies engine
    ensures more == released + {document} && added == submitted + Fields(document, 1, |x.tails|)
    ensures Staged(x, next, more, added, filled) && Mirrors(grown, added - filled)
    ensures Serves(engine, x, added - filled, due, others, added, base)
    ensures engine.script == old(engine.script)
    ensures ShownTo(engine, base) == old(ShownTo(engine, base))
  {
    more := released + {document};
    added := submitted + Fields(document, 1, |x.tails|);
    StagedRelease(x, next, released, submitted, filled, document);
    grown := SubmitLater(x, engine, uncached, inflight, document, submitted - filled, due, others, submitted, base);
  }

  lemma StagedRelease(x: Extraction, next: nat, released: set<nat>, submitted: set<Cell>, filled: set<Cell>, d: nat)
    requires Staged(x, next, released, submitted, filled) && d < next && d !in released
    ensures Staged(x, next, released + {d}, submitted + Fields(d, 1, |x.tails|), filled)
    ensures submitted + Fields(d, 1, |x.tails|) - filled == submitted - filled + Fields(d, 1, |x.tails|)
    ensures forall f: nat :: 1 <= f ==> (d, f) !in submitted
  {
    forall e: nat, f: nat
      ensures (e, f) in submitted + Fields(d, 1, |x.tails|) <==>
              e < next && f < |x.tails| && (f == 0 || e in released + {d})
    {
    }
    forall f: nat | f < |x.tails| ensures (d, f) in filled ==> f == 0 {
    }
    assert Fields(d, 1, |x.tails|) !! filled by {
      assert forall cell :: cell in Fields(d, 1, |x.tails|) ==> cell == (cell.0, cell.1);
    }
  }

  /** Keep a finished output, and count its document as done when it was the last field. */
  method Settle(x: Extraction, o: Output, inflight: map<RequestId, Cell>, released: set<nat>, left: map<nat, nat>,
                expected: nat, outputs: Grid, ghost cap: nat, ghost next: nat, ghost submitted: set<Cell>,
                ghost filled: set<Cell>)
    returns (inflight': map<RequestId, Cell>, left': map<nat, nat>, expected': nat, outputs': Grid)
    requires Running(x, cap, next, released, submitted, filled, left, expected, inflight, outputs)
    requires InFlight(submitted - filled, o.id) && o.finished && (o.id.part == 0 ==> o.id.document in released)
    requires x.Has(o.id.document, o.id.part) && o.prompt == x.PromptOf(o.id.document, o.id.part)
    ensures Running(x, cap, next, released, submitted, filled + {(o.id.document, o.id.part)}, left', expected',
                    inflight', outputs')
  {
    var (document, field) := (o.id.document, o.id.part);
    assert o.id == Numbered(document, field);
    MirrorsPop(inflight, submitted - filled, o.id);
    assert submitted - filled - {(document, field)} == submitted - (filled + {(document, field)});
    inflight' := inflight - {o.id};
    HoldsFill(x, outputs, filled, document, field, o);
    outputs' := outputs[field := outputs[field][document := Some(o)]];
    ghost var count := CountFill(x, cap, next, filled, left, expected, document, field);
    left' := left[document := left[document] - 1];
    expected' := if left'[document] == 0 then expected - 1 else expected;
  }

  /** Settle a finished output that was due. */
  method SettleServed(x: Extraction, engine: Engine, o: Output, inflight: map<RequestId, Cell>, released: set<nat>,
                      left: map<nat, nat>, expected: nat, outputs: Grid, ghost cap: nat, ghost next: nat,
                      ghost submitted: set<Cell>, ghost filled: set<Cell>, ghost due: View, ghost others: set<RequestId>,
                      ghost base: Mark)
    returns (inflight': map<RequestId, Cell>, left': map<nat, nat>, expected': nat, outputs': Grid, ghost filled': set<Cell>)
    requires Running(x, cap, next, released, submitted, filled, left, expected, inflight, outputs)
    requires Serves(engine, x, submitted - filled, due, others, submitted, base)
    requires InFlight(submitted - filled, o.id) && (o.id.part == 0 ==> o.id.document in released)
    requires o.finished && o.id in due && due[o.id] == o.prompt
    ensures filled' == filled + {(o.id.document, o.id.part)}
    ensures Running(x, cap, next, released, submitted, filled', left', expected', inflight', outputs')
    ensures Serves(engine, x, submitted - filled', due - {o.id}, others, submitted, base)
  {
    ServesPop(engine, x, submitted - filled, due, others, submitted, base, o.id);
    inflight', left', expected', outputs' := Settle(x, o, inflight, released, left, expected, outputs, cap, next,
                                                    submitted, filled);
    filled' := filled + {(o.id.document, o.id.part)};
    assert submitted - filled - {(o.id.document, o.id.part)} == submitted - filled';
  }

  /** An output of a request in flight: that of a first field releases its document. */
  method ReleaseFirst(x: Extraction, engine: Engine, uncached: bool, id: RequestId, inflight: map<RequestId, Cell>,
                      released: set<nat>, ghost left: map<nat, nat>, ghost expected: nat, ghost outputs: Grid, ghost cap: nat,
                      ghost next: nat, ghost submitted: set<Cell>, ghost filled: set<Cell>, ghost due: View,
                      ghost others: set<RequestId>, ghost base: Mark)
    returns (inflight': map<RequestId, Cell>, released': set<nat>, ghost submitted': set<Cell>)
    requires Running(x, cap, next, released, submitted, filled, left, expected, inflight, outputs)
    requires Serves(engine, x, submitted - filled, due, others, submitted, base)
    requires InFlight(submitted - filled, id) && HasShown(engine, base, id)
    modifies engine
    ensures Running(x, cap, next, released', submitted', filled, left, expected, inflight', outputs)
    ensures Serves(engine, x, submitted' - filled, due, others, submitted', base)
    ensures released' == (if id.part == 0 then released + {id.document} else released) && submitted <= submitted'
    ensures ShownTo(engine, base) == old(ShownTo(engine, base))
    ensures engine.script == old(engine.script)
  {
    inflight', released', submitted' := inflight, released, submitted;
    var (document, field) := inflight[id];
    if field == 0 && document !in released {
      assert id == Numbered(document, 0);
      inflight', released', submitted' := Release(x, engine, uncached, inflight, released, document, next, filled, due,
                                                  others, submitted, base);
    }
  }

  /** Keep the output when it is finished. */
  method SettleHeld(x: Extraction, engine: Engine, o: Output, inflight: map<RequestId, Cell>, released: set<nat>,
                    left: map<nat, nat>, expected: nat, outputs: Grid, ghost cap: nat, ghost next: nat,
                    ghost submitted: set<Cell>, ghost filled: set<Cell>, ghost due: View, ghost others: set<RequestId>,
                    ghost base: Mark)
    returns (inflight': map<RequestId, Cell>, left': map<nat, nat>, expected': nat, outputs': Grid, ghost filled': set<Cell>)
    requires Running(x, cap, next, released, submitted, filled, left, expected, inflight, outputs)
    requires Serves(engine, x, submitted - filled, due, others, submitted, base)
    requires InFlight(submitted - filled, o.id) && (o.id.part == 0 ==> o.id.document in released)
    requires o.finished ==> o.id in due && due[o.id] == o.prompt
    ensures filled' == FilledBy(submitted - filled, o, filled)
    ensures Running(x, cap, next, released, submitted, filled', left', expected', inflight', outputs')
    ensures Serves(engine, x, submitted - filled', DueAfter(due, o), others, submitted, base)
  {
    inflight', left', expected', outputs', filled' := inflight, left, expected, outputs, filled;
    if o.finished {
      inflight', left', expected', outputs', filled' :=
        SettleServed(x, engine, o, inflight, released, left, expected, outputs, cap, next, submitted, filled, due, others,
                     base);
    }
  }

  /** Read an output of a request in flight. */
  method ConsumeHeld(x: Extraction, engine: Engine, uncached: bool, o: Output, inflight: map<RequestId, Cell>,
                     released: set<nat>, left: map<nat, nat>, expected: nat, outputs: Grid, ghost cap: nat,
                     ghost next: nat, ghost submitted: set<Cell>, ghost filled: set<Cell>, ghost due: View,
                     ghost others: set<RequestId>, ghost base: Mark)
    returns (inflight': map<RequestId, Cell>, released': set<nat>, left': map<nat, nat>, expected': nat, outputs': Grid,
             ghost submitted': set<Cell>, ghost filled': set<Cell>)
    requires Running(x, cap, next, released, submitted, filled, left, expected, inflight, outputs)
    requires Serves(engine, x, submitted - filled, due, others, submitted, base)
    requires o.finished ==> o.id in due && due[o.id] == o.prompt
    requires HasShown(engine, base, o.id) && InFlight(submitted - filled, o.id)
    modifies engine
    ensures Running(x, cap, next, released', submitted', filled', left', expected', inflight', outputs')
    ensures Serves(engine, x, submitted' - filled', DueAfter(due, o), others, submitted', base)
    ensures released' == ReleasedBy(submitted - filled, o, released)
    ensures submitted <= submitted'
    ensures filled' == FilledBy(submitted - filled, o, filled)
    ensures ShownTo(engine, base) == old(ShownTo(engine, base))
    ensures engine.script == old(engine.script)
  {
    inflight', released', submitted' := ReleaseFirst(x, engine, uncached, o.id, inflight, released, left, expected, outputs,
                                                     cap, next, submitted, filled, due, others, base);
    inflight', left', expected', outputs', filled' :=
      SettleHeld(x, engine, o, inflight', released', left, expected, outputs, cap, next, submitted', filled, due, others,
                 base);
  }

  /** Read one output of a batch. */
  method ConsumeOne(x: Extraction, engine: Engine, uncached: bool, o: Output, inflight: map<RequestId, Cell>,
                    released: set<nat>, left: map<nat, nat>, expected: nat, outputs: Grid, ghost cap: nat,
                    ghost next: nat, ghost submitted: set<Cell>, ghost filled: set<Cell>, ghost due: View,
                    ghost others: set<RequestId>, ghost base: Mark)
    returns (inflight': map<RequestId, Cell>, released': set<nat>, left': map<nat, nat>, expected': nat, outputs': Grid,
             ghost submitted': set<Cell>, ghost filled': set<Cell>)
    requires Running(x, cap, next, released, submitted, filled, left, expected, inflight, outputs)
    requires Serves(engine, x, submitted - filled, due, others, submitted, base)
    requires o.finished ==> o.id in due && due[o.id] == o.prompt
    requires HasShown(engine, base, o.id)
    modifies engine
    ensures Running(x, cap, next, released', submitted', filled', left', expected', inflight', outputs')
    ensures Serves(engine, x, submitted' - filled', DueAfter(due, o), others, submitted', base)
    ensures released' == ReleasedBy(submitted - filled, o, released)
    ensures submitted <= submitted'
    ensures filled' == FilledBy(submitted - filled, o, filled)
    ensures ShownTo(engine, base) == old(ShownTo(engine, base))
    ensures engine.script == old(engine.script)
  {
    assert o.id in inflight <==> InFlight(submitted - filled, o.id);
    if o.id !in inflight {
      ServesSkip(engine, x, submitted - filled, due, others, submitted, base, o);
      return inflight, released, left, expected, outputs, submitted, filled;
    }
    inflight', released', left', expected', outputs', submitted', filled' :=
      ConsumeHeld(x, engine, uncached, o, inflight, released, left, expected, outputs, cap, next, submitted, filled, due,
                  others, base);
  }

  /** A document is released, or will be, when its first field has shown an output. */
  ghost predicate Telling(engine: Engine, base: Mark, submitted: set<Cell>, released: set<nat>, rest: seq<Output>)
    reads engine
  {
    TellingOf(ShownTo(engine, base), submitted, released, rest)
  }

  ghost predicate TellingOf(shown: set<RequestId>, submitted: set<Cell>, released: set<nat>, rest: seq<Output>) {
    forall d: nat :: (d, 0) in submitted ==>
      (Numbered(d, 0) in shown <==> d in released || ShowsOne(rest, Numbered(d, 0)))
  }

  lemma TellingNext(x: Extraction, next: nat, shown: set<RequestId>, released: set<nat>, submitted: set<Cell>,
                    filled: set<Cell>, more: set<nat>, added: set<Cell>, batch: seq<Output>, i: nat)
    requires i < |batch| && TellingOf(shown, submitted, released, batch[i..]) && batch[i].id in shown
    requires Staged(x, next, released, submitted, filled)
    requires forall d: nat :: (d, 0) in added <==> (d, 0) in submitted
    requires more == ReleasedBy(submitted - filled, batch[i], released)
    ensures TellingOf(shown, added, more, batch[i + 1..])
  {
    forall id ensures ShowsOne(batch[i..], id) <==> batch[i].id == id || ShowsOne(batch[i + 1..], id) {
      ShowsTail(batch, i, id);
    }
  }

  lemma ShowsTail(batch: seq<Output>, i: nat, id: RequestId)
    requires i < |batch|
    ensures ShowsOne(batch[i..], id) <==> batch[i].id == id || ShowsOne(batch[i + 1..], id)
  {
    if ShowsOne(batch[i + 1..], id) {
      var j :| 0 <= j < |batch| - i - 1 && batch[i + 1..][j].id == id;
      assert batch[i..][j + 1].id == id;
    }
    if ShowsOne(batch[i..], id) && batch[i].id != id {
      var j :| 0 <= j < |batch| - i && batch[i..][j].id == id;
      assert batch[i + 1..][j - 1].id == id;
    }
    assert batch[i..][0] == batch[i];
  }

  /** Read the next output of a batch. */
  method ConsumeNext(x: Extraction, engine: Engine, uncached: bool, batch: seq<Output>, i: nat,
                     inflight: map<RequestId, Cell>, released: set<nat>, left: map<nat, nat>, expected: nat, outputs: Grid,
                     ghost cap: nat, ghost next: nat, ghost submitted: set<Cell>, ghost filled: set<Cell>,
                     ghost view: View, ghost others: set<RequestId>, ghost base: Mark)
    returns (inflight': map<RequestId, Cell>, released': set<nat>, left': map<nat, nat>, expected': nat, outputs': Grid,
             ghost submitted': set<Cell>, ghost filled': set<Cell>)
    requires i < |batch| && Running(x, cap, next, released, submitted, filled, left, expected, inflight, outputs)
    requires Serves(engine, x, submitted - filled, Due(view, batch, i), others, submitted, base) && Legal(view, batch)
    requires HasShown(engine, base, batch[i].id) && Telling(engine, base, submitted, released, batch[i..])
    modifies engine
    ensures Running(x, cap, next, released', submitted', filled', left', expected', inflight', outputs')
    ensures Serves(engine, x, submitted' - filled', Due(view, batch, i + 1), others, submitted', base)
    ensures Telling(engine, base, submitted', released', batch[i + 1..])
    ensures submitted <= submitted'
    ensures filled' == FilledBy(submitted - filled, batch[i], filled)
    ensures ShownTo(engine, base) == old(ShownTo(engine, base))
    ensures engine.script == old(engine.script)
  {
    DueNext(view, batch, i);
    ghost var shown := ShownTo(engine, base);
    inflight', released', left', expected', outputs', submitted', filled' :=
      ConsumeOne(x, engine, uncached, batch[i], inflight, released, left, expected, outputs, cap, next, submitted, filled,
                 Due(view, batch, i), others, base);
    SameFirsts(x, next, released, submitted, filled, released', submitted', filled');
    TellingNext(x, next, shown, released, submitted, filled, released', submitted', batch, i);
  }

  lemma SameFirsts(x: Extraction, next: nat, released: set<nat>, submitted: set<Cell>, filled: set<Cell>,
                   more: set<nat>, added: set<Cell>, done: set<Cell>)
    requires Staged(x, next, released, submitted, filled) && Staged(x, next, more, added, done)
    ensures forall d: nat :: (d, 0) in added <==> (d, 0) in submitted
  {
  }

  /** Read a batch of outputs, in any order the engine chose. */
  method Consume(x: Extraction, engine: Engine, uncached: bool, batch: seq<Output>, inflight: map<RequestId, Cell>,
                 released: set<nat>, left: map<nat, nat>, expected: nat, outputs: Grid, ghost cap: nat, ghost next: nat,
                 ghost submitted: set<Cell>, ghost filled: set<Cell>, ghost view: View, ghost others: set<RequestId>,
                 ghost base: Mark)
    returns (inflight': map<RequestId, Cell>, released': set<nat>, left': map<nat, nat>, expected': nat, outputs': Grid,
             ghost submitted': set<Cell>, ghost filled': set<Cell>)
    requires Running(x, cap, next, released, submitted, filled, left, expected, inflight, outputs)
    requires Serves(engine, x, submitted - filled, Due(view, batch, 0), others, submitted, base) && Legal(view, batch)
    requires forall i :: 0 <= i < |batch| ==> HasShown(engine, base, batch[i].id)
    requires Telling(engine, base, submitted, released, batch)
    modifies engine
    ensures Running(x, cap, next, released', submitted', filled', left', expected', inflight', outputs')
    ensures Serves(engine, x, submitted' - filled', map[], others, submitted', base)
    ensures Told(engine, base, submitted', released')
    ensures submitted <= submitted' && filled <= filled'
    ensures forall o :: o in batch && o.finished && InFlight(submitted - filled, o.id) ==>
              (o.id.document, o.id.part) in filled'
    ensures engine.script == old(engine.script)
  {
    inflight', released', left', expected', outputs' := inflight, released, left, expected, outputs;
    submitted', filled' := submitted, filled;
    for i := 0 to |batch|
      invariant Running(x, cap, next, released', submitted', filled', left', expected', inflight', outputs')
      invariant Serves(engine, x, submitted' - filled', Due(view, batch, i), others, submitted', base)
      invariant submitted <= submitted' && filled <= filled'
      invariant forall j :: 0 <= j < i && batch[j].finished && InFlight(submitted - filled, batch[j].id) ==>
                  (batch[j].id.document, batch[j].id.part) in filled'
      invariant forall j :: 0 <= j < |batch| ==> HasShown(engine, base, batch[j].id)
      invariant Telling(engine, base, submitted', released', batch[i..])
      invariant engine.script == old(engine.script)
    {
      inflight', released', left', expected', outputs', submitted', filled' :=
        ConsumeNext(x, engine, uncached, batch, i, inflight', released', left', expected', outputs', cap, next,
                    submitted', filled', view, others, base);
    }
    assert Due(view, batch, |batch|) == map[];
  }

  lemma StagedAdmit(x: Extraction, next: nat, released: set<nat>, submitted: set<Cell>, filled: set<Cell>)
    requires Staged(x, next, released, submitted, filled) && next < |x.bodies|
    ensures Staged(x, next + 1, released, submitted + {(next, 0)}, filled)
    ensures submitted + {(next, 0)} - filled == submitted - filled + {(next, 0)}
    ensures forall f: nat :: (next, f) !in submitted && (next, f) !in filled
  {
  }

  /** Without outputs to read, the live documents of the log are those that count. */
  lemma LiveLogged(x: Extraction, cap: nat, next: nat, released: set<nat>, submitted: set<Cell>, filled: set<Cell>,
                   left: map<nat, nat>, expected: nat, log: Log)
    requires Staged(x, next, released, submitted, filled) && Counted(x, cap, next, filled, left, expected)
    requires Logged(x, cap, log, submitted - filled, map[], submitted)
    ensures LiveIn(x, log) == Live(left) && |LiveIn(x, log)| == expected
  {
    SentBefore(x, cap, log);
    forall d: nat | d < next ensures d in LiveIn(x, log) <==> left[d] > 0 {
      assert (d, 0) in submitted;
      forall f: nat | f < |x.tails| ensures Numbered(d, f) in DoneIn(log) <==> (d, f) in filled {
        assert (d, f) in filled ==> (d, f) in submitted;
      }
      UnfilledSome(|x.tails|, filled, d);
    }
  }

  lemma UnfilledSome(fields: nat, filled: set<Cell>, d: nat)
    ensures |Unfilled(fields, filled, d)| > 0 <==> exists f: nat :: f < fields && (d, f) !in filled
  {
    if f: nat :| f < fields && (d, f) !in filled {
      assert f in Unfilled(fields, filled, d);
    } else {
      assert Unfilled(fields, filled, d) == {};
    }
  }

  /** After admission the engine may be stepped. */
  lemma StepMayHappen(x: Extraction, cap: nat, next: nat, released: set<nat>, submitted: set<Cell>, filled: set<Cell>,
                      left: map<nat, nat>, expected: nat, log: Log)
    requires Staged(x, next, released, submitted, filled) && Counted(x, cap, next, filled, left, expected)
    requires Logged(x, cap, log, submitted - filled, map[], submitted) && (next == |x.bodies| || expected == cap)
    requires forall d: nat :: (d, 0) in submitted ==> (Numbered(d, 0) in ShownIn(log) <==> d in released)
    ensures AtStep(x, cap, log)
  {
    LiveLogged(x, cap, next, released, submitted, filled, left, expected, log);
    forall d: nat | Numbered(d, 0) in SentIn(log) ensures Whole(x, log, d) {
      assert (d, 0) in submitted;
    }
    forall d: nat | d < next ensures Numbered(d, 0) in SentIn(log) {
      assert (d, 0) in submitted;
    }
  }

  /** Admit one document: its first field goes alone. */
  method Admit(x: Extraction, engine: Engine, uncached: bool, cap: nat, inflight: map<RequestId, Cell>, next: nat,
               left: map<nat, nat>, expected: nat, ghost released: set<nat>, ghost outputs: Grid,
               ghost submitted: set<Cell>, ghost filled: set<Cell>, ghost others: set<RequestId>,
               ghost base: Mark)
    returns (inflight': map<RequestId, Cell>, left': map<nat, nat>, ghost submitted': set<Cell>)
    requires Running(x, cap, next, released, submitted, filled, left, expected, inflight, outputs)
    requires Serves(engine, x, submitted - filled, map[], others, submitted, base)
    requires next < |x.bodies| && expected < cap && base.cap == cap && Told(engine, base, submitted, released)
    modifies engine
    ensures Told(engine, base, submitted', released)
    ensures Running(x, cap, next + 1, released, submitted', filled, left', expected + 1, inflight', outputs)
    ensures Serves(engine, x, submitted' - filled, map[], others, submitted', base)
    ensures engine.script == old(engine.script)
  {
    StagedAdmit(x, next, released, submitted, filled);
    CountAdmit(x, cap, next, filled, left, expected);
    left', submitted' := left[next := |x.tails|], submitted + {(next, 0)};
    LiveLogged(x, cap, next, released, submitted, filled, left, expected, LogOf(engine, base));
    SentBefore(x, cap, LogOf(engine, base));
    assert Numbered(next, 0) !in ShownIn(LogOf(engine, base));
    inflight' := Submit(x, engine, uncached, inflight, next, 0, submitted - filled, map[], others, submitted, base);
  }

  /** Admit documents while the cap allows. */
  method AdmitAll(x: Extraction, engine: Engine, uncached: bool, cap: nat, inflight: map<RequestId, Cell>, nextDocument: nat,
                  left: map<nat, nat>, expected: nat, ghost released: set<nat>, ghost outputs: Grid,
                  ghost submitted: set<Cell>, ghost filled: set<Cell>, ghost others: set<RequestId>,
                  ghost base: Mark)
    returns (inflight': map<RequestId, Cell>, next: nat, left': map<nat, nat>, expected': nat, ghost submitted': set<Cell>)
    requires Running(x, cap, nextDocument, released, submitted, filled, left, expected, inflight, outputs)
    requires Serves(engine, x, submitted - filled, map[], others, submitted, base)
    requires base.cap == cap && Told(engine, base, submitted, released)
    modifies engine
    ensures Running(x, cap, next, released, submitted', filled, left', expected', inflight', outputs)
    ensures Serves(engine, x, submitted' - filled, map[], others, submitted', base)
    ensures Told(engine, base, submitted', released)
    ensures next == |x.bodies| || expected' == cap
    ensures expected' >= expected && (nextDocument < |x.bodies| && cap > 0 ==> expected' > 0)
    ensures engine.script == old(engine.script)
  {
    inflight', next, left', expected', submitted' := inflight, nextDocument, left, expected, submitted;
    while next < |x.bodies| && expected' < cap
      invariant Running(x, cap, next, released, submitted', filled, left', expected', inflight', outputs)
      invariant Serves(engine, x, submitted' - filled, map[], others, submitted', base)
      invariant Told(engine, base, submitted', released)
      invariant expected' >= expected && (next > nextDocument ==> expected' > 0)
      invariant engine.script == old(engine.script)
    {
      inflight', left', submitted' := Admit(x, engine, uncached, cap, inflight', next, left', expected', released, outputs,
                                            submitted', filled, others, base);
      expected', next := expected' + 1, next + 1;
    }
  }

  /** Since the start the engine was sent nothing of the extraction twice, and a later field only
      after the first; and it keeps nothing of the extraction outside `inflight`. */
  ghost predicate Abortable(x: Extraction, engine: Engine, inflight: map<RequestId, Cell>, others: set<RequestId>,
                            base: Mark)
    reads engine
  {
    && engine.View().Keys <= inflight.Keys + others
    && base.events <= |engine.events| && Orderly(x, base.cap, LogOf(engine, base))
    && forall d: nat, f: nat :: engine.sent[Numbered(d, f)] <= base.sent[Numbered(d, f)] + 1
  }

  /** While cells are in flight, a productive turn finishes one. */
  lemma ProductiveFinishes(x: Extraction, open: set<Cell>, view: View, others: set<RequestId>, held: Held, turn: Turn)
    requires Productive(turn, IsNumbered) && view == PromptsOf(held) && Waiting(x, open, view, map[], others)
    requires open != {}
    ensures Emitted(held, turn).Ready? && Finishes(open, Emitted(held, turn).outputs)
  {
    var cell :| cell in open;
    assert Pending(view, map[], Numbered(cell.0, cell.1), x.PromptOf(cell.0, cell.1));
    assert IsNumbered(Numbered(cell.0, cell.1)) && Holding(held, IsNumbered);
    var outputs := Accepted(held, turn.propose(held));
    var i :| 0 <= i < |outputs| && outputs[i].finished && IsNumbered(outputs[i].id);
    assert outputs[i].id == Numbered(outputs[i].id.document, outputs[i].id.part) && outputs[i].id in view;
    assert InFlight(open, outputs[i].id) && outputs[i] in outputs;
  }

  /** Some cell in flight finishes. */
  ghost predicate Finishes(open: set<Cell>, outputs: seq<Output>) {
    exists o :: o in outputs && o.finished && InFlight(open, o.id)
  }

  lemma LoggedStep(x: Extraction, cap: nat, log: Log, open: set<Cell>, submitted: set<Cell>)
    requires Logged(x, cap, log, open, map[], submitted) && AtStep(x, cap, log)
    ensures Logged(x, cap, log + [Stepped], open, map[], submitted) && ShownIn(log + [Stepped]) == ShownIn(log)
  {
    OrderlyNext(x, cap, log, Stepped);
    LogNext(log, Stepped);
  }

  lemma {:induction false} BatchOrderly(x: Extraction, cap: nat, log: Log, outputs: seq<Output>)
    requires Orderly(x, cap, log) && forall o :: o in outputs && o.id.Numbered? ==> o.id in SentIn(log)
    ensures Orderly(x, cap, log + ShownBy(outputs))
  {
    if outputs == [] {
      assert log + ShownBy(outputs) == log;
    } else {
      var (front, last) := (outputs[..|outputs| - 1], outputs[|outputs| - 1]);
      assert outputs == front + [last];
      BatchOrderly(x, cap, log, front);
      BatchLogged(log, front);
      ShownByNext(log, front, last);
      OrderlyNext(x, cap, log + ShownBy(front), ShownAs(last));
    }
  }

  /** The outputs of a batch are shown, and its finished requests are due. */
  lemma LoggedBatch(x: Extraction, cap: nat, log: Log, open: set<Cell>, view: View, others: set<RequestId>,
                    submitted: set<Cell>, outputs: seq<Output>)
    requires Logged(x, cap, log, open, map[], submitted) && open <= submitted
    requires Waiting(x, open, view, map[], others) && Legal(view, outputs)
    ensures Logged(x, cap, log + ShownBy(outputs), open, Due(view, outputs, 0), submitted)
    ensures forall id :: id in ShownIn(log + ShownBy(outputs)) <==> id in ShownIn(log) || ShowsOne(outputs, id)
  {
    forall o | o in outputs && o.id.Numbered? ensures o.id in SentIn(log) {
      assert o.id in view && o.id == Numbered(o.id.document, o.id.part);
    }
    BatchOrderly(x, cap, log, outputs);
    BatchLogged(log, outputs);
    forall id ensures id in ShownIn(log + ShownBy(outputs)) <==> id in ShownIn(log) || ShowsOne(outputs, id) {
      BatchShown(log, outputs, id);
    }
    assert outputs[0..] == outputs;
    forall d: nat, f: nat | (d, f) in submitted
      ensures Numbered(d, f) in FinishedIds(outputs) ==> Numbered(d, f) in Due(view, outputs, 0) && (d, f) in open
    {
      if Numbered(d, f) in FinishedIds(outputs) {
        assert Numbered(d, f) in view;
      }
    }
  }

  /** What a batch leaves waiting, due and logged. */
  lemma StepServes(x: Extraction, open: set<Cell>, view: View, others: set<RequestId>, submitted: set<Cell>, base: Mark,
                   events: seq<EngineEvent>, outputs: seq<Output>)
    requires Waiting(x, open, view, map[], others) && Legal(view, outputs) && open <= submitted
    requires base.events <= |events| && Logged(x, base.cap, Since(events, base.events), open, map[], submitted)
    requires AtStep(x, base.cap, Since(events, base.events))
    ensures var after := Since(events + [Stepped] + ShownBy(outputs), base.events);
      && Logged(x, base.cap, after, open, Due(view, outputs, 0), submitted)
      && forall id :: id in ShownIn(after) <==> id in ShownIn(Since(events, base.events)) || ShowsOne(outputs, id)
    ensures Waiting(x, open, view - FinishedIds(outputs), Due(view, outputs, 0), others)
  {
    var log := Since(events, base.events);
    LoggedStep(x, base.cap, log, open, submitted);
    SinceMore(events, [Stepped], base.events);
    SinceMore(events + [Stepped], ShownBy(outputs), base.events);
    LoggedBatch(x, base.cap, log + [Stepped], open, view, others, submitted, outputs);
    WaitingStep(x, open, view, others, outputs);
  }

  lemma StepRaises(x: Extraction, open: set<Cell>, others: set<RequestId>, submitted: set<Cell>, base: Mark,
                   events: seq<EngineEvent>)
    requires base.events <= |events| && Logged(x, base.cap, Since(events, base.events), open, map[], submitted)
    requires AtStep(x, base.cap, Since(events, base.events))
    ensures Logged(x, base.cap, Since(events + [Stepped], base.events), open, map[], submitted)
  {
    LoggedStep(x, base.cap, Since(events, base.events), open, submitted);
    SinceMore(events, [Stepped], base.events);
  }

  /** One engine step, as the scheduler sees it. */
  method StepOnce(x: Extraction, engine: Engine, ghost open: set<Cell>, ghost others: set<RequestId>,
                  ghost submitted: set<Cell>, ghost base: Mark)
    returns (batch: Batch)
    requires Serves(engine, x, open, map[], others, submitted, base) && AtStep(x, base.cap, LogOf(engine, base))
    modifies engine
    ensures engine.script == if old(engine.script) == [] then [] else old(engine.script)[1..]
    ensures old(engine.script) == [] ==> batch.Raised?
    ensures batch.Raised? ==> Serves(engine, x, open, map[], others, submitted, base)
    ensures batch.Ready? ==> forall id :: HasShown(engine, base, id) <==>
              old(HasShown(engine, base, id)) || ShowsOne(batch.outputs, id)
    ensures batch.Ready? ==> Legal(old(engine.View()), batch.outputs)
    ensures batch.Ready? ==> forall i :: 0 <= i < |batch.outputs| ==> HasShown(engine, base, batch.outputs[i].id)
    ensures batch.Ready? ==> Serves(engine, x, open, Due(old(engine.View()), batch.outputs, 0), others, submitted, base)
    ensures old(NextAnswers(engine)) && open != {} ==> batch.Ready? && Finishes(open, batch.outputs)
  {
    if NextAnswers(engine) && open != {} {
      ProductiveFinishes(x, open, engine.View(), others, engine.outstanding, engine.script[0]);
    }
    batch := engine.Step();
    ghost var view := old(engine.View());
    ghost var events := old(engine.events);
    if batch.Ready? {
      assert engine.View() == view - FinishedIds(batch.outputs);
      StepServes(x, open, view, others, submitted, base, events, batch.outputs);
    } else {
      StepRaises(x, open, others, submitted, base, events);
      assert engine.View() == view && engine.events == events + [Stepped];
    }
  }

  lemma ServesAbortable(engine: Engine, x: Extraction, open: set<Cell>, inflight: map<RequestId, Cell>,
                        others: set<RequestId>, submitted: set<Cell>, base: Mark)
    requires Serves(engine, x, open, map[], others, submitted, base) && Mirrors(inflight, open)
    ensures Abortable(x, engine, inflight, others, base)
  {
  }

  /** While documents have unanswered fields, one of those is in flight. */
  lemma LiveOpen(x: Extraction, cap: nat, next: nat, released: set<nat>, submitted: set<Cell>, filled: set<Cell>,
                 left: map<nat, nat>, expected: nat)
    returns (cell: Cell)
    requires Staged(x, next, released, submitted, filled) && Counted(x, cap, next, filled, left, expected)
    requires expected > 0
    ensures cell in submitted - filled
  {
    var d :| d in Live(left);
    var f :| f in Unfilled(|x.tails|, filled, d);
    cell := if d in released then (d, f) else (d, 0);
  }

  lemma OpenLive(x: Extraction, cap: nat, next: nat, released: set<nat>, submitted: set<Cell>, filled: set<Cell>,
                 left: map<nat, nat>, expected: nat, cell: Cell)
    requires Staged(x, next, released, submitted, filled) && Counted(x, cap, next, filled, left, expected)
    requires cell in submitted - filled
    ensures expected > 0
  {
    assert (cell.0, cell.1) in submitted;
    assert cell.1 in Unfilled(|x.tails|, filled, cell.0);
    assert cell.0 in Live(left);
  }

  /** Once everything is admitted and nothing is in flight, every cell has been submitted and filled. */
  lemma AllFilled(x: Extraction, released: set<nat>, submitted: set<Cell>, filled: set<Cell>)
    requires Staged(x, |x.bodies|, released, submitted, filled) && submitted - filled == {}
    ensures submitted == filled == x.Cells()
  {
    forall d: nat, f: nat ensures (d, f) in filled <==> x.Has(d, f) {
      if x.Has(d, f) {
        assert (d, 0) in submitted;
        assert (d, 0) !in submitted - filled && (d, f) !in submitted - filled;
      }
    }
    assert submitted == filled + (submitted - filled);
    forall cell: Cell ensures cell in filled <==> cell in x.Cells() {
      assert (cell.0, cell.1) in filled <==> x.Has(cell.0, cell.1);
    }
  }

  /** Step the engine and read its outputs. */
  method StepAndConsume(x: Extraction, engine: Engine, uncached: bool, inflight: map<RequestId, Cell>,
                        released: set<nat>, left: map<nat, nat>, expected: nat, outputs: Grid, ghost cap: nat,
                        ghost next: nat, ghost submitted: set<Cell>, ghost filled: set<Cell>,
                        ghost others: set<RequestId>, ghost base: Mark)
    returns (ok: bool, inflight': map<RequestId, Cell>, released': set<nat>, left': map<nat, nat>, expected': nat,
             outputs': Grid, ghost submitted': set<Cell>, ghost filled': set<Cell>)
    requires Running(x, cap, next, released, submitted, filled, left, expected, inflight, outputs)
    requires Serves(engine, x, submitted - filled, map[], others, submitted, base)
    requires base.cap == cap && Told(engine, base, submitted, released) && (next == |x.bodies| || expected == cap)
    modifies engine
    ensures engine.script == if old(engine.script) == [] then [] else old(engine.script)[1..]
    ensures old(engine.script) == [] ==> !ok
    ensures ok ==> Running(x, cap, next, released', submitted', filled', left', expected', inflight', outputs')
    ensures ok ==> Serves(engine, x, submitted' - filled', map[], others, submitted', base) && filled <= filled'
    ensures ok ==> Told(engine, base, submitted', released')
    ensures !ok ==> Abortable(x, engine, inflight', others, base)
    ensures old(NextAnswers(engine)) && submitted - filled != {} ==> ok && filled < filled'
  {
    inflight', released', left', expected', outputs' := inflight, released, left, expected, outputs;
    submitted', filled' := submitted, filled;
    ghost var view, open := engine.View(), submitted - filled;
    StepMayHappen(x, cap, next, released, submitted, filled, left, expected, LogOf(engine, base));
    var batch := StepOnce(x, engine, open, others, submitted, base);
    ok := batch.Ready?;
    if !ok {
      ServesAbortable(engine, x, open, inflight, others, submitted, base);
      return;
    }
    inflight', released', left', expected', outputs', submitted', filled' :=
      Consume(x, engine, uncached, batch.outputs, inflight, released, left, expected, outputs, cap, next, submitted,
              filled, view, others, base);
    if Finishes(open, batch.outputs) {
      OneConsumed(open, batch.outputs, filled');
    }
  }

  lemma OneConsumed(open: set<Cell>, batch: seq<Output>, filled: set<Cell>)
    requires Finishes(open, batch)
    requires forall o :: o in batch && o.finished && InFlight(open, o.id) ==> (o.id.document, o.id.part) in filled
    ensures open * filled != {}
  {
    var o :| o in batch && o.finished && InFlight(open, o.id);
    assert (o.id.document, o.id.part) in open * filled;
  }

  /** The next turn finishes a request of the extraction, if there is one. */
  ghost predicate NextAnswers(engine: Engine)
    reads engine
  {
    engine.script != [] && Productive(engine.script[0], IsNumbered)
  }

  /** One round of the scheduler: admit, step, and read the outputs. */
  method Round(x: Extraction, engine: Engine, uncached: bool, cap: nat, inflight: map<RequestId, Cell>, nextDocument: nat,
               released: set<nat>, left: map<nat, nat>, expected: nat, outputs: Grid, ghost submitted: set<Cell>,
               ghost filled: set<Cell>, ghost others: set<RequestId>, ghost base: Mark)
    returns (ok: bool, inflight': map<RequestId, Cell>, next: nat, released': set<nat>, left': map<nat, nat>,
             expected': nat, outputs': Grid, ghost submitted': set<Cell>, ghost filled': set<Cell>)
    requires Running(x, cap, nextDocument, released, submitted, filled, left, expected, inflight, outputs)
    requires Serves(engine, x, submitted - filled, map[], others, submitted, base)
    requires nextDocument < |x.bodies| || expected > 0
    requires base.cap == cap && Told(engine, base, submitted, released)
    modifies engine
    ensures engine.script == if old(engine.script) == [] then [] else old(engine.script)[1..]
    ensures old(engine.script) == [] ==> !ok
    ensures ok ==> Running(x, cap, next, released', submitted', filled', left', expected', inflight', outputs')
    ensures ok ==> Serves(engine, x, submitted' - filled', map[], others, submitted', base)
    ensures ok ==> filled <= filled' && Told(engine, base, submitted', released')
    ensures !ok ==> Abortable(x, engine, inflight', others, base)
    ensures cap > 0 && old(NextAnswers(engine)) ==> ok && filled < filled'
  {
    inflight', next, left', expected', submitted' :=
      AdmitAll(x, engine, uncached, cap, inflight, nextDocument, left, expected, released, outputs, submitted, filled,
               others, base);
    ghost var cell: Cell := (0, 0);
    if cap > 0 {
      cell := LiveOpen(x, cap, next, released, submitted', filled, left', expected');
    }
    ok, inflight', released', left', expected', outputs', submitted', filled' :=
      StepAndConsume(x, engine, uncached, inflight', released, left', expected', outputs, cap, next, submitted', filled,
                     others, base);
  }

  /** Every turn finishes a request of the extraction, if there is one, and there are enough turns. */
  ghost predicate KeepsAnswering(engine: Engine, turns: nat)
    reads engine
  {
    |engine.script| >= turns && forall turn :: turn in engine.script ==> Productive(turn, IsNumbered)
  }

  lemma FillingShrinks(cells: set<Cell>, filled: set<Cell>, more: set<Cell>)
    requires filled < more <= cells
    ensures |cells - more| < |cells - filled|
  {
    assert more == filled + (more - filled);
    var cell :| cell in more - filled;
    SubsetSize(cells - more, cells - filled - {cell});
  }

  lemma StagedCells(x: Extraction, next: nat, released: set<nat>, submitted: set<Cell>, filled: set<Cell>)
    requires Staged(x, next, released, submitted, filled)
    ensures filled <= x.Cells()
  {
    forall cell | cell in filled ensures cell in x.Cells() {
      assert (cell.0, cell.1) in submitted;
    }
  }

  function EmptyGrid(x: Extraction): Grid {
    seq(|x.tails|, _ => seq(|x.bodies|, _ => None))
  }

  lemma RunningStart(x: Extraction, cap: nat)
    requires |x.tails| > 0
    ensures Running(x, cap, 0, {}, {}, {}, map[], 0, map[], EmptyGrid(x))
  {
    var none: set<Cell> := {};
    assert none - none == none;
    assert Live(map[]) == {};
    assert Holds(x, EmptyGrid(x), none);
  }

  /** The scheduling loop: rounds until every document is done or the engine raises. */
  method RunRounds(x: Extraction, engine: Engine, uncached: bool, cap: nat, ghost others: set<RequestId>)
    returns (ok: bool, inflight: map<RequestId, Cell>, outputs: Grid)
    requires |x.tails| > 0 && (cap > 0 || x.bodies == [])
    requires Waiting(x, {}, engine.View(), map[], others)
    modifies engine
    ensures Abortable(x, engine, inflight, others, Mark(old(engine.sent), |old(engine.events)|, cap))
    ensures ok ==> inflight == map[] && Holds(x, outputs, x.Cells()) && SentOnce(engine.sent, old(engine.sent), x.Cells())
    ensures old(KeepsAnswering(engine, |x.Cells()|)) ==> ok
  {
    ghost var base := Mark(engine.sent, |engine.events|, cap);
    ok, inflight, outputs := true, map[], EmptyGrid(x);
    RunningStart(x, cap);
    var next: nat, released: set<nat>, left: map<nat, nat>, expected: nat := 0, {}, map[], 0;
    ghost var submitted: set<Cell>, filled: set<Cell> := {}, {};
    assert submitted - filled == {} && x.Cells() - filled == x.Cells();
    ghost var live := KeepsAnswering(engine, |x.Cells()|);
    while next < |x.bodies| || inflight != map[]
      invariant ok && Running(x, cap, next, released, submitted, filled, left, expected, inflight, outputs)
      invariant Serves(engine, x, submitted - filled, map[], others, submitted, base)
      invariant Told(engine, base, submitted, released)
      invariant live ==> KeepsAnswering(engine, |x.Cells() - filled|)
      decreases |engine.script|
    {
      MoreToDo(x, cap, next, released, submitted, filled, left, expected, inflight, outputs);
      ghost var before := filled;
      ok, inflight, next, released, left, expected, outputs, submitted, filled :=
        Round(x, engine, uncached, cap, inflight, next, released, left, expected, outputs, submitted, before, others, base);
      if !ok {
        return;
      }
      Progressed(x, next, released, submitted, before, filled);
    }
    ServesAbortable(engine, x, submitted - filled, inflight, others, submitted, base);
    MirrorsEmpty(inflight, submitted - filled);
    AllFilled(x, released, submitted, filled);
  }

  lemma Progressed(x: Extraction, next: nat, released: set<nat>, submitted: set<Cell>, before: set<Cell>, filled: set<Cell>)
    requires Staged(x, next, released, submitted, filled)
    ensures before < filled ==> |x.Cells() - filled| < |x.Cells() - before|
  {
    StagedCells(x, next, released, submitted, filled);
    if before < filled {
      FillingShrinks(x.Cells(), before, filled);
    }
  }

  lemma MirrorsEmpty(inflight: map<RequestId, Cell>, open: set<Cell>)
    requires Mirrors(inflight, open) && inflight == map[]
    ensures open == {}
  {
    forall cell ensures cell !in open {
      assert !InFlight(open, Numbered(cell.0, cell.1));
    }
  }

  /** The loop condition means that some cell is unfilled. */
  lemma MoreToDo(x: Extraction, cap: nat, next: nat, released: set<nat>, submitted: set<Cell>, filled: set<Cell>,
                 left: map<nat, nat>, expected: nat, inflight: map<RequestId, Cell>, outputs: Grid)
    requires Running(x, cap, next, released, submitted, filled, left, expected, inflight, outputs)
    requires next < |x.bodies| || inflight != map[]
    ensures next < |x.bodies| || expected > 0
    ensures |x.Cells() - filled| > 0
  {
    if inflight != map[] {
      var id :| id in inflight;
      OpenLive(x, cap, next, released, submitted, filled, left, expected, (id.document, id.part));
      assert (id.document, id.part) in x.Cells() - filled;
    } else {
      assert (next, 0) in x.Cells() - filled;
    }
  }

  /** `run_extract_fields`: whatever the engine does, a run that returns holds the finished output of
      every cell, made from that cell's own prompt, and sent each cell once; no later field is sent
      before its document's first field has shown an output; a run that ends, normally
      or by an exception, leaves none of its requests in the engine.  An engine that finishes some
      request of the run in each turn makes it return, in no more turns than cells. */
  method RunExtractFields(x: Extraction, engine: Engine, uncached: bool, answerTokens: nat, budget: int, block: nat,
                          maxSeqs: Option<nat>)
    returns (r: Extracted)
    requires |x.tails| > 0 && block >= 1
    requires forall d: nat, f: nat :: Numbered(d, f) !in engine.View()
    modifies engine
    ensures r.Returned? ==> Holds(x, r.outputs, x.Cells()) && SentOnce(engine.sent, old(engine.sent), x.Cells())
    ensures forall d: nat, f: nat :: engine.sent[Numbered(d, f)] <= old(engine.sent)[Numbered(d, f)] + 1
    ensures |old(engine.events)| <= |engine.events|
    ensures Orderly(x, ExtractDocumentCap(x.bodies, x.tails, answerTokens, budget, block, maxSeqs),
                    engine.events[|old(engine.events)|..])
    ensures FirstFieldFirst(engine.events, |old(engine.events)|)
    ensures engine.View().Keys <= old(engine.View()).Keys
    ensures old(KeepsAnswering(engine, |x.Cells()|)) ==> r.Returned?
  {
    var cap := ExtractDocumentCap(x.bodies, x.tails, answerTokens, budget, block, maxSeqs);
    var ok, inflight, outputs := RunRounds(x, engine, uncached, cap, engine.View().Keys);
    OrderlyFirst(x, cap, engine.events, |old(engine.events)|);
    r := if ok then Returned(outputs) else Propagated;
    if inflight != map[] {
      engine.AbortRequest(inflight.Keys);
    }
  }
}
