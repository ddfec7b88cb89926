/** A field extraction as its engine sees it: what is queued, stepped and shown, and in which order. */
module ExtractLog {
  import opened Prompts
  import opened Requests
  import opened EngineLog
  import opened DocumentCaps
  import opened Common

  datatype Extraction = Extraction(bodies: seq<Prompt>, tails: seq<Prompt>) {
    predicate Has(document: nat, field: nat) {
      document < |bodies| && field < |tails|
    }

    function PromptOf(document: nat, field: nat): Prompt
      requires Has(document, field)
    {
      bodies[document] + tails[field]
    }

    function Cells(): (r: set<Cell>)
      ensures forall d: nat, f: nat :: (d, f) in r <==> Has(d, f)
    {
      set d: nat, f: nat | d < |bodies| && f < |tails| :: (d, f)
    }
  }

  /** The extraction's requests in flight. */
  function FlyingIn(log: Log): set<RequestId> {
    set id | id in SentIn(log) && id.Numbered? && id !in DoneIn(log)
  }

  /** Some field of the document has not finished. */
  ghost predicate Open(x: Extraction, log: Log, d: nat) {
    exists f: nat :: f < |x.tails| && Numbered(d, f) !in DoneIn(log)
  }

  /** The documents that are admitted and not done. */
  ghost function LiveIn(x: Extraction, log: Log): set<nat> {
    set d: nat | d < |x.bodies| && Numbered(d, 0) in SentIn(log) && Open(x, log, d)
  }

  /** The document's first field is alone until it shows an output, and then all its fields are sent. */
  ghost predicate Whole(x: Extraction, log: Log, d: nat) {
    forall f: nat :: Numbered(d, f) in SentIn(log)
      <==> f == 0 || (f < |x.tails| && Numbered(d, 0) in ShownIn(log))
  }

  /** When the engine is stepped, admitted documents are whole, and as many are live as may be. */
  ghost predicate AtStep(x: Extraction, cap: nat, log: Log) {
    && (forall d: nat :: Numbered(d, 0) in SentIn(log) ==> Whole(x, log, d))
    && (|LiveIn(x, log)| == cap || forall d: nat :: d < |x.bodies| ==> Numbered(d, 0) in SentIn(log))
  }

  /** Documents are admitted in order, while fewer than the cap are live; a later field is sent only after
      its document's first field has shown an output; nothing is sent twice. */
  ghost predicate MayQueue(x: Extraction, cap: nat, log: Log, d: nat, f: nat) {
    && x.Has(d, f) && Numbered(d, f) !in SentIn(log)
    && (f == 0 ==> |LiveIn(x, log)| < cap && forall e: nat :: e < d ==> Numbered(e, 0) in SentIn(log))
    && (f > 0 ==> Numbered(d, 0) in ShownIn(log))
  }

  ghost predicate MayHappen(x: Extraction, cap: nat, log: Log, e: EngineEvent) {
    match e
    case Queued(id) => id.Numbered? ==> MayQueue(x, cap, log, id.document, id.part)
    case Shown(id, _, _) => id.Numbered? ==> id in SentIn(log)
    case Stepped => AtStep(x, cap, log)
  }

  /** Every event is one that may happen then. */
  ghost predicate Orderly(x: Extraction, cap: nat, log: Log) {
    log != [] ==>
      Orderly(x, cap, log[..|log| - 1]) && MayHappen(x, cap, log[..|log| - 1], log[|log| - 1])
  }

  lemma OrderlyNext(x: Extraction, cap: nat, log: Log, e: EngineEvent)
    requires Orderly(x, cap, log) && MayHappen(x, cap, log, e)
    ensures Orderly(x, cap, log + [e])
  {
    assert (log + [e])[..|log|] == log;
  }

  lemma {:induction false} OrderlyPrefix(x: Extraction, cap: nat, log: Log, k: nat)
    requires Orderly(x, cap, log) && k <= |log|
    ensures Orderly(x, cap, log[..k])
    ensures k < |log| ==> MayHappen(x, cap, log[..k], log[k])
    decreases |log|
  {
    if k == |log| {
      assert log[..k] == log;
    } else if k < |log| - 1 {
      OrderlyPrefix(x, cap, log[..|log| - 1], k);
      assert log[..|log| - 1][..k] == log[..k];
    }
  }

  /** What is shown was sent, and a later field after its document's first. */
  lemma {:induction false} SentBefore(x: Extraction, cap: nat, log: Log)
    requires Orderly(x, cap, log)
    ensures forall id :: id in ShownIn(log) && id.Numbered? ==> id in SentIn(log)
    ensures forall d: nat, f: nat :: Numbered(d, f) in SentIn(log) ==> x.Has(d, f) && Numbered(d, 0) in SentIn(log)
  {
    if log != [] {
      var n := |log| - 1;
      SentBefore(x, cap, log[..n]);
      forall d: nat, f: nat | Numbered(d, f) in SentIn(log) ensures x.Has(d, f) && Numbered(d, 0) in SentIn(log) {
        if Numbered(d, f) !in SentIn(log[..n]) {
          assert log[n].id == Numbered(d, f);
        }
      }
    }
  }

  lemma LiveGrows(x: Extraction, before: Log, after: Log, e: EngineEvent)
    requires LiveIn(x, after) <=
      LiveIn(x, before) + if e.Queued? && e.id.Numbered? && e.id.part == 0 then {e.id.document} else {}
    ensures |LiveIn(x, after)| <=
      |LiveIn(x, before)| + if e.Queued? && e.id.Numbered? && e.id.part == 0 then 1 else 0
  {
    if e.Queued? && e.id.Numbered? && e.id.part == 0 {
      SubsetSize(LiveIn(x, after), LiveIn(x, before) + {e.id.document});
    } else {
      SubsetSize(LiveIn(x, after), LiveIn(x, before));
    }
  }

  /** Only sending a first field makes a document live. */
  lemma LiveNext(x: Extraction, log: Log, e: EngineEvent)
    ensures LiveIn(x, log + [e]) <=
      LiveIn(x, log) + if e.Queued? && e.id.Numbered? && e.id.part == 0 then {e.id.document} else {}
  {
    LogNext(log, e);
    forall d | d in LiveIn(x, log + [e]) && Numbered(d, 0) in SentIn(log) ensures d in LiveIn(x, log) {
      var f: nat :| f < |x.tails| && Numbered(d, f) !in DoneIn(log + [e]);
      assert Numbered(d, f) !in DoneIn(log);
    }
  }

  lemma LiveAfter(x: Extraction, cap: nat, log: Log, e: EngineEvent)
    requires |LiveIn(x, log)| <= cap && MayHappen(x, cap, log, e)
    ensures |LiveIn(x, log + [e])| <= cap
  {
    LiveNext(x, log, e);
    LiveGrows(x, log, log + [e], e);
  }

  /** In every state of the run at most `cap` documents are live. */
  lemma {:induction false} LiveBounded(x: Extraction, cap: nat, log: Log)
    requires Orderly(x, cap, log)
    ensures |LiveIn(x, log)| <= cap
  {
    if log == [] {
      assert LiveIn(x, log) == {};
    } else {
      var (front, e) := (log[..|log| - 1], log[|log| - 1]);
      LiveBounded(x, cap, front);
      LiveAfter(x, cap, front, e);
      assert log == front + [e];
    }
  }

  /** In every state of the run no more requests are in flight than `max_num_seqs`, when that is at least
      the number of fields. */
  lemma SequencesBounded(x: Extraction, answerTokens: nat, budget: int, block: nat, maxSeqs: nat, log: Log, k: nat)
    requires block >= 1 && x.tails != [] && maxSeqs >= |x.tails| && k <= |log|
    requires Orderly(x, ExtractDocumentCap(x.bodies, x.tails, answerTokens, budget, block, Some(maxSeqs)), log)
    ensures |FlyingIn(log[..k])| <= maxSeqs
  {
    var (cap, now) := (ExtractDocumentCap(x.bodies, x.tails, answerTokens, budget, block, Some(maxSeqs)), log[..k]);
    OrderlyPrefix(x, cap, log, k);
    LiveBounded(x, cap, now);
    SentBefore(x, cap, now);
    forall id | id in FlyingIn(now) ensures id.Numbered? && id.document in LiveIn(x, now) && id.part < |x.tails| {
      assert id == Numbered(id.document, id.part);
    }
    AtMostProduct(FlyingIn(now), LiveIn(x, now), |x.tails|);
    TimesLe(|LiveIn(x, now)|, cap, |x.tails|);
    if x.bodies == [] {
      assert LiveIn(x, now) == {};
    }
  }

  /** In every state of the run, documents of one size that are live together fit the budget, or there is only one. */
  lemma LiveFits(x: Extraction, answerTokens: nat, budget: int, block: nat, maxSeqs: Option<nat>, size: nat, log: Log, k: nat)
    requires block >= 1 && x.tails != [] && k <= |log|
    requires Orderly(x, ExtractDocumentCap(x.bodies, x.tails, answerTokens, budget, block, maxSeqs), log)
    requires forall i :: 0 <= i < |x.bodies| ==> ExtractSizes(x.bodies, x.tails, answerTokens, block)[i] == size
    ensures |LiveIn(x, log[..k])| * size <= Max(budget, size)
  {
    var cap := ExtractDocumentCap(x.bodies, x.tails, answerTokens, budget, block, maxSeqs);
    OrderlyPrefix(x, cap, log, k);
    LiveBounded(x, cap, log[..k]);
    LiveExtractionsFit(x.bodies, x.tails, answerTokens, budget, block, maxSeqs, size, |LiveIn(x, log[..k])|);
  }

  lemma TimesLe(a: nat, b: nat, n: nat)
    requires a <= b
    ensures a * n <= b * n
  {
  }

  lemma {:induction false} AtMostProduct(ids: set<RequestId>, documents: set<nat>, fields: nat)
    requires forall id :: id in ids ==> id.Numbered? && id.document in documents && id.part < fields
    ensures |ids| <= |documents| * fields
    decreases documents
  {
    if documents == {} {
      assert ids == {};
    } else {
      var d := AnyMember(documents);
      var row := set id | id in ids && id.document == d;
      RowAtMost(row, d, fields);
      AtMostProduct(ids - row, documents - {d}, fields);
      assert ids == (ids - row) + row;
      OneMoreRow(|documents - {d}|, fields);
    }
  }

  lemma OneMoreRow(rows: nat, fields: nat)
    ensures (rows + 1) * fields == rows * fields + fields
  {
  }

  lemma {:induction false} RowAtMost(row: set<RequestId>, d: nat, fields: nat)
    requires forall id :: id in row ==> id.Numbered? && id.document == d && id.part < fields
    ensures |row| <= fields
  {
    if fields == 0 {
      assert row == {};
    } else {
      RowAtMost(row - {Numbered(d, fields - 1)}, d, fields - 1);
      SubsetSize(row, (row - {Numbered(d, fields - 1)}) + {Numbered(d, fields - 1)});
    }
  }

  /** Whenever the engine is stepped, an admitted document has only its first field in flight, until that
      shows an output, and exactly its unfinished fields from then on. */
  lemma FieldsInFlight(x: Extraction, cap: nat, log: Log, k: nat, d: nat)
    requires Orderly(x, cap, log) && k < |log| && log[k].Stepped? && Numbered(d, 0) in SentIn(log[..k])
    ensures Numbered(d, 0) !in ShownIn(log[..k]) ==>
      forall f: nat :: Numbered(d, f) in FlyingIn(log[..k]) <==> f == 0
    ensures Numbered(d, 0) in ShownIn(log[..k]) ==>
      forall f: nat :: Numbered(d, f) in FlyingIn(log[..k]) <==> f < |x.tails| && Numbered(d, f) !in DoneIn(log[..k])
  {
    var now := log[..k];
    OrderlyPrefix(x, cap, log, k);
    assert Whole(x, now, d);
    SentBefore(x, cap, now);
  }
}
