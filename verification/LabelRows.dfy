/** What the rows of a saved part say (`_answer_row`, as the three writers call it). */
module LabelRows {
  import opened Common
  import opened LabelCompaction
  import opened LabelCompletion
  import opened LabelJudge
  import opened LabelSession
  import opened LabelVolume
  import opened Labeling
  import opened MatchingPairs
  import opened Sorting

  /** A row of a filter's part: row k's id, with an answer the engine gave for row k. */
  ghost predicate SaysRow(engine: FilterEngine, batch: seq<Row>, k: nat, row: LabelRow) {
    && k < |batch| && row.left == batch[k].id && row.right.None? && row.source == MODEL
    && Reports(engine(batch), k, row.answer)
  }

  /** A row of a join's part: the pair's ids, with the source's label and origin where there is one, or else an answer
      the engine gave for this pair. */
  ghost predicate SaysPair(kind: Kind, batch: seq<Row>, p: Pair, row: LabelRow)
    requires kind.Joining?
  {
    && p.0 < |batch| && p.1 < |kind.right|
    && row.left == batch[p.0].id && row.right == Some(kind.right[p.1].id)
    && match kind.source(batch[p.0], kind.right[p.1])
       case Some(known) => row.answer == known.0 && row.source == known.1
       case None =>
         && row.source == MODEL
         && RepliedTo(kind.pairs, batch, kind.right, Replies(kind.join, kind.pairs, batch, kind.right), p, row.answer)
  }

  /** A row of a part labeled by citations. */
  ghost predicate SaysCited(kind: Kind, batch: seq<Row>, p: Pair, row: LabelRow)
    requires kind.Citing?
  {
    && p.0 < |batch| && p.1 < |kind.right|
    && row.left == batch[p.0].id && row.right == Some(kind.right[p.1].id)
    && row.answer == kind.cites(batch[p.0], kind.right[p.1]) && row.source == CITATION
  }

  ghost predicate Says(kind: Kind, batch: seq<Row>, p: Pair, row: LabelRow)
    requires !kind.Filtering?
  {
    if kind.Joining? then SaysPair(kind, batch, p, row) else SaysCited(kind, batch, p, row)
  }

  /** Exactly the pairs that are asked about, each once. */
  ghost predicate AllAsked(kind: Kind, batch: seq<Row>, pairs: seq<Pair>)
    requires !kind.Filtering?
  {
    Distinct(pairs) && forall p: Pair :: p in pairs <==> IsAsked(PairsIn(kind), batch, kind.right, p)
  }

  ghost predicate SayEach(kind: Kind, batch: seq<Row>, pairs: seq<Pair>, rows: seq<LabelRow>)
    requires !kind.Filtering?
  {
    |rows| == |pairs| && forall k :: 0 <= k < |rows| ==> Says(kind, batch, pairs[k], rows[k])
  }

  /** One row for each asked pair, in some order. */
  ghost predicate SayPairs(kind: Kind, batch: seq<Row>, rows: seq<LabelRow>)
    requires !kind.Filtering?
  {
    exists pairs: seq<Pair>, made: seq<LabelRow> ::
      AllAsked(kind, batch, pairs) && SayEach(kind, batch, pairs, made) && multiset(rows) == multiset(made)
  }

  /** What a part's rows are to say. */
  ghost predicate PartSays(spec: Spec, start: nat, end: nat, rows: seq<LabelRow>) {
    && start <= end <= |spec.left|
    && var batch := spec.left[start..end];
      if spec.kind.Filtering? then
        |rows| == end - start && forall k: nat :: k < |rows| ==> SaysRow(spec.kind.filter, batch, k, rows[k])
      else
        SayPairs(spec.kind, batch, rows) && (spec.kind.Joining? ==> SortedBy(rows, ByIds))
  }

  lemma FilterSays(engine: FilterEngine, batch: seq<Row>, k: nat)
    requires Filter(engine, batch).Some? && k < |batch|
    ensures SaysRow(engine, batch, k, FilterRows(batch, Filter(engine, batch).value)[k])
  {
    NotedReported(|batch|, engine(batch), k);
  }

  lemma JoinReplies(kind: Kind, batch: seq<Row>, p: Pair)
    requires kind.Joining? && Join(kind.join, kind.pairs, batch, kind.right).Some?
    ensures var answers := Join(kind.join, kind.pairs, batch, kind.right).value;
      p in answers ==>
        RepliedTo(kind.pairs, batch, kind.right, Replies(kind.join, kind.pairs, batch, kind.right), p, answers[p])
  {
    if KeptLeft(kind.pairs, batch) != [] && KeptRight(kind.pairs, kind.right) != [] {
      RemappedReplies(kind.pairs, batch, kind.right, Replies(kind.join, kind.pairs, batch, kind.right), p);
    }
  }

  lemma PairSays(kind: Kind, batch: seq<Row>, p: Pair)
    requires kind.Joining? && Join(kind.join, kind.pairs, batch, kind.right).Some?
    requires p.0 < |batch| && p.1 < |kind.right|
    ensures var row := PairRow(Join(kind.join, kind.pairs, batch, kind.right).value, kind.source, batch, kind.right, p);
      row.Some? ==> SaysPair(kind, batch, p, row.value)
  {
    JoinReplies(kind, batch, p);
  }

  lemma {:induction false} PairsSay(kind: Kind, batch: seq<Row>, asked: seq<Pair>)
    requires kind.Joining? && Join(kind.join, kind.pairs, batch, kind.right).Some?
    requires InTables(asked, |batch|, |kind.right|)
    ensures var rows := PairRows(Join(kind.join, kind.pairs, batch, kind.right).value, kind.source, batch, kind.right, asked);
      rows.Some? ==> SayEach(kind, batch, asked, rows.value)
  {
    if asked != [] {
      var n := |asked| - 1;
      PairsSay(kind, batch, asked[..n]);
      PairSays(kind, batch, asked[n]);
    }
  }

  lemma AskedAll(kind: Kind, batch: seq<Row>)
    requires !kind.Filtering?
    ensures AllAsked(kind, batch, Asked(PairsIn(kind), batch, kind.right))
  {
    var asked := Asked(PairsIn(kind), batch, kind.right);
    AskedNested(PairsIn(kind), batch, kind.right);
    forall j, k | 0 <= j < k < |asked| ensures asked[j] != asked[k] {
      assert PairBefore(asked[j], asked[k]);
    }
    forall p: Pair ensures p in asked <==> IsAsked(PairsIn(kind), batch, kind.right, p) {
      AskedMembers(PairsIn(kind), batch, kind.right, p);
    }
  }

  lemma JoinSays(kind: Kind, batch: seq<Row>)
    requires kind.Joining? && JoinRows(kind, batch).Some?
    ensures SayPairs(kind, batch, JoinRows(kind, batch).value) && SortedBy(JoinRows(kind, batch).value, ByIds)
  {
    var asked := Asked(kind.pairs, batch, kind.right);
    AskedWithin(kind.pairs, batch, kind.right);
    AskedAll(kind, batch);
    PairsSay(kind, batch, asked);
    var made := PairRows(Join(kind.join, kind.pairs, batch, kind.right).value, kind.source, batch, kind.right, asked).value;
    assert AllAsked(kind, batch, asked) && SayEach(kind, batch, asked, made);
    assert multiset(JoinRows(kind, batch).value) == multiset(made);
  }

  /** The pairs beside one more left row. */
  lemma AskedBeside(batch: seq<Row>, right: seq<Row>)
    requires batch != []
    ensures var n := |batch| - 1;
      var (all, front) := (Asked(None, batch, right), Asked(None, batch[..n], right));
      |all| == |front| + |right| && (forall k :: 0 <= k < |front| ==> all[k] == front[k])
      && forall k :: |front| <= k < |all| ==> all[k] == (n, k - |front|)
  {
  }

  lemma {:induction false} CitedSays(kind: Kind, batch: seq<Row>)
    requires kind.Citing?
    ensures SayEach(kind, batch, Asked(None, batch, kind.right), CitedRows(batch, kind.right, kind.cites))
  {
    if batch != [] {
      var n := |batch| - 1;
      CitedSays(kind, batch[..n]);
      AskedBeside(batch, kind.right);
      CitedMore(kind, batch, Asked(None, batch[..n], kind.right), CitedRows(batch[..n], kind.right, kind.cites),
                Asked(None, batch, kind.right), CitedBeside(batch[n], kind.right, kind.cites));
    }
  }

  lemma CitedMore(kind: Kind, batch: seq<Row>, pairs: seq<Pair>, rows: seq<LabelRow>, all: seq<Pair>, more: seq<LabelRow>)
    requires kind.Citing? && batch != [] && SayEach(kind, batch[..|batch| - 1], pairs, rows)
    requires more == CitedBeside(batch[|batch| - 1], kind.right, kind.cites) && |all| == |pairs| + |more|
    requires forall k :: 0 <= k < |pairs| ==> all[k] == pairs[k]
    requires forall k :: |pairs| <= k < |all| ==> all[k] == (|batch| - 1, k - |pairs|)
    ensures SayEach(kind, batch, all, rows + more)
  {
    forall k | 0 <= k < |all| ensures Says(kind, batch, all[k], (rows + more)[k]) {
      if k < |pairs| {
        assert Says(kind, batch[..|batch| - 1], pairs[k], rows[k]);
      }
    }
  }

  /** The rows made for a part say what they are to say. */
  lemma BatchSays(spec: Spec, start: nat, end: nat)
    requires start <= end <= |spec.left| && BatchRows(spec, start, end).Some?
    ensures PartSays(spec, start, end, BatchRows(spec, start, end).value)
  {
    var (batch, rows) := (spec.left[start..end], BatchRows(spec, start, end).value);
    if spec.kind.Filtering? {
      forall k: nat | k < |rows| ensures SaysRow(spec.kind.filter, batch, k, rows[k]) {
        FilterSays(spec.kind.filter, batch, k);
      }
    } else if spec.kind.Joining? {
      JoinSays(spec.kind, batch);
    } else {
      CitedSays(spec.kind, batch);
      AskedAll(spec.kind, batch);
      assert multiset(rows) == multiset(CitedRows(batch, spec.kind.right, spec.kind.cites));
    }
  }

  /** The file is a part of one of these predicates, and says what it is to say. */
  ghost predicate FileSays(specs: seq<Spec>, path: Path, file: File) {
    path.PartPath? && file.Rows? && exists k: nat :: SpecSays(specs, k, path, file.rows)
  }

  ghost predicate SpecSays(specs: seq<Spec>, k: nat, path: Path, rows: seq<LabelRow>)
    requires path.PartPath?
  {
    k < |specs| && specs[k].labels == path.labels && PartSays(specs[k], path.start, path.end, rows)
  }

  /** Every part that was not there before is one of these predicates', and says what it is to say. */
  ghost predicate NewPartsSay(specs: seq<Spec>, before: Files, after: Files) {
    forall path :: path in after && path.PartPath? && path !in before ==> FileSays(specs, path, after[path])
  }

  lemma NewPartSays(specs: seq<Spec>, before: Files, steps: seq<Step>, path: Path)
    requires (forall k :: 0 <= k < |specs| ==> PlanOf(specs[k]).step >= 1) && AllStepwise(Plans(specs), steps)
    requires path in Run(before, steps) && path.PartPath? && path !in before
    ensures FileSays(specs, path, Run(before, steps)[path])
  {
    var i := PartFrom(before, steps, path);
    var k :| 0 <= k < |specs| && CalledFor(Plans(specs)[k], steps[i]);
    assert steps[i] == LabelStep(PlanOf(specs[k]), (path.start, path.end));
    BatchSays(specs[k], path.start, path.end);
    assert SpecSays(specs, k, path, steps[i].rows.value);
  }

  /** So it is with every part the first steps of a session wrote. */
  lemma StepsSay(specs: seq<Spec>, before: Files, steps: seq<Step>, n: nat)
    requires (forall k :: 0 <= k < |specs| ==> PlanOf(specs[k]).step >= 1) && AllStepwise(Plans(specs), steps)
    requires n <= |steps|
    ensures NewPartsSay(specs, before, Run(before, steps[..n]))
  {
    var after := Run(before, steps[..n]);
    forall path | path in after && path.PartPath? && path !in before ensures FileSays(specs, path, after[path]) {
      NewPartSays(specs, before, steps[..n], path);
    }
  }

  /** The labels a judge that answers every batch gives say, part by part, what they are to say. */
  lemma PartsSay(spec: Spec, k: nat)
    requires ReadyPlan(PlanOf(spec)) && k < |PartBounds(PlanOf(spec))|
    ensures var bound := PartBounds(PlanOf(spec))[k];
      && PlanOf(spec).rows(bound.0, bound.1).Some?
      && PartSays(spec, bound.0, bound.1, PlanOf(spec).rows(bound.0, bound.1).value)
  {
    var bound := PartBounds(PlanOf(spec))[k];
    BatchSays(spec, bound.0, bound.1);
  }
}
