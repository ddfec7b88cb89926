/** Which parts a workload's label sets have, and what a labeling session does (`bench/labeling.py`). */
module Labeling {
  import opened Common
  import opened LabelCompletion
  import opened LabelJudge
  import opened LabelSession
  import opened LabelVolume
  import opened MatchingPairs
  import opened Sorting

  const MODEL := 0

  const CITATION := 1

  type SourceLabel = (Row, Row) -> Option<(bool, int)>

  datatype Kind =
    | Filtering(filter: FilterEngine)
    | Joining(join: JoinEngine, pairs: Option<PairSpec>, right: seq<Row>, source: SourceLabel)
    | Citing(right: seq<Row>, cites: (Row, Row) -> bool)

  /** `rows_per_call`: as many rows as a call has prompts for, but at least one. */
  function RowsPerCall(promptsPerRow: nat, promptsPerCall: nat): (r: nat)
    requires promptsPerRow >= 1
    ensures r >= 1 && (r == 1 || r * promptsPerRow <= promptsPerCall)
    ensures (r + 1) * promptsPerRow > promptsPerCall
  {
    var r := promptsPerCall / promptsPerRow;
    Quotient(promptsPerCall, promptsPerRow, r);
    Quotient(promptsPerCall, promptsPerRow, r + 1);
    assert r < 1 ==> (1 + 1) * promptsPerRow > (r + 1) * promptsPerRow;
    Max(1, r)
  }

  /** `_join_step`; a label set without its own pair count divides by the right table's size. */
  function JoinStep(pairs: Option<PairSpec>, promptsPerCall: nat, pairsPerCall: Option<nat>, right: nat)
      : (r: Raising<nat>)
    ensures r.Some? ==> r.value >= 1
    ensures r.None? <==> pairs.None? && pairsPerCall.None? && right == 0
  {
    if pairs.Some? then
      Some(RowsPerCall(1, promptsPerCall))
    else if pairsPerCall.Some? then
      Some(RowsPerCall(Max(1, right), pairsPerCall.value))
    else if right == 0 then
      None
    else
      Some(RowsPerCall(right, promptsPerCall))
  }

  /** What part sizes come from: the recorded settings, and how many other filters read the same column. */
  datatype Sizes = Sizes(promptsPerCall: nat, pairsPerCall: Option<nat>, others: nat)

  /** A predicate, its label set and the rows it reads. */
  datatype Spec = Spec(labels: nat, kind: Kind, left: seq<Row>, sizes: Sizes) {
    /** How many left rows a part takes. */
    function Step(): (r: Raising<nat>)
      ensures r.Some? ==> r.value >= 1
    {
      match kind
      case Filtering(_) => Some(RowsPerCall(sizes.others + 1, sizes.promptsPerCall))
      case Joining(_, pairs, right, _) => JoinStep(pairs, sizes.promptsPerCall, sizes.pairsPerCall, |right|)
      case Citing(_, _) => Some(50)
    }
  }

  /** `_answer_row` for one asked pair: the source's label if it has one, else the judge's answer. */
  function PairRow(answers: map<Pair, bool>, source: SourceLabel, batch: seq<Row>, right: seq<Row>, p: Pair)
      : (r: Raising<LabelRow>)
    requires p.0 < |batch| && p.1 < |right|
  {
    var known := source(batch[p.0], right[p.1]);
    if known.Some? then
      Some(LabelRow(batch[p.0].id, Some(right[p.1].id), known.value.0, known.value.1))
    else if p in answers then
      Some(LabelRow(batch[p.0].id, Some(right[p.1].id), answers[p], MODEL))
    else
      None
  }

  ghost predicate InTables(asked: seq<Pair>, left: nat, right: nat) {
    forall k :: 0 <= k < |asked| ==> asked[k].0 < left && asked[k].1 < right
  }

  function PairRows(answers: map<Pair, bool>, source: SourceLabel, batch: seq<Row>, right: seq<Row>, asked: seq<Pair>)
      : (r: Raising<seq<LabelRow>>)
    requires InTables(asked, |batch|, |right|)
    ensures r.Some? ==> |r.value| == |asked|
  {
    if asked == [] then
      Some([])
    else
      var n := |asked| - 1;
      var (front, last) := (PairRows(answers, source, batch, right, asked[..n]),
                            PairRow(answers, source, batch, right, asked[n]));
      if front.Some? && last.Some? then Some(front.value + [last.value]) else None
  }

  function ByIds(row: LabelRow): SortKey {
    (row.left, if row.right.Some? then row.right.value else 0)
  }

  lemma AskedWithin(spec: Option<PairSpec>, left: seq<Row>, right: seq<Row>)
    ensures InTables(Asked(spec, left, right), |left|, |right|)
  {
    var asked := Asked(spec, left, right);
    forall k | 0 <= k < |asked| ensures asked[k].0 < |left| && asked[k].1 < |right| {
      AskedMembers(spec, left, right, asked[k]);
    }
  }

  function FilterRows(batch: seq<Row>, answers: seq<bool>): (r: seq<LabelRow>)
    requires |answers| == |batch|
    ensures |r| == |batch|
  {
    seq(|batch|, k requires 0 <= k < |batch| => LabelRow(batch[k].id, None, answers[k], MODEL))
  }

  function JoinRows(kind: Kind, batch: seq<Row>): (r: Raising<seq<LabelRow>>)
    requires kind.Joining?
  {
    AskedWithin(kind.pairs, batch, kind.right);
    var answers := Join(kind.join, kind.pairs, batch, kind.right);
    if answers.None? then
      None
    else
      var rows := PairRows(answers.value, kind.source, batch, kind.right, Asked(kind.pairs, batch, kind.right));
      if rows.None? then None else Some(SortBy(rows.value, ByIds))
  }

  /** `_write_lepard_source`: every pair of a batch, labeled by whether the right row cites the left one's passages. */
  function CitedRows(batch: seq<Row>, right: seq<Row>, cites: (Row, Row) -> bool): seq<LabelRow> {
    if batch == [] then
      []
    else
      var n := |batch| - 1;
      CitedRows(batch[..n], right, cites) + CitedBeside(batch[n], right, cites)
  }

  function CitedBeside(row: Row, right: seq<Row>, cites: (Row, Row) -> bool): (r: seq<LabelRow>)
    ensures |r| == |right|
  {
    seq(|right|, j requires 0 <= j < |right| =>
      LabelRow(row.id, Some(right[j].id), cites(row, right[j]), CITATION))
  }

  lemma {:induction false} CitedCount(batch: seq<Row>, right: seq<Row>, cites: (Row, Row) -> bool)
    ensures |CitedRows(batch, right, cites)| == |batch| * |right|
  {
    if batch != [] {
      CitedCount(batch[..|batch| - 1], right, cites);
      OneRowMore(|batch| - 1, |right|);
    }
  }

  lemma OneRowMore(rows: nat, width: nat)
    ensures (rows + 1) * width == rows * width + width
  {
  }

  /** The rows of one part. */
  function BatchRows(spec: Spec, start: nat, end: nat): (r: Raising<seq<LabelRow>>)
    requires start <= end <= |spec.left|
  {
    var batch := spec.left[start..end];
    if spec.kind.Filtering? then
      var answers := Filter(spec.kind.filter, batch);
      if answers.None? then None else Some(FilterRows(batch, answers.value))
    else if spec.kind.Citing? then
      Some(CitedRows(batch, spec.kind.right, spec.kind.cites))
    else
      JoinRows(spec.kind, batch)
  }

  /** The pairs of columns a predicate's pairs have to agree on. */
  function PairsIn(kind: Kind): Option<PairSpec> {
    if kind.Joining? then kind.pairs else None
  }

  function BatchCount(spec: Spec, start: nat, end: nat): nat
    requires start <= end <= |spec.left|
  {
    if spec.kind.Filtering? then end - start else |Asked(PairsIn(spec.kind), spec.left[start..end], spec.kind.right)|
  }

  /** `_expected_rows` */
  function ExpectedRows(spec: Spec): nat {
    match spec.kind
    case Filtering(_) => |spec.left|
    case Joining(_, pairs, right, _) => ExpectedPairs(pairs, spec.left, right)
    case Citing(right, _) => |spec.left| * |right|
  }

  lemma BatchCounts(spec: Spec, start: nat, middle: nat, end: nat)
    requires start <= middle <= end <= |spec.left|
    ensures BatchCount(spec, start, end) == BatchCount(spec, start, middle) + BatchCount(spec, middle, end)
  {
    if !spec.kind.Filtering? {
      assert spec.left[start..end] == spec.left[start..middle] + spec.left[middle..end];
      AskedAppend(PairsIn(spec.kind), spec.left[start..middle], spec.left[middle..end], spec.kind.right);
    }
  }

  lemma WholeCount(spec: Spec)
    ensures BatchCount(spec, 0, |spec.left|) == ExpectedRows(spec)
  {
    assert spec.left[0..|spec.left|] == spec.left;
    if !spec.kind.Filtering? {
      if PairsIn(spec.kind).Some? {
        MatchingAsked(spec.kind.pairs.value, spec.left, spec.kind.right);
      } else {
        AskedCount(spec.left, spec.kind.right);
      }
    }
  }

  function RowsBy(spec: Spec): (nat, nat) -> Option<seq<LabelRow>> {
    (start: nat, end: nat) => if start <= end <= |spec.left| then BatchRows(spec, start, end) else None
  }

  /** A plan with parts of size zero is one whose writer raises. */
  function PlanOf(spec: Spec): Plan {
    Plan(spec.labels, |spec.left|, if spec.Step().Some? then spec.Step().value else 0, RowsBy(spec), ExpectedRows(spec))
  }

  /** A predicate can be split into parts unless it is a join over an empty right table, without pair columns and
      without its own pair count; a part takes one left row, or no more than a call has room for. */
  lemma SplitIff(spec: Spec)
    ensures PlanOf(spec).step == 0 <==>
      spec.kind.Joining? && spec.kind.pairs.None? && spec.sizes.pairsPerCall.None? && spec.kind.right == []
    ensures PlanOf(spec).step > 1 && spec.kind.Filtering? ==>
      PlanOf(spec).step * (spec.sizes.others + 1) <= spec.sizes.promptsPerCall
    ensures PlanOf(spec).step > 1 && spec.kind.Joining? && spec.kind.pairs.None? ==>
      PlanOf(spec).step * |spec.kind.right|
        <= if spec.sizes.pairsPerCall.Some? then spec.sizes.pairsPerCall.value else spec.sizes.promptsPerCall
    ensures PlanOf(spec).step > 1 && spec.kind.Joining? && spec.kind.pairs.Some? ==>
      PlanOf(spec).step <= spec.sizes.promptsPerCall
  {
  }

  lemma RangeCount(spec: Spec, bound: Bound)
    requires bound.0 <= bound.1 <= |spec.left| && PlanOf(spec).rows(bound.0, bound.1).Some?
    ensures |PlanOf(spec).rows(bound.0, bound.1).value| == BatchCount(spec, bound.0, bound.1)
  {
    if spec.kind.Citing? {
      CitedCount(spec.left[bound.0..bound.1], spec.kind.right, spec.kind.cites);
      AskedCount(spec.left[bound.0..bound.1], spec.kind.right);
    }
  }

  lemma {:induction false} PrefixCount(spec: Spec, plan: Plan, bounds: seq<Bound>, n: nat)
    requires plan == PlanOf(spec) && Ready(plan, bounds) && Tiles(bounds, 0, |spec.left|) && n <= |bounds|
    ensures |RowsOf(plan, bounds[..n])| == BatchCount(spec, 0, if n == 0 then 0 else bounds[n - 1].1)
  {
    if n > 0 {
      PrefixCount(spec, plan, bounds, n - 1);
      assert bounds[..n][..n - 1] == bounds[..n - 1];
      RangeCount(spec, bounds[n - 1]);
      BatchCounts(spec, 0, bounds[n - 1].0, bounds[n - 1].1);
    }
  }

  /** The saved rows are as many as `_expected_rows` says. */
  lemma SpecCounted(spec: Spec)
    requires ReadyPlan(PlanOf(spec))
    ensures Counted(PlanOf(spec))
  {
    var bounds := PartBounds(PlanOf(spec));
    BoundsTile(0, |spec.left|, PlanOf(spec).step);
    PrefixCount(spec, PlanOf(spec), bounds, |bounds|);
    assert bounds[..|bounds|] == bounds;
    WholeCount(spec);
  }

  function Plans(specs: seq<Spec>): (r: seq<Plan>)
    ensures |r| == |specs| && forall k :: 0 <= k < |r| ==> r[k] == PlanOf(specs[k])
  {
    seq(|specs|, k requires 0 <= k < |specs| => PlanOf(specs[k]))
  }

  /** A volume with no files of these label sets. */
  ghost predicate Fresh(plans: seq<Plan>, files: Files) {
    forall path, k :: path in files && 0 <= k < |plans| ==> path.labels != plans[k].labels
  }

  lemma FreshSound(specs: seq<Spec>, files: Files)
    requires Fresh(Plans(specs), files) && forall k :: 0 <= k < |specs| ==> ReadyPlan(PlanOf(specs[k]))
    ensures AllReady(Plans(specs)) && AllSound(Plans(specs), files)
  {
    forall k | 0 <= k < |specs| ensures Counted(Plans(specs)[k]) && Sound(Plans(specs)[k], files) {
      SpecCounted(specs[k]);
    }
  }

  /** Labeling that died any number of times, anywhere, over a judge that answers every batch: the next session
      that runs through leaves the files of a session that never died, and every label set complete, its
      compacted file holding one row for each row or pair the predicate labels. */
  lemma ResumedComplete(specs: seq<Spec>, groups: seq<seq<Plan>>, files: Files, lives: seq<nat>)
    requires Workload(Plans(specs), groups) && Fresh(Plans(specs), files)
    requires forall k :: 0 <= k < |specs| ==> ReadyPlan(PlanOf(specs[k]))
    requires forall k :: 0 <= k < |lives| ==> lives[k] <= |Session(Plans(specs), groups)|
    ensures var steps := Session(Plans(specs), groups);
      && Run(Deaths(files, steps, lives), steps) == Run(files, steps)
      && Succeeds(Deaths(files, steps, lives), steps)
      && forall k :: 0 <= k < |specs| ==>
           Completed(PlanOf(specs[k]), Run(files, steps)) && |LabelsOf(PlanOf(specs[k]))| == ExpectedRows(specs[k])
  {
    FreshSound(specs, files);
    SessionResumes(Plans(specs), groups, files, lives);
    SessionCompletes(Plans(specs), groups, files);
    forall k | 0 <= k < |specs|
      ensures Completed(PlanOf(specs[k]), Run(files, Session(Plans(specs), groups)))
      ensures |LabelsOf(PlanOf(specs[k]))| == ExpectedRows(specs[k])
    {
      assert Counted(Plans(specs)[k]) && Completed(Plans(specs)[k], Run(files, Session(Plans(specs), groups)));
    }
  }
}
