/** The part writers and the completion of a label set, over a volume that a death may cut short. */
module LabelWriters {
  import opened Common
  import opened LabelJudge
  import opened LabelSession
  import opened LabelVolume
  import opened LabelRows
  import opened Labeling
  import opened MatchingPairs
  import opened Sorting

  /** A session's volume, and how many more files it will live to write. */
  class Volume {
    var files: Files
    var life: nat

    constructor (files: Files, life: nat)
      ensures this.files == files && this.life == life
    {
      this.files, this.life := files, life;
    }

    /** `os.replace`: all of the file, or, when the session dies first, none of it. */
    method Replace(path: Path, file: File) returns (alive: bool)
      modifies this
      ensures alive <==> old(life) > 0
      ensures alive ==> life == old(life) - 1 && files == old(files)[path := file]
      ensures !alive ==> life == 0 && files == old(files)
    {
      alive := life > 0;
      if alive {
        life, files := life - 1, files[path := file];
      }
    }
  }

  datatype Outcome = Done | Raised | Died

  /** The session took `done` steps from the front, leaving `after`, and then ended as it says. */
  ghost predicate Progress(before: Files, steps: seq<Step>, after: Files, done: nat, outcome: Outcome)
    decreases done
  {
    if done == 0 then
      && after == before
      && match outcome
         case Done => steps == []
         case Raised => steps != [] && Act(steps[0], after).Raise?
         case Died => steps != [] && Act(steps[0], after).Put?
    else
      && steps != [] && !Act(steps[0], before).Raise?
      && Progress(After(Act(steps[0], before), before), steps[1..], after, done - 1, outcome)
  }

  /** Each step writes at most one file. */
  ghost predicate Spent(before: nat, after: nat, done: nat, outcome: Outcome) {
    after <= before <= after + done && (outcome.Died? ==> after == 0)
  }

  lemma SpentThen(before: nat, middle: nat, after: nat, done: nat, more: nat, outcome: Outcome)
    requires Spent(before, middle, done, Done) && Spent(middle, after, more, outcome)
    ensures Spent(before, after, done + more, outcome)
  {
  }

  lemma {:induction false} ProgressThen(before: Files, a: seq<Step>, middle: Files, b: seq<Step>, after: Files,
                                        done: nat, outcome: Outcome)
    requires Progress(before, a, middle, |a|, Done) && Progress(middle, b, after, done, outcome)
    ensures Progress(before, a + b, after, |a| + done, outcome)
    decreases |a|
  {
    if a == [] {
      assert a + b == b;
    } else {
      ProgressThen(After(Act(a[0], before), before), a[1..], middle, b, after, done, outcome);
      assert (a + b)[1..] == a[1..] + b;
    }
  }

  lemma {:induction false} ProgressStops(before: Files, a: seq<Step>, after: Files, done: nat, outcome: Outcome,
                                         b: seq<Step>)
    requires Progress(before, a, after, done, outcome) && !outcome.Done?
    ensures Progress(before, a + b, after, done, outcome)
    decreases done
  {
    if done > 0 {
      ProgressStops(After(Act(a[0], before), before), a[1..], after, done - 1, outcome, b);
      assert (a + b)[1..] == a[1..] + b;
    }
  }

  /** A session that ends leaves what its steps leave up to some step, from where the next session resumes. */
  lemma {:induction false} ProgressRuns(before: Files, steps: seq<Step>, after: Files, done: nat, outcome: Outcome)
    requires Progress(before, steps, after, done, outcome)
    ensures done <= |steps| && Succeeds(before, steps[..done]) && after == Run(before, steps[..done])
    ensures !outcome.Died? ==> after == Run(before, steps) && (outcome.Done? <==> Succeeds(before, steps))
    decreases done
  {
    if done == 0 {
      if steps != [] {
        RunFirst(before, steps);
      }
    } else {
      ProgressRuns(After(Act(steps[0], before), before), steps[1..], after, done - 1, outcome);
      RunFirst(before, steps);
      RunFirst(before, steps[..done]);
      assert steps[..done][1..] == steps[1..][..done - 1];
    }
  }

  lemma {:induction false} ProgressAll(before: Files, steps: seq<Step>, after: Files, done: nat)
    requires Progress(before, steps, after, done, Done)
    ensures done == |steps|
    decreases done
  {
    if done > 0 {
      ProgressAll(After(Act(steps[0], before), before), steps[1..], after, done - 1);
    }
  }

  lemma RunFirst(files: Files, steps: seq<Step>)
    requires steps != []
    ensures Act(steps[0], files).Raise? ==> Run(files, steps) == files && !Succeeds(files, steps)
    ensures !Act(steps[0], files).Raise? ==> Run(files, steps) == Run(After(Act(steps[0], files), files), steps[1..])
    ensures !Act(steps[0], files).Raise? ==>
      (Succeeds(files, steps) <==> Succeeds(After(Act(steps[0], files), files), steps[1..]))
  {
    assert steps == [steps[0]] + steps[1..] && [steps[0]][..0] == [];
    RunAppend(files, [steps[0]], steps[1..]);
  }

  /** One step at the end. */
  lemma ProgressStep(before: Files, a: seq<Step>, files: Files, step: Step, outcome: Outcome)
    requires Progress(before, a, files, |a|, Done)
    ensures !Act(step, files).Raise? ==> Progress(before, a + [step], After(Act(step, files), files), |a| + 1, Done)
    ensures outcome.Raised? && Act(step, files).Raise? ==> Progress(before, a + [step], files, |a|, outcome)
    ensures outcome.Died? && Act(step, files).Put? ==> Progress(before, a + [step], files, |a|, outcome)
  {
    assert [step][1..] == [];
    if !Act(step, files).Raise? {
      assert Progress(files, [step], After(Act(step, files), files), 1, Done);
      ProgressThen(before, a, files, [step], After(Act(step, files), files), 1, Done);
    }
    if (outcome.Raised? && Act(step, files).Raise?) || (outcome.Died? && Act(step, files).Put?) {
      ProgressThen(before, a, files, [step], files, 0, outcome);
    }
  }

  /** The rows `_write_filter_parts` makes of a batch's answers. */
  method FilterOutput(batch: seq<Row>, answers: seq<bool>) returns (rows: seq<LabelRow>)
    requires |answers| == |batch|
    ensures rows == FilterRows(batch, answers)
  {
    rows := [];
    for k := 0 to |batch|
      invariant rows == FilterRows(batch, answers)[..k]
    {
      rows := rows + [LabelRow(batch[k].id, None, answers[k], MODEL)];
    }
  }

  /** Filters that share a table. */
  ghost predicate FilterGroup(group: seq<Spec>) {
    && OneTable(Plans(group))
    && (forall m :: 0 <= m < |group| ==> group[m].kind.Filtering? && group[m].left == group[0].left)
    && forall m, n :: 0 <= m < n < |group| ==> group[m].labels != group[n].labels
  }

  lemma StopsWithin(before: Files, steps: seq<Step>, n: nat, after: Files, done: nat, outcome: Outcome)
    requires n <= |steps| && Progress(before, steps[..n], after, done, outcome) && !outcome.Done?
    ensures Progress(before, steps, after, done, outcome)
  {
    ProgressStops(before, steps[..n], after, done, outcome, steps[n..]);
    assert steps == steps[..n] + steps[n..];
  }

  /** The part of one filter that has none for this range. */
  method WriteFilterPart(volume: Volume, spec: Spec, batch: seq<Row>, start: nat, end: nat, ghost before: Files,
                         ghost front: seq<Step>)
    returns (outcome: Outcome)
    requires spec.kind.Filtering? && start <= end <= |spec.left| && batch == spec.left[start..end]
    requires PartPath(spec.labels, start, end) !in volume.files
    requires Progress(before, front, volume.files, |front|, Done)
    modifies volume
    ensures var step := LabelStep(PlanOf(spec), (start, end));
      Progress(before, front + [step], volume.files, if outcome.Done? then |front| + 1 else |front|, outcome)
    ensures Spent(old(volume.life), volume.life, if outcome.Done? then 1 else 0, outcome)
    ensures forall path :: path != PartPath(spec.labels, start, end) ==> (path in volume.files <==> path in old(volume.files))
  {
    ghost var (files, step) := (volume.files, LabelStep(PlanOf(spec), (start, end)));
    assert step.rows == BatchRows(spec, start, end);
    var answers := Filter(spec.kind.filter, batch);
    if answers.None? {
      ProgressStep(before, front, files, step, Raised);
      return Raised;
    }
    var rows := FilterOutput(batch, answers.value);
    var alive := volume.Replace(PartPath(spec.labels, start, end), Rows(rows));
    ProgressStep(before, front, files, step, Died);
    return if alive then Done else Died;
  }

  /** One row range: the specs without a part there are labeled. */
  method WriteFilterBatch(volume: Volume, group: seq<Spec>, start: nat, end: nat)
    returns (outcome: Outcome, ghost done: nat)
    requires FilterGroup(group) && start <= end <= |group[0].left|
    modifies volume
    ensures Progress(old(volume.files), BatchSteps(Plans(group), (start, end)), volume.files, done, outcome)
    ensures Spent(old(volume.life), volume.life, done, outcome)
  {
    ghost var before := volume.files;
    ghost var steps := BatchSteps(Plans(group), (start, end));
    var files := volume.files;
    var missing := seq(|group|, m requires 0 <= m < |group| => PartPath(group[m].labels, start, end) !in files);
    var batch := group[0].left[start..end];
    for m := 0 to |group|
      invariant Progress(before, steps[..m], volume.files, m, Done)
      invariant forall n :: m <= n < |group| ==> missing[n] == (PartPath(group[n].labels, start, end) !in volume.files)
      invariant Spent(old(volume.life), volume.life, m, Done)
    {
      TakeNext(steps, m);
      if missing[m] {
        outcome := WriteFilterPart(volume, group[m], batch, start, end, before, steps[..m]);
        if !outcome.Done? {
          StopsWithin(before, steps, m + 1, volume.files, m, outcome);
          return outcome, m;
        }
      } else {
        ProgressStep(before, steps[..m], volume.files, steps[m], Done);
      }
    }
    assert steps[..|group|] == steps;
    return Done, |group|;
  }

  lemma RangeNext(group: seq<Plan>, did: seq<Bound>, bound: Bound)
    ensures RangeSteps(group, did + [bound]) == RangeSteps(group, did) + BatchSteps(group, bound)
  {
    assert (did + [bound])[..|did|] == did;
  }

  lemma ConcatAssoc<T>(a: seq<T>, b: seq<T>, c: seq<T>)
    ensures (a + b) + c == a + (b + c)
  {
  }

  lemma {:induction false} RangeAppend(group: seq<Plan>, a: seq<Bound>, b: seq<Bound>)
    ensures RangeSteps(group, a + b) == RangeSteps(group, a) + RangeSteps(group, b)
    decreases |b|
  {
    if b == [] {
      assert a + b == a;
    } else {
      var (front, last) := (b[..|b| - 1], b[|b| - 1]);
      assert b == front + [last];
      ConcatAssoc(a, front, [last]);
      RangeAppend(group, a, front);
      RangeNext(group, a + front, last);
      RangeNext(group, front, last);
      ConcatAssoc(RangeSteps(group, a), RangeSteps(group, front), BatchSteps(group, last));
    }
  }

  lemma RangeSplit(group: seq<Plan>, did: seq<Bound>, bound: Bound, rest: seq<Bound>)
    ensures RangeSteps(group, did + ([bound] + rest))
         == RangeSteps(group, did) + (BatchSteps(group, bound) + RangeSteps(group, rest))
  {
    ConcatAssoc(did, [bound], rest);
    RangeAppend(group, did + [bound], rest);
    RangeNext(group, did, bound);
    ConcatAssoc(RangeSteps(group, did), BatchSteps(group, bound), RangeSteps(group, rest));
  }

  /** The ranges before `start` are done. */
  ghost predicate Underway(before: Files, plans: seq<Plan>, all: seq<Bound>, did: seq<Bound>, rest: seq<Bound>,
                           files: Files, done: nat) {
    did + rest == all && done == |RangeSteps(plans, did)| && Progress(before, RangeSteps(plans, did), files, done, Done)
  }

  lemma UnderwayNext(before: Files, plans: seq<Plan>, all: seq<Bound>, did: seq<Bound>, bound: Bound, rest: seq<Bound>,
                     files: Files, done: nat, after: Files, more: nat, outcome: Outcome)
    requires Underway(before, plans, all, did, [bound] + rest, files, done)
    requires Progress(files, BatchSteps(plans, bound), after, more, outcome)
    ensures outcome.Done? ==> Underway(before, plans, all, did + [bound], rest, after, done + more)
    ensures !outcome.Done? ==> Progress(before, RangeSteps(plans, all), after, done + more, outcome)
  {
    var (a, b) := (RangeSteps(plans, did), BatchSteps(plans, bound));
    assert did + ([bound] + rest) == (did + [bound]) + rest;
    if outcome.Done? {
      ProgressAll(files, b, after, more);
      ProgressThen(before, a, files, b, after, more, outcome);
      RangeNext(plans, did, bound);
    } else {
      ProgressStops(files, b, after, more, outcome, RangeSteps(plans, rest));
      ProgressThen(before, a, files, b + RangeSteps(plans, rest), after, more, outcome);
      RangeSplit(plans, did, bound, rest);
    }
  }

  lemma UnderwayEnd(before: Files, plans: seq<Plan>, all: seq<Bound>, did: seq<Bound>, files: Files, done: nat)
    requires Underway(before, plans, all, did, [], files, done)
    ensures Progress(before, RangeSteps(plans, all), files, done, Done)
  {
    assert did + [] == did;
  }

  /** The asked pairs of a batch. */
  method AskedPairs(pairs: Option<PairSpec>, batch: seq<Row>, right: seq<Row>) returns (asked: seq<Pair>)
    ensures asked == Asked(pairs, batch, right)
  {
    if pairs.Some? {
      asked := MatchingPairs.MatchingPairs(pairs.value, batch, right);
      MatchingAsked(pairs.value, batch, right);
    } else {
      asked := [];
      for i := 0 to |batch|
        invariant asked == Asked(None, batch[..i], right)
      {
        ghost var front := asked;
        var row: seq<Pair> := [];
        for j := 0 to |right|
          invariant row == Beside(i, Indices(|right|))[..j]
        {
          row := row + [(i, j)];
        }
        asked := asked + row;
        assert batch[..i + 1][..i] == batch[..i];
      }
      assert batch[..|batch|] == batch;
    }
  }

  lemma PairRowsNext(answers: map<Pair, bool>, source: SourceLabel, batch: seq<Row>, right: seq<Row>, asked: seq<Pair>,
                     n: nat)
    requires InTables(asked, |batch|, |right|) && n < |asked|
    ensures InTables(asked[..n], |batch|, |right|) && InTables(asked[..n + 1], |batch|, |right|)
    ensures var (front, row) := (PairRows(answers, source, batch, right, asked[..n]),
                                 PairRow(answers, source, batch, right, asked[n]));
      PairRows(answers, source, batch, right, asked[..n + 1])
      == if front.Some? && row.Some? then Some(front.value + [row.value]) else None
  {
    assert asked[..n + 1][..n] == asked[..n];
  }

  lemma {:induction false} PairRowsRaise(answers: map<Pair, bool>, source: SourceLabel, batch: seq<Row>,
                                         right: seq<Row>, asked: seq<Pair>, n: nat)
    requires InTables(asked, |batch|, |right|) && n <= |asked|
    requires PairRows(answers, source, batch, right, asked[..n]).None?
    ensures PairRows(answers, source, batch, right, asked).None?
    decreases |asked|
  {
    if n < |asked| {
      var front := asked[..|asked| - 1];
      assert front[..n] == asked[..n];
      PairRowsRaise(answers, source, batch, right, front, n);
    } else {
      assert asked[..n] == asked;
    }
  }

  /** The output rows of some asked pairs. */
  method PairOutput(answers: map<Pair, bool>, source: SourceLabel, batch: seq<Row>, right: seq<Row>, asked: seq<Pair>)
    returns (rows: Raising<seq<LabelRow>>)
    requires InTables(asked, |batch|, |right|)
    ensures rows == PairRows(answers, source, batch, right, asked)
  {
    var output := [];
    for k := 0 to |asked|
      invariant PairRows(answers, source, batch, right, asked[..k]) == Some(output)
    {
      PairRowsNext(answers, source, batch, right, asked, k);
      var row := PairRow(answers, source, batch, right, asked[k]);
      if row.None? {
        PairRowsRaise(answers, source, batch, right, asked, k + 1);
        return None;
      }
      output := output + [row.value];
    }
    assert asked[..|asked|] == asked;
    return Some(output);
  }

  /** The output rows of a batch's asked pairs. */
  method JoinOutput(kind: Kind, batch: seq<Row>, answers: map<Pair, bool>) returns (rows: Raising<seq<LabelRow>>)
    requires kind.Joining?
    requires InTables(Asked(kind.pairs, batch, kind.right), |batch|, |kind.right|)
    ensures rows == PairRows(answers, kind.source, batch, kind.right, Asked(kind.pairs, batch, kind.right))
  {
    var asked := AskedPairs(kind.pairs, batch, kind.right);
    rows := PairOutput(answers, kind.source, batch, kind.right, asked);
  }

  /** One range of a join's left rows. */
  method WriteJoinPart(volume: Volume, spec: Spec, start: nat, end: nat) returns (outcome: Outcome, ghost done: nat)
    requires spec.kind.Joining? && start <= end <= |spec.left|
    modifies volume
    ensures Progress(old(volume.files), BatchSteps(Plans([spec]), (start, end)), volume.files, done, outcome)
    ensures Spent(old(volume.life), volume.life, done, outcome)
  {
    ghost var steps := BatchSteps(Plans([spec]), (start, end));
    assert steps[0] == Label(spec.labels, start, end, JoinRows(spec.kind, spec.left[start..end]));
    ghost var files := volume.files;
    assert steps == [] + [steps[0]];
    var path := PartPath(spec.labels, start, end);
    if path in volume.files {
      ProgressStep(files, [], files, steps[0], Done);
      return Done, 1;
    }
    var batch := spec.left[start..end];
    var answers := Join(spec.kind.join, spec.kind.pairs, batch, spec.kind.right);
    if answers.None? {
      ProgressStep(files, [], files, steps[0], Raised);
      return Raised, 0;
    }
    AskedWithin(spec.kind.pairs, batch, spec.kind.right);
    var rows := JoinOutput(spec.kind, batch, answers.value);
    if rows.None? {
      ProgressStep(files, [], files, steps[0], Raised);
      return Raised, 0;
    }
    var alive := volume.Replace(path, Rows(SortBy(rows.value, ByIds)));
    ProgressStep(files, [], files, steps[0], Died);
    if !alive {
      return Died, 0;
    }
    return Done, 1;
  }

  /** The rows of a batch, labeled by citations. */
  method CitedOutput(batch: seq<Row>, right: seq<Row>, cites: (Row, Row) -> bool) returns (output: seq<LabelRow>)
    ensures output == CitedRows(batch, right, cites)
  {
    output := [];
    for i := 0 to |batch|
      invariant output == CitedRows(batch[..i], right, cites)
    {
      var row := [];
      for j := 0 to |right|
        invariant row == CitedBeside(batch[i], right, cites)[..j]
      {
        row := row + [LabelRow(batch[i].id, Some(right[j].id), cites(batch[i], right[j]), CITATION)];
      }
      output := output + row;
      assert batch[..i + 1][..i] == batch[..i];
    }
    assert batch[..|batch|] == batch;
  }

  /** One range of the left rows of a predicate labeled by citations. */
  method WriteCitedPart(volume: Volume, spec: Spec, start: nat, end: nat) returns (outcome: Outcome, ghost done: nat)
    requires spec.kind.Citing? && start <= end <= |spec.left|
    modifies volume
    ensures Progress(old(volume.files), BatchSteps(Plans([spec]), (start, end)), volume.files, done, outcome)
    ensures Spent(old(volume.life), volume.life, done, outcome)
  {
    ghost var steps := BatchSteps(Plans([spec]), (start, end));
    ghost var rows := CitedRows(spec.left[start..end], spec.kind.right, spec.kind.cites);
    assert steps[0] == Label(spec.labels, start, end, Some(rows));
    ghost var files := volume.files;
    assert steps == [] + [steps[0]];
    var path := PartPath(spec.labels, start, end);
    if path in volume.files {
      ProgressStep(files, [], files, steps[0], Done);
      return Done, 1;
    }
    var output := CitedOutput(spec.left[start..end], spec.kind.right, spec.kind.cites);
    var alive := volume.Replace(path, Rows(output));
    ProgressStep(files, [], files, steps[0], Died);
    if !alive {
      return Died, 0;
    }
    return Done, 1;
  }

  /** A filter group, or a join alone. */
  ghost predicate WritableGroup(group: seq<Spec>) {
    OneTable(Plans(group)) && (FilterGroup(group) || (|group| == 1 && !group[0].kind.Filtering?))
  }

  method WriteBatch(volume: Volume, group: seq<Spec>, start: nat, end: nat) returns (outcome: Outcome, ghost done: nat)
    requires WritableGroup(group) && start <= end <= |group[0].left|
    modifies volume
    ensures Progress(old(volume.files), BatchSteps(Plans(group), (start, end)), volume.files, done, outcome)
    ensures Spent(old(volume.life), volume.life, done, outcome)
  {
    if group[0].kind.Filtering? {
      outcome, done := WriteFilterBatch(volume, group, start, end);
    } else {
      assert group == [group[0]];
      if group[0].kind.Citing? {
        outcome, done := WriteCitedPart(volume, group[0], start, end);
      } else {
        outcome, done := WriteJoinPart(volume, group[0], start, end);
      }
    }
  }

  /** The next range, after those before it. */
  method WriteRange(volume: Volume, group: seq<Spec>, bound: Bound, ghost plans: seq<Plan>, ghost before: Files,
                    ghost all: seq<Bound>, ghost did: seq<Bound>, ghost rest: seq<Bound>, ghost done: nat)
    returns (outcome: Outcome, ghost next: nat, ghost did': seq<Bound>)
    requires WritableGroup(group) && plans == Plans(group) && bound.0 <= bound.1 <= |group[0].left|
    requires Underway(before, plans, all, did, [bound] + rest, volume.files, done)
    modifies volume
    ensures outcome.Done? ==> Underway(before, plans, all, did', rest, volume.files, next)
    ensures !outcome.Done? ==> Progress(before, RangeSteps(plans, all), volume.files, next, outcome)
    ensures next >= done && Spent(old(volume.life), volume.life, next - done, outcome)
  {
    ghost var files := volume.files;
    ghost var more;
    outcome, more := WriteBatch(volume, group, bound.0, bound.1);
    UnderwayNext(before, plans, all, did, bound, rest, files, done, volume.files, more, outcome);
    next, did' := done + more, did + [bound];
  }

  lemma GroupRanges(group: seq<Spec>)
    requires WritableGroup(group)
    ensures group[0].Step().Some?
    ensures GroupSteps(Plans(group)) == RangeSteps(Plans(group), Bounds(0, |group[0].left|, group[0].Step().value))
  {
    assert Plans(group)[0] == PlanOf(group[0]);
  }

  lemma BoundsNext(start: nat, size: nat, step: nat)
    requires step >= 1 && start < size
    ensures Bounds(start, size, step) == [(start, Min(start + step, size))] + Bounds(start + step, size, step)
  {
  }

  /** Every part written for a group says what it is to say. */
  lemma GroupSays(group: seq<Spec>, before: Files, after: Files, done: nat, outcome: Outcome)
    requires WritableGroup(group) && Progress(before, GroupSteps(Plans(group)), after, done, outcome)
    ensures NewPartsSay(group, before, after)
  {
    var plans := Plans(group);
    forall k | 0 <= k < |group| ensures PlanOf(group[k]).step >= 1 {
      assert plans[k].step == plans[0].step;
    }
    RangeStepwise(plans, plans, PartBounds(plans[0]));
    ProgressRuns(before, GroupSteps(plans), after, done, outcome);
    StepsSay(group, before, GroupSteps(plans), done);
  }

  /** The loop of `_write_filter_parts`, `_write_qwen_join_parts` and `_write_lepard_source` over the left rows' ranges. */
  method WriteParts(volume: Volume, group: seq<Spec>) returns (outcome: Outcome, ghost done: nat)
    requires WritableGroup(group)
    modifies volume
    ensures Progress(old(volume.files), GroupSteps(Plans(group)), volume.files, done, outcome)
    ensures Spent(old(volume.life), volume.life, done, outcome)
    ensures NewPartsSay(group, old(volume.files), volume.files)
  {
    GroupRanges(group);
    outcome, done := WriteRanges(volume, group, group[0].Step().value, Plans(group));
    GroupSays(group, old(volume.files), volume.files, done, outcome);
  }

  method WriteRanges(volume: Volume, group: seq<Spec>, step: nat, ghost plans: seq<Plan>)
    returns (outcome: Outcome, ghost done: nat)
    requires WritableGroup(group) && plans == Plans(group) && step >= 1
    modifies volume
    ensures Progress(old(volume.files), RangeSteps(plans, Bounds(0, |group[0].left|, step)), volume.files, done, outcome)
    ensures Spent(old(volume.life), volume.life, done, outcome)
  {
    var (size, start) := (|group[0].left|, 0);
    ghost var (before, all) := (volume.files, Bounds(0, size, step));
    ghost var did: seq<Bound>, rest: seq<Bound> := [], all;
    done := 0;
    while start < size
      invariant rest == Bounds(start, size, step) && Underway(before, plans, all, did, rest, volume.files, done)
      invariant Spent(old(volume.life), volume.life, done, Done)
    {
      var bound: Bound := (start, Min(start + step, size));
      ghost var (lived, next) := (volume.life, 0);
      BoundsNext(start, size, step);
      rest := Bounds(start + step, size, step);
      outcome, next, did := WriteRange(volume, group, bound, plans, before, all, did, rest, done);
      SpentThen(old(volume.life), lived, volume.life, done, next - done, outcome);
      done := next;
      if !outcome.Done? {
        return;
      }
      start := start + step;
    }
    UnderwayEnd(before, plans, all, did, volume.files, done);
    outcome := Done;
  }
}
