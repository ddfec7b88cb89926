/** A session whose judge answers every batch completes, with as many rows as expected (`_complete_manifest`). */
module LabelCompletion {
  import opened Common
  import opened LabelSession
  import opened LabelVolume

  /** The judge answers each batch. */
  ghost predicate Ready(plan: Plan, bounds: seq<Bound>) {
    forall k :: 0 <= k < |bounds| ==> plan.rows(bounds[k].0, bounds[k].1).Some?
  }

  /** The rows of some parts, one part after the other. */
  function RowsOf(plan: Plan, bounds: seq<Bound>): seq<LabelRow>
    requires Ready(plan, bounds)
  {
    if bounds == [] then
      []
    else
      var n := |bounds| - 1;
      RowsOf(plan, bounds[..n]) + plan.rows(bounds[n].0, bounds[n].1).value
  }

  ghost predicate ReadyPlan(plan: Plan) {
    plan.step >= 1 && Ready(plan, PartBounds(plan))
  }

  /** All labels of a plan. */
  function LabelsOf(plan: Plan): seq<LabelRow>
    requires ReadyPlan(plan)
  {
    RowsOf(plan, PartBounds(plan))
  }

  /** The labels of all batches are as many as expected. */
  ghost predicate Counted(plan: Plan) {
    ReadyPlan(plan) && |LabelsOf(plan)| == plan.expected
  }

  /** What the volume holds of a plan is right, as far as it goes. */
  ghost predicate Sound(plan: Plan, files: Files)
    requires ReadyPlan(plan)
  {
    && (forall start, end :: PartPath(plan.labels, start, end) in files ==> RightPart(plan, (start, end), files))
    && (CompactPath(plan.labels) in files ==> files[CompactPath(plan.labels)] == Rows(LabelsOf(plan)))
  }

  ghost predicate RightPart(plan: Plan, bound: Bound, files: Files)
    requires PartOf(plan, bound) in files
  {
    plan.rows(bound.0, bound.1).Some? && files[PartOf(plan, bound)] == Rows(plan.rows(bound.0, bound.1).value)
  }

  ghost predicate AllReady(plans: seq<Plan>) {
    forall k :: 0 <= k < |plans| ==> Counted(plans[k])
  }

  ghost predicate AllSound(plans: seq<Plan>, files: Files)
    requires AllReady(plans)
  {
    forall k :: 0 <= k < |plans| ==> Sound(plans[k], files)
  }

  ghost predicate HasParts(plan: Plan, files: Files)
    requires plan.step >= 1
  {
    forall k :: 0 <= k < |PartBounds(plan)| ==> PartOf(plan, PartBounds(plan)[k]) in files
  }

  lemma JoinedNext(files: Files, parts: seq<Path>, path: Path)
    requires Present(files, parts) && path.PartPath? && path in files && files[path].Rows?
    ensures Present(files, parts + [path]) && Joined(files, parts + [path]) == Joined(files, parts) + files[path].rows
  {
    assert (parts + [path])[..|parts|] == parts;
  }

  lemma RowsNext(plan: Plan, bounds: seq<Bound>, bound: Bound)
    requires Ready(plan, bounds) && plan.rows(bound.0, bound.1).Some?
    ensures Ready(plan, bounds + [bound])
    ensures RowsOf(plan, bounds + [bound]) == RowsOf(plan, bounds) + plan.rows(bound.0, bound.1).value
  {
    assert (bounds + [bound])[..|bounds|] == bounds;
  }

  lemma {:induction false} JoinedRows(plan: Plan, files: Files, n: nat)
    requires ReadyPlan(plan) && Sound(plan, files) && HasParts(plan, files) && n <= |PartBounds(plan)|
    ensures Present(files, ExpectedParts(plan)[..n])
    ensures Joined(files, ExpectedParts(plan)[..n]) == RowsOf(plan, PartBounds(plan)[..n])
  {
    if n > 0 {
      JoinedRows(plan, files, n - 1);
      var (parts, bounds) := (ExpectedParts(plan), PartBounds(plan));
      assert RightPart(plan, bounds[n - 1], files);
      TakeNext(parts, n - 1);
      TakeNext(bounds, n - 1);
      JoinedNext(files, parts[..n - 1], parts[n - 1]);
      RowsNext(plan, bounds[..n - 1], bounds[n - 1]);
    }
  }

  /** With all parts there, the stats and the compaction see all labels. */
  lemma PartsSaved(plan: Plan, files: Files)
    requires Counted(plan) && Sound(plan, files) && HasParts(plan, files)
    ensures Saved(files, ExpectedParts(plan), plan.expected)
    ensures Joined(files, ExpectedParts(plan)) == LabelsOf(plan)
  {
    var (parts, bounds) := (ExpectedParts(plan), PartBounds(plan));
    JoinedRows(plan, files, |bounds|);
    assert parts[..|bounds|] == parts && bounds[..|bounds|] == bounds;
  }

  ghost predicate AllHave(plans: seq<Plan>, files: Files)
    requires AllReady(plans)
  {
    forall k :: 0 <= k < |plans| ==> HasParts(plans[k], files)
  }

  predicate Rowful(step: Step) {
    step.Start? || (step.Label? && step.rows.Some?)
  }

  /** A label step does not raise, and a finishing step finds its parts. */
  ghost predicate Harmless(plans: seq<Plan>, files: Files, step: Step)
    requires AllReady(plans)
  {
    Rowful(step) || ((step.Compact? || step.Finish?) && AllHave(plans, files))
  }

  lemma HarmlessStep(plans: seq<Plan>, files: Files, step: Step)
    requires AllReady(plans) && AllSound(plans, files) && Stepwise(plans, step) && Harmless(plans, files, step)
    ensures !Act(step, files).Raise?
  {
    var k :| 0 <= k < |plans| && CalledFor(plans[k], step);
    if step.Compact? || step.Finish? {
      PartsSaved(plans[k], files);
    }
  }

  lemma SoundStep(plan: Plan, own: Plan, files: Files, step: Step)
    requires Counted(plan) && Sound(plan, files)
    requires own.step >= 1 && CalledFor(own, step) && (own.labels == plan.labels ==> own == plan)
    requires step.Compact? ==> HasParts(own, files)
    requires step.Label? ==> step.rows.Some?
    ensures Sound(plan, After(Act(step, files), files))
  {
    if step.Compact? && own == plan {
      PartsSaved(plan, files);
    }
    var after := After(Act(step, files), files);
    forall start, end | PartPath(plan.labels, start, end) in after ensures RightPart(plan, (start, end), after) {
      if PartPath(plan.labels, start, end) in files {
        assert RightPart(plan, (start, end), files);
      }
    }
  }

  lemma AllSoundStep(plans: seq<Plan>, files: Files, step: Step)
    requires AllReady(plans) && AllSound(plans, files) && Stepwise(plans, step) && Harmless(plans, files, step)
    requires forall j, k :: 0 <= j < k < |plans| ==> plans[j].labels != plans[k].labels
    ensures AllSound(plans, After(Act(step, files), files))
  {
    var own :| 0 <= own < |plans| && CalledFor(plans[own], step);
    forall k | 0 <= k < |plans| ensures Sound(plans[k], After(Act(step, files), files)) {
      SoundStep(plans[k], plans[own], files, step);
    }
  }

  ghost predicate AllHarmless(plans: seq<Plan>, files: Files, steps: seq<Step>)
    requires AllReady(plans)
  {
    forall i :: 0 <= i < |steps| ==> Harmless(plans, files, steps[i])
  }

  ghost predicate ReadyWorkload(plans: seq<Plan>, groups: seq<seq<Plan>>) {
    Workload(plans, groups) && AllReady(plans)
  }

  lemma {:induction false} HarmlessKept(plans: seq<Plan>, files: Files, after: Files, step: Step)
    requires AllReady(plans) && Harmless(plans, files, step) && Keeps(files, after)
    ensures Harmless(plans, after, step)
  {
  }

  /** Harmless steps all go through, and leave a sound volume sound. */
  lemma {:induction false} HarmlessRun(plans: seq<Plan>, groups: seq<seq<Plan>>, files: Files, steps: seq<Step>)
    requires ReadyWorkload(plans, groups) && AllSound(plans, files)
    requires AllStepwise(plans, steps) && AllHarmless(plans, files, steps)
    ensures Succeeds(files, steps) && AllSound(plans, Run(files, steps)) && Keeps(files, Run(files, steps))
  {
    if steps != [] {
      var n := |steps| - 1;
      var before := Run(files, steps[..n]);
      HarmlessRun(plans, groups, files, steps[..n]);
      HarmlessKept(plans, files, before, steps[n]);
      HarmlessStep(plans, before, steps[n]);
      AllSoundStep(plans, before, steps[n]);
      ActKeeps(steps[n], before);
    }
  }

  ghost predicate AllRowful(steps: seq<Step>) {
    forall i :: 0 <= i < |steps| ==> Rowful(steps[i])
  }

  lemma {:induction false} RangeRowful(group: seq<Plan>, bounds: seq<Bound>)
    requires forall m :: 0 <= m < |group| ==> Ready(group[m], bounds)
    ensures AllRowful(RangeSteps(group, bounds))
  {
    if bounds != [] {
      var n := |bounds| - 1;
      forall m | 0 <= m < |group| ensures Ready(group[m], bounds[..n]) && Rowful(BatchSteps(group, bounds[n])[m]) {
        assert group[m].rows(bounds[n].0, bounds[n].1).Some?;
      }
      RangeRowful(group, bounds[..n]);
    }
  }

  lemma {:induction false} GroupsRowful(plans: seq<Plan>, groups: seq<seq<Plan>>)
    requires AllReady(plans)
    requires forall g :: 0 <= g < |groups| ==> OneTable(groups[g]) && Listed(plans, groups[g])
    ensures AllRowful(AllGroups(groups))
  {
    if groups != [] {
      var group := groups[|groups| - 1];
      GroupsRowful(plans, groups[..|groups| - 1]);
      forall m | 0 <= m < |group| ensures Ready(group[m], PartBounds(group[0])) {
        assert group[m] in plans;
        var k :| 0 <= k < |plans| && plans[k] == group[m];
        assert Counted(plans[k]);
      }
      RangeRowful(group, PartBounds(group[0]));
    }
  }

  lemma {:induction false} StartsRowful(plans: seq<Plan>)
    ensures AllRowful(Starts(plans))
  {
    if plans != [] {
      StartsRowful(plans[..|plans| - 1]);
    }
  }

  /** Every range is labeled for every plan of the group. */
  lemma {:induction false} RangeLabels(group: seq<Plan>, bounds: seq<Bound>, m: nat, k: nat)
    requires m < |group| && k < |bounds|
    ensures LabelStep(group[m], bounds[k]) in RangeSteps(group, bounds)
  {
    var n := |bounds| - 1;
    if k < n {
      RangeLabels(group, bounds[..n], m, k);
    } else {
      assert BatchSteps(group, bounds[n])[m] == LabelStep(group[m], bounds[n]);
    }
  }

  lemma {:induction false} GroupsContain(groups: seq<seq<Plan>>, g: nat, step: Step)
    requires forall h :: 0 <= h < |groups| ==> OneTable(groups[h])
    requires g < |groups| && step in GroupSteps(groups[g])
    ensures step in AllGroups(groups)
  {
    if g < |groups| - 1 {
      GroupsContain(groups[..|groups| - 1], g, step);
    }
  }

  lemma StepSettled(files: Files, labels: seq<Step>, finishes: seq<Step>, step: Step)
    requires step in finishes && Succeeds(files, labels + finishes) && OneFinish(labels + finishes)
    ensures Settled(step, Run(files, labels + finishes))
  {
    var i :| 0 <= i < |finishes| && finishes[i] == step;
    assert (labels + finishes)[|labels| + i] == step;
    RunSettles(files, labels + finishes, |labels| + i);
  }

  ghost predicate AllSettled(steps: seq<Step>, files: Files) {
    forall step :: step in steps ==> Settled(step, files)
  }

  lemma GroupParts(groups: seq<seq<Plan>>, g: nat, m: nat, k: nat, files: Files)
    requires forall h :: 0 <= h < |groups| ==> OneTable(groups[h])
    requires g < |groups| && m < |groups[g]| && groups[g][m].step >= 1 && k < |PartBounds(groups[g][m])|
    requires AllSettled(AllGroups(groups), files)
    ensures PartOf(groups[g][m], PartBounds(groups[g][m])[k]) in files
  {
    RangeLabels(groups[g], PartBounds(groups[g][m]), m, k);
    GroupsContain(groups, g, LabelStep(groups[g][m], PartBounds(groups[g][m])[k]));
  }

  lemma SettledHave(plans: seq<Plan>, groups: seq<seq<Plan>>, files: Files)
    requires ReadyWorkload(plans, groups) && AllSettled(AllGroups(groups), files)
    ensures AllHave(plans, files)
  {
    forall n, k | 0 <= n < |plans| && 0 <= k < |PartBounds(plans[n])|
      ensures PartOf(plans[n], PartBounds(plans[n])[k]) in files
    {
      assert Grouped(groups, plans[n]);
      var g :| 0 <= g < |groups| && plans[n] in groups[g];
      var m :| 0 <= m < |groups[g]| && groups[g][m] == plans[n];
      GroupParts(groups, g, m, k, files);
    }
  }

  lemma LabelsHarmless(plans: seq<Plan>, groups: seq<seq<Plan>>, files: Files)
    requires ReadyWorkload(plans, groups)
    ensures AllStepwise(plans, Labels(plans, groups)) && AllHarmless(plans, files, Labels(plans, groups))
  {
    StartsStepwise(plans, |plans|);
    assert plans[..|plans|] == plans;
    GroupsStepwise(plans, groups);
    StartsRowful(plans);
    GroupsRowful(plans, groups);
    AppendHarmless(plans, files, Starts(plans), AllGroups(groups));
  }

  lemma AppendHarmless(plans: seq<Plan>, files: Files, a: seq<Step>, b: seq<Step>)
    requires AllReady(plans) && AllStepwise(plans, a) && AllStepwise(plans, b) && AllRowful(a) && AllRowful(b)
    ensures AllStepwise(plans, a + b) && AllHarmless(plans, files, a + b)
  {
    forall i | 0 <= i < |a + b| ensures Stepwise(plans, (a + b)[i]) && Harmless(plans, files, (a + b)[i]) {
      var step := if i < |a| then a[i] else b[i - |a|];
      assert Stepwise(plans, step) && Rowful(step);
    }
  }

  lemma LabelsSettled(plans: seq<Plan>, groups: seq<seq<Plan>>, files: Files)
    requires Workload(plans, groups) && Succeeds(files, Labels(plans, groups)) && OneFinish(Labels(plans, groups))
    ensures AllSettled(AllGroups(groups), Run(files, Labels(plans, groups)))
  {
    forall step | step in AllGroups(groups) ensures Settled(step, Run(files, Labels(plans, groups))) {
      StepSettled(files, Starts(plans), AllGroups(groups), step);
    }
  }

  /** The labeling steps all go through and leave every part in place. */
  lemma LabelsDone(plans: seq<Plan>, groups: seq<seq<Plan>>, files: Files)
    requires ReadyWorkload(plans, groups) && AllSound(plans, files)
    ensures Succeeds(files, Labels(plans, groups))
    ensures AllSound(plans, Run(files, Labels(plans, groups))) && AllHave(plans, Run(files, Labels(plans, groups)))
  {
    var steps := Labels(plans, groups);
    LabelsHarmless(plans, groups, files);
    HarmlessRun(plans, groups, files, steps);
    StepwiseOneFinish(plans, groups, steps);
    LabelsSettled(plans, groups, files);
    SettledHave(plans, groups, Run(files, steps));
  }

  lemma {:induction false} FinishesIn(plans: seq<Plan>, n: nat)
    requires n < |plans| && forall k :: 0 <= k < |plans| ==> plans[k].step >= 1
    ensures FinishSteps(plans[n])[0] in Finishes(plans) && FinishSteps(plans[n])[1] in Finishes(plans)
  {
    var m := |plans| - 1;
    var last := FinishSteps(plans[m]);
    if n < m {
      FinishesIn(plans[..m], n);
      assert plans[..m][n] == plans[n];
    } else {
      assert last[0] in last && last[1] in last;
    }
  }

  /** What completing a label set leaves. */
  ghost predicate Completed(plan: Plan, files: Files)
    requires ReadyPlan(plan)
  {
    && CompactPath(plan.labels) in files && files[CompactPath(plan.labels)] == Rows(LabelsOf(plan))
    && ManifestPath(plan.labels) in files
    && files[ManifestPath(plan.labels)] == Complete(StatsOf(LabelsOf(plan)), plan.expected)
  }

  lemma SettledCompleted(plan: Plan, files: Files)
    requires Counted(plan) && Sound(plan, files) && HasParts(plan, files)
    requires Settled(FinishSteps(plan)[0], files) && Settled(FinishSteps(plan)[1], files)
    ensures Completed(plan, files)
  {
    PartsSaved(plan, files);
    var put := Act(FinishSteps(plan)[1], files);
    assert put.Put? && files == files[put.path := put.file];
  }

  lemma {:induction false} FinishesOnly(plans: seq<Plan>)
    requires forall k :: 0 <= k < |plans| ==> plans[k].step >= 1
    ensures forall i :: 0 <= i < |Finishes(plans)| ==> Finishes(plans)[i].Compact? || Finishes(plans)[i].Finish?
  {
    if plans != [] {
      FinishesOnly(plans[..|plans| - 1]);
    }
  }

  lemma FinishesHarmless(plans: seq<Plan>, groups: seq<seq<Plan>>, files: Files)
    requires ReadyWorkload(plans, groups) && AllHave(plans, files)
    ensures AllStepwise(plans, Finishes(plans)) && AllHarmless(plans, files, Finishes(plans))
  {
    FinishesStepwise(plans, |plans|);
    assert plans[..|plans|] == plans;
    FinishesOnly(plans);
  }

  /** When the judge answers every batch, a session over a volume that holds nothing wrong completes every
      label set: the compacted file holds one row per pair or row `_expected_rows` counts, and the manifest
      their stats. */
  lemma SessionCompletes(plans: seq<Plan>, groups: seq<seq<Plan>>, files: Files)
    requires ReadyWorkload(plans, groups) && AllSound(plans, files)
    ensures Succeeds(files, Session(plans, groups))
    ensures forall k :: 0 <= k < |plans| ==>
      Completed(plans[k], Run(files, Session(plans, groups)))
  {
    var (labels, finishes, steps) := (Labels(plans, groups), Finishes(plans), Session(plans, groups));
    var labeled := Run(files, labels);
    LabelsDone(plans, groups, files);
    FinishesHarmless(plans, groups, labeled);
    HarmlessRun(plans, groups, labeled, finishes);
    RunAppend(files, labels, finishes);
    SessionStepwise(plans, groups);
    StepwiseOneFinish(plans, groups, steps);
    forall k | 0 <= k < |plans|
      ensures Completed(plans[k], Run(files, steps))
    {
      FinishesIn(plans, k);
      StepSettled(files, labels, finishes, FinishSteps(plans[k])[0]);
      StepSettled(files, labels, finishes, FinishSteps(plans[k])[1]);
      SettledCompleted(plans[k], Run(files, steps));
    }
  }
}
