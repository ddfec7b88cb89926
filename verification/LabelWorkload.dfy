/** Completing label sets, and a whole labeling session (`_complete_manifest`, `judge_workload`). */
module LabelWorkload {
  import opened Common
  import opened LabelCompletion
  import opened LabelRows
  import opened LabelSession
  import opened LabelVolume
  import opened LabelWriters
  import opened Labeling

  lemma {:induction false} AbsentPrefix(files: Files, parts: seq<Path>, n: nat)
    requires n <= |parts| && !Present(files, parts[..n])
    ensures !Present(files, parts)
  {
    var k :| 0 <= k < n && !(parts[..n][k].PartPath? && parts[..n][k] in files && files[parts[..n][k]].Rows?);
    assert parts[k] == parts[..n][k];
  }

  /** The rows of the named parts, or an exception when one is missing. */
  method ReadParts(volume: Volume, parts: seq<Path>) returns (rows: Option<seq<LabelRow>>)
    ensures rows == if Present(volume.files, parts) then Some(Joined(volume.files, parts)) else None
  {
    var output := [];
    for k := 0 to |parts|
      invariant Present(volume.files, parts[..k]) && output == Joined(volume.files, parts[..k])
    {
      TakeNext(parts, k);
      if !(parts[k].PartPath? && parts[k] in volume.files && volume.files[parts[k]].Rows?) {
        assert parts[..k + 1][k] == parts[k];
        AbsentPrefix(volume.files, parts, k + 1);
        return None;
      }
      JoinedNext(volume.files, parts[..k], parts[k]);
      output := output + volume.files[parts[k]].rows;
    }
    assert parts[..|parts|] == parts;
    return Some(output);
  }

  /** `_parts_stats` */
  method PartsStats(rows: seq<LabelRow>) returns (stats: Stats)
    ensures stats == StatsOf(rows)
  {
    var (trueRows, sources) := (0, multiset{});
    for k := 0 to |rows|
      invariant trueRows == TrueRows(rows[..k]) && sources == Sources(rows[..k])
    {
      assert rows[..k + 1][..k] == rows[..k];
      trueRows := trueRows + if rows[k].answer then 1 else 0;
      sources := sources + multiset{rows[k].source};
    }
    assert rows[..|rows|] == rows;
    stats := Stats(|rows|, trueRows, sources);
  }

  /** `_compact_label_parts`, for parts that are all there. */
  method CompactLabelParts(volume: Volume, plan: Plan, rows: seq<LabelRow>) returns (outcome: Outcome, ghost done: nat)
    requires plan.step >= 1 && Saved(volume.files, ExpectedParts(plan), plan.expected)
    requires rows == Joined(volume.files, ExpectedParts(plan))
    modifies volume
    ensures Progress(old(volume.files), [FinishSteps(plan)[0]], volume.files, done, outcome)
    ensures Spent(old(volume.life), volume.life, done, outcome)
    ensures outcome.Done? ==> Keeps(old(volume.files), volume.files)
  {
    ghost var (files, step) := (volume.files, FinishSteps(plan)[0]);
    assert [step] == [] + [step];
    ActKeeps(step, files);
    var path := CompactPath(plan.labels);
    if path in volume.files {
      var saved := volume.files[path];
      if saved.Rows? && |saved.rows| == |rows| {
        ProgressStep(files, [], files, step, Done);
        return Done, 1;
      }
      ProgressStep(files, [], files, step, Raised);
      return Raised, 0;
    }
    var alive := volume.Replace(path, Rows(rows));
    ProgressStep(files, [], files, step, Died);
    if !alive {
      return Died, 0;
    }
    return Done, 1;
  }

  /** `_complete_manifest` */
  method CompleteManifest(volume: Volume, plan: Plan) returns (outcome: Outcome, ghost done: nat)
    requires plan.step >= 1
    modifies volume
    ensures Progress(old(volume.files), FinishSteps(plan), volume.files, done, outcome)
    ensures Spent(old(volume.life), volume.life, done, outcome)
  {
    ghost var (before, compact, finish) := (volume.files, FinishSteps(plan)[0], FinishSteps(plan)[1]);
    assert FinishSteps(plan) == [compact] + [finish] && [compact] == [] + [compact];
    var rows := ReadParts(volume, ExpectedParts(plan));
    if rows.None? || |rows.value| != plan.expected {
      ProgressStep(before, [], before, compact, Raised);
      ProgressStops(before, [compact], before, 0, Raised, [finish]);
      return Raised, 0;
    }
    var stats := PartsStats(rows.value);
    outcome, done := CompactLabelParts(volume, plan, rows.value);
    if !outcome.Done? {
      ProgressStops(before, [compact], volume.files, done, outcome, [finish]);
      return;
    }
    ProgressAll(before, [compact], volume.files, done);
    JoinedKept(before, volume.files, ExpectedParts(plan));
    ghost var (compacted, lived) := (volume.files, volume.life);
    var alive := volume.Replace(ManifestPath(plan.labels), Complete(stats, plan.expected));
    ProgressStep(before, [compact], compacted, finish, Died);
    if !alive {
      return Died, 1;
    }
    return Done, 2;
  }

  /** More steps after those done, which may end the session early. */
  lemma More(before: Files, a: seq<Step>, files: Files, b: seq<Step>, after: Files, done: nat, more: nat,
             outcome: Outcome, whole: seq<Step>)
    requires Progress(before, a, files, done, Done) && Progress(files, b, after, more, outcome) && a + b <= whole
    ensures outcome.Done? ==> Progress(before, a + b, after, done + more, Done)
    ensures !outcome.Done? ==> Progress(before, whole, after, done + more, outcome)
  {
    ProgressAll(before, a, files, done);
    ProgressThen(before, a, files, b, after, more, outcome);
    if !outcome.Done? {
      ProgressStops(before, a + b, after, done + more, outcome, whole[|a + b|..]);
      assert whole == (a + b) + whole[|a + b|..];
    }
  }

  lemma {:induction false} StartsPrefix(plans: seq<Plan>, n: nat)
    requires n <= |plans|
    ensures Starts(plans[..n]) <= Starts(plans)
    decreases |plans|
  {
    if n < |plans| {
      StartsPrefix(plans[..|plans| - 1], n);
      assert plans[..|plans| - 1][..n] == plans[..n];
    } else {
      assert plans[..n] == plans;
    }
  }

  lemma {:induction false} GroupsPrefix(groups: seq<seq<Plan>>, n: nat)
    requires n <= |groups| && forall g :: 0 <= g < |groups| ==> OneTable(groups[g])
    ensures AllGroups(groups[..n]) <= AllGroups(groups)
    decreases |groups|
  {
    if n < |groups| {
      GroupsPrefix(groups[..|groups| - 1], n);
      assert groups[..|groups| - 1][..n] == groups[..n];
    } else {
      assert groups[..n] == groups;
    }
  }

  lemma {:induction false} FinishesPrefix(plans: seq<Plan>, n: nat)
    requires n <= |plans| && forall k :: 0 <= k < |plans| ==> plans[k].step >= 1
    ensures Finishes(plans[..n]) <= Finishes(plans)
    decreases |plans|
  {
    if n < |plans| {
      FinishesPrefix(plans[..|plans| - 1], n);
      assert plans[..|plans| - 1][..n] == plans[..n];
    } else {
      assert plans[..n] == plans;
    }
  }

  method WriteStart(volume: Volume, plan: Plan) returns (outcome: Outcome, ghost done: nat)
    modifies volume
    ensures Progress(old(volume.files), [Start(plan.labels, plan.expected)], volume.files, done, outcome)
    ensures Spent(old(volume.life), volume.life, done, outcome)
  {
    ghost var (files, step) := (volume.files, Start(plan.labels, plan.expected));
    assert [step] == [] + [step];
    if ManifestPath(plan.labels) in volume.files {
      ProgressStep(files, [], files, step, Done);
      return Done, 1;
    }
    var alive := volume.Replace(ManifestPath(plan.labels), Running(plan.expected));
    ProgressStep(files, [], files, step, Died);
    if !alive {
      return Died, 0;
    }
    return Done, 1;
  }

  method WriteStarts(volume: Volume, plans: seq<Plan>) returns (outcome: Outcome, ghost done: nat)
    modifies volume
    ensures Progress(old(volume.files), Starts(plans), volume.files, done, outcome)
    ensures Spent(old(volume.life), volume.life, done, outcome)
  {
    done := 0;
    ghost var before := volume.files;
    for n := 0 to |plans|
      invariant Progress(before, Starts(plans[..n]), volume.files, done, Done)
      invariant Spent(old(volume.life), volume.life, done, Done)
    {
      ghost var (files, lived, more) := (volume.files, volume.life, 0);
      outcome, more := WriteStart(volume, plans[n]);
      SpentThen(old(volume.life), lived, volume.life, done, more, outcome);
      assert plans[..n + 1][..n] == plans[..n];
      StartsPrefix(plans, n + 1);
      More(before, Starts(plans[..n]), files, [Start(plans[n].labels, plans[n].expected)], volume.files, done, more,
           outcome, Starts(plans));
      done := done + more;
      if !outcome.Done? {
        return;
      }
    }
    assert plans[..|plans|] == plans;
    outcome := Done;
  }

  function PlanGroups(groups: seq<seq<Spec>>): (r: seq<seq<Plan>>)
    ensures |r| == |groups| && forall g :: 0 <= g < |r| ==> r[g] == Plans(groups[g])
  {
    seq(|groups|, g requires 0 <= g < |groups| => Plans(groups[g]))
  }

  lemma GroupNext(all: seq<seq<Plan>>, n: nat)
    requires n < |all| && forall g :: 0 <= g < |all| ==> OneTable(all[g])
    ensures AllGroups(all[..n + 1]) == AllGroups(all[..n]) + GroupSteps(all[n])
    ensures AllGroups(all[..n + 1]) <= AllGroups(all)
  {
    assert all[..n + 1][..n] == all[..n];
    GroupsPrefix(all, n + 1);
  }

  /** The next group of the session's `whole`, after the steps before it. */
  method WriteNextGroup(volume: Volume, group: seq<Spec>, ghost front: seq<Step>, ghost whole: seq<Step>,
                        ghost before: Files, ghost done: nat)
    returns (outcome: Outcome, ghost next: nat)
    requires WritableGroup(group) && front + GroupSteps(Plans(group)) <= whole
    requires Progress(before, front, volume.files, done, Done)
    modifies volume
    ensures outcome.Done? ==> Progress(before, front + GroupSteps(Plans(group)), volume.files, next, Done)
    ensures !outcome.Done? ==> Progress(before, whole, volume.files, next, outcome)
    ensures next >= done && Spent(old(volume.life), volume.life, next - done, outcome)
  {
    ghost var (files, more) := (volume.files, 0);
    outcome, more := WriteParts(volume, group);
    More(before, front, files, GroupSteps(Plans(group)), volume.files, done, more, outcome, whole);
    next := done + more;
  }

  method WriteGroups(volume: Volume, groups: seq<seq<Spec>>) returns (outcome: Outcome, ghost done: nat)
    requires forall g :: 0 <= g < |groups| ==> WritableGroup(groups[g])
    requires forall g :: 0 <= g < |groups| ==> OneTable(PlanGroups(groups)[g])
    modifies volume
    ensures Progress(old(volume.files), AllGroups(PlanGroups(groups)), volume.files, done, outcome)
    ensures Spent(old(volume.life), volume.life, done, outcome)
  {
    done := 0;
    ghost var (before, all) := (volume.files, PlanGroups(groups));
    for n := 0 to |groups|
      invariant Progress(before, AllGroups(all[..n]), volume.files, done, Done)
      invariant Spent(old(volume.life), volume.life, done, Done)
    {
      ghost var (lived, next) := (volume.life, 0);
      GroupNext(all, n);
      outcome, next := WriteNextGroup(volume, groups[n], AllGroups(all[..n]), AllGroups(all), before, done);
      SpentThen(old(volume.life), lived, volume.life, done, next - done, outcome);
      done := next;
      if !outcome.Done? {
        return;
      }
    }
    assert all[..|groups|] == all;
    outcome := Done;
  }

  method CompleteManifests(volume: Volume, plans: seq<Plan>) returns (outcome: Outcome, ghost done: nat)
    requires forall k :: 0 <= k < |plans| ==> plans[k].step >= 1
    modifies volume
    ensures Progress(old(volume.files), Finishes(plans), volume.files, done, outcome)
    ensures Spent(old(volume.life), volume.life, done, outcome)
  {
    done := 0;
    ghost var before := volume.files;
    for n := 0 to |plans|
      invariant Progress(before, Finishes(plans[..n]), volume.files, done, Done)
      invariant Spent(old(volume.life), volume.life, done, Done)
    {
      ghost var (files, lived, more) := (volume.files, volume.life, 0);
      outcome, more := CompleteManifest(volume, plans[n]);
      SpentThen(old(volume.life), lived, volume.life, done, more, outcome);
      assert plans[..n + 1][..n] == plans[..n];
      FinishesPrefix(plans, n + 1);
      More(before, Finishes(plans[..n]), files, FinishSteps(plans[n]), volume.files, done, more, outcome,
           Finishes(plans));
      done := done + more;
      if !outcome.Done? {
        return;
      }
    }
    assert plans[..|plans|] == plans;
    outcome := Done;
  }

  /** The manifests' first versions, and all parts. */
  method LabelAll(volume: Volume, specs: seq<Spec>, groups: seq<seq<Spec>>) returns (outcome: Outcome, ghost done: nat)
    requires Sized(Plans(specs), PlanGroups(groups))
    requires forall g :: 0 <= g < |groups| ==> WritableGroup(groups[g])
    modifies volume
    ensures Progress(old(volume.files), Labels(Plans(specs), PlanGroups(groups)), volume.files, done, outcome)
    ensures Spent(old(volume.life), volume.life, done, outcome)
  {
    ghost var (before, starts, labels) := (volume.files, Starts(Plans(specs)), AllGroups(PlanGroups(groups)));
    outcome, done := WriteStarts(volume, Plans(specs));
    if !outcome.Done? {
      ProgressStops(before, starts, volume.files, done, outcome, labels);
      return;
    }
    ghost var (files, lived, more) := (volume.files, volume.life, 0);
    outcome, more := WriteGroups(volume, groups);
    SpentThen(old(volume.life), lived, volume.life, done, more, outcome);
    More(before, starts, files, labels, volume.files, done, more, outcome, starts + labels);
    done := done + more;
  }

  /** The whole session. */
  method TakeSteps(volume: Volume, specs: seq<Spec>, groups: seq<seq<Spec>>) returns (outcome: Outcome, ghost done: nat)
    requires Sized(Plans(specs), PlanGroups(groups))
    requires forall g :: 0 <= g < |groups| ==> WritableGroup(groups[g])
    modifies volume
    ensures Progress(old(volume.files), Session(Plans(specs), PlanGroups(groups)), volume.files, done, outcome)
    ensures Spent(old(volume.life), volume.life, done, outcome)
  {
    ghost var (before, labels) := (volume.files, Labels(Plans(specs), PlanGroups(groups)));
    ghost var finishes := Finishes(Plans(specs));
    outcome, done := LabelAll(volume, specs, groups);
    if !outcome.Done? {
      ProgressStops(before, labels, volume.files, done, outcome, finishes);
      return;
    }
    ghost var (files, lived, more) := (volume.files, volume.life, 0);
    outcome, more := CompleteManifests(volume, Plans(specs));
    SpentThen(old(volume.life), lived, volume.life, done, more, outcome);
    More(before, labels, files, finishes, volume.files, done, more, outcome, labels + finishes);
    done := done + more;
  }

  /** Every part a session wrote says what it is to say, however the session ends. */
  lemma SessionSays(specs: seq<Spec>, groups: seq<seq<Plan>>, before: Files, after: Files, done: nat, outcome: Outcome)
    requires Workload(Plans(specs), groups) && Progress(before, Session(Plans(specs), groups), after, done, outcome)
    ensures NewPartsSay(specs, before, after)
  {
    forall k | 0 <= k < |specs| ensures PlanOf(specs[k]).step >= 1 {
      assert Plans(specs)[k].step >= 1;
    }
    SessionStepwise(Plans(specs), groups);
    ProgressRuns(before, Session(Plans(specs), groups), after, done, outcome);
    StepsSay(specs, before, Session(Plans(specs), groups), done);
  }

  /** `judge_workload`: the session takes its steps from the front and stops where it raises or dies. One with life
      enough for its steps does not die. */
  method JudgeWorkload(volume: Volume, specs: seq<Spec>, groups: seq<seq<Spec>>)
    returns (outcome: Outcome, ghost done: nat)
    requires Sized(Plans(specs), PlanGroups(groups))
    requires forall g :: 0 <= g < |groups| ==> WritableGroup(groups[g])
    modifies volume
    ensures Progress(old(volume.files), Session(Plans(specs), PlanGroups(groups)), volume.files, done, outcome)
    ensures Spent(old(volume.life), volume.life, done, outcome)
    ensures Workload(Plans(specs), PlanGroups(groups)) ==> NewPartsSay(specs, old(volume.files), volume.files)
  {
    outcome, done := TakeSteps(volume, specs, groups);
    if Workload(Plans(specs), PlanGroups(groups)) {
      SessionSays(specs, PlanGroups(groups), old(volume.files), volume.files, done, outcome);
    }
  }
}
