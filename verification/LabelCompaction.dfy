/** When the compacted file of a completed label set is the one its parts make (`_compact_label_parts`). */
module LabelCompaction {
  import opened Common
  import opened LabelCompletion
  import opened LabelSession
  import opened LabelVolume

  /** The rows of a part: the saved ones, or else those the judge gives. */
  function PartRows(plan: Plan, bound: Bound, files: Files): seq<LabelRow> {
    var path := PartOf(plan, bound);
    if path in files then
      (if files[path].Rows? then files[path].rows else [])
    else if plan.rows(bound.0, bound.1).Some? then
      plan.rows(bound.0, bound.1).value
    else
      []
  }

  /** The rows of all parts, saved or still to be labeled. */
  function DueRows(plan: Plan, bounds: seq<Bound>, files: Files): seq<LabelRow> {
    if bounds == [] then
      []
    else
      DueRows(plan, bounds[..|bounds| - 1], files) + PartRows(plan, bounds[|bounds| - 1], files)
  }

  lemma {:induction false} RunKeeps(files: Files, steps: seq<Step>)
    ensures Keeps(files, Run(files, steps))
  {
    if steps != [] {
      var n := |steps| - 1;
      RunKeeps(files, steps[..n]);
      ActKeeps(steps[n], Run(files, steps[..n]));
    }
  }

  /** The step labels this part. */
  predicate Labels(step: Step, path: Path) {
    step.Label? && path == PartPath(step.labels, step.start, step.end)
  }

  /** A part that was not there before was put there by a step that labels it. */
  lemma {:induction false} PartFrom(files: Files, steps: seq<Step>, path: Path) returns (i: nat)
    requires path.PartPath? && path in Run(files, steps) && path !in files
    ensures i < |steps| && Labels(steps[i], path) && steps[i].rows.Some?
    ensures Run(files, steps)[path] == Rows(steps[i].rows.value)
  {
    i := |steps| - 1;
    var before := Run(files, steps[..i]);
    if path in before {
      ActKeeps(steps[i], before);
      i := PartFrom(files, steps[..i], path);
    }
  }

  /** A compacted file that was not there before holds the rows of the parts it was made of. */
  lemma {:induction false} CompactFrom(files: Files, steps: seq<Step>, labels: nat) returns (i: nat)
    requires CompactPath(labels) in Run(files, steps) && CompactPath(labels) !in files
    ensures i < |steps| && steps[i].Compact? && steps[i].labels == labels && Present(Run(files, steps), steps[i].parts)
    ensures Run(files, steps)[CompactPath(labels)] == Rows(Joined(Run(files, steps), steps[i].parts))
  {
    i := |steps| - 1;
    var (before, step) := (Run(files, steps[..i]), steps[i]);
    ActKeeps(step, before);
    if CompactPath(labels) in before {
      i := CompactFrom(files, steps[..i], labels);
      JoinedKept(before, Run(files, steps), steps[i].parts);
    } else {
      JoinedKept(before, Run(files, steps), step.parts);
    }
  }

  /** Plans with parts, each with its own label set. */
  ghost predicate Separate(plans: seq<Plan>) {
    && (forall k :: 0 <= k < |plans| ==> plans[k].step >= 1)
    && forall j, k :: 0 <= j < k < |plans| ==> plans[j].labels != plans[k].labels
  }

  lemma CallerIs(plans: seq<Plan>, step: Step, k: nat)
    requires Separate(plans) && Stepwise(plans, step) && k < |plans| && step.labels == plans[k].labels
    ensures CalledFor(plans[k], step)
  {
    var j :| 0 <= j < |plans| && CalledFor(plans[j], step);
    assert j == k;
  }

  /** Every part holds the rows it held before, or those the judge gave. */
  ghost predicate PartsHold(plan: Plan, files: Files, after: Files) {
    forall bound: Bound :: PartOf(plan, bound) in after && after[PartOf(plan, bound)].Rows? ==>
      after[PartOf(plan, bound)] == Rows(PartRows(plan, bound, files))
  }

  lemma PartsHeld(plans: seq<Plan>, files: Files, steps: seq<Step>, k: nat)
    requires Separate(plans) && AllStepwise(plans, steps) && k < |plans|
    ensures PartsHold(plans[k], files, Run(files, steps))
  {
    var after := Run(files, steps);
    RunKeeps(files, steps);
    forall bound: Bound | PartOf(plans[k], bound) in after && after[PartOf(plans[k], bound)].Rows?
      ensures after[PartOf(plans[k], bound)] == Rows(PartRows(plans[k], bound, files))
    {
      if PartOf(plans[k], bound) !in files {
        var i := PartFrom(files, steps, PartOf(plans[k], bound));
        CallerIs(plans, steps[i], k);
      }
    }
  }

  lemma {:induction false} JoinedDue(plan: Plan, files: Files, after: Files, n: nat)
    requires plan.step >= 1 && n <= |PartBounds(plan)|
    requires PartsHold(plan, files, after) && Present(after, ExpectedParts(plan)[..n])
    ensures Joined(after, ExpectedParts(plan)[..n]) == DueRows(plan, PartBounds(plan)[..n], files)
  {
    if n > 0 {
      var (parts, bounds) := (ExpectedParts(plan), PartBounds(plan));
      assert parts[..n][..n - 1] == parts[..n - 1] && bounds[..n][..n - 1] == bounds[..n - 1];
      JoinedDue(plan, files, after, n - 1);
      assert parts[..n][n - 1] == PartOf(plan, bounds[n - 1]);
    }
  }

  lemma AllJoinedDue(plan: Plan, files: Files, after: Files)
    requires plan.step >= 1 && PartsHold(plan, files, after) && Present(after, ExpectedParts(plan))
    ensures Joined(after, ExpectedParts(plan)) == DueRows(plan, PartBounds(plan), files)
  {
    var (parts, bounds) := (ExpectedParts(plan), PartBounds(plan));
    assert parts[..|parts|] == parts && bounds[..|parts|] == bounds;
    JoinedDue(plan, files, after, |parts|);
  }

  /** The compacted file is the one that was there, or is made of the parts. */
  lemma CompactHolds(plans: seq<Plan>, files: Files, steps: seq<Step>, k: nat)
    requires Separate(plans) && AllStepwise(plans, steps) && k < |plans|
    requires CompactPath(plans[k].labels) in Run(files, steps) && Present(Run(files, steps), ExpectedParts(plans[k]))
    ensures var (path, after) := (CompactPath(plans[k].labels), Run(files, steps));
      after[path] == if path in files then files[path] else Rows(Joined(after, ExpectedParts(plans[k])))
  {
    RunKeeps(files, steps);
    if CompactPath(plans[k].labels) !in files {
      var i := CompactFrom(files, steps, plans[k].labels);
      CallerIs(plans, steps[i], k);
    }
  }

  /** The compacted file of a label set is there when a session succeeds, with as many rows as expected. */
  lemma CompactThere(plans: seq<Plan>, groups: seq<seq<Plan>>, files: Files, k: nat)
    requires Workload(plans, groups) && Succeeds(files, Session(plans, groups)) && k < |plans|
    ensures var (plan, path, after) := (plans[k], CompactPath(plans[k].labels), Run(files, Session(plans, groups)));
      && Saved(after, ExpectedParts(plan), plan.expected)
      && path in after && after[path].Rows? && |after[path].rows| == plan.expected
  {
    SessionStepwise(plans, groups);
    StepwiseOneFinish(plans, groups, Session(plans, groups));
    FinishesIn(plans, k);
    StepSettled(files, LabelSession.Labels(plans, groups), Finishes(plans), FinishSteps(plans[k])[0]);
  }

  /** A session that succeeds leaves a compacted file for every label set, with as many rows as expected. It holds the
      parts' rows exactly when there was none before, or the one that was there already held them: the rows of the
      saved parts, and what the judge gives for the others. A wrong one of the right length stays. */
  lemma CompactedRightIff(plans: seq<Plan>, groups: seq<seq<Plan>>, files: Files, k: nat)
    requires Workload(plans, groups) && Succeeds(files, Session(plans, groups)) && k < |plans|
    ensures var (plan, path, after) := (plans[k], CompactPath(plans[k].labels), Run(files, Session(plans, groups)));
      var due := DueRows(plan, PartBounds(plan), files);
      && Saved(after, ExpectedParts(plan), plan.expected) && Joined(after, ExpectedParts(plan)) == due
      && path in after && after[path].Rows? && |after[path].rows| == plan.expected
      && (after[path] == Rows(due) <==> path !in files || files[path] == Rows(due))
  {
    var steps := Session(plans, groups);
    CompactThere(plans, groups, files, k);
    SessionStepwise(plans, groups);
    PartsHeld(plans, files, steps, k);
    AllJoinedDue(plans[k], files, Run(files, steps));
    CompactHolds(plans, files, steps, k);
  }

  const FOUND := LabelRow(0, None, true, 0)

  const OTHER := LabelRow(0, None, false, 0)

  /** One filter over one row; the judge answers it with TRUE. */
  const ONE_ROW := Plan(0, 1, 1, (start: nat, end: nat) => Some([FOUND]), 1)

  const ONE_PART := [PartPath(0, 0, 1)]

  lemma {:induction false} OneRowParts()
    ensures PartBounds(ONE_ROW) == [(0, 1)] && ExpectedParts(ONE_ROW) == ONE_PART
  {
    assert Bounds(1, 1, 1) == [];
  }

  /** The labeling steps of a plan alone, with a single part. */
  lemma {:induction false} OneJob(plan: Plan, bound: Bound)
    requires plan.step >= 1 && PartBounds(plan) == [bound]
    ensures OneTable([plan]) && AllGroups([[plan]]) == [LabelStep(plan, bound)]
  {
    assert [bound][..0] == [] && [[plan]][..0] == [];
    assert RangeSteps([plan], [bound]) == BatchSteps([plan], bound);
    assert BatchSteps([plan], bound) == [LabelStep(plan, bound)];
    assert AllGroups([[plan]]) == GroupSteps([plan]);
  }

  lemma {:induction false} OneRowSession()
    ensures Sized([ONE_ROW], [[ONE_ROW]])
    ensures Session([ONE_ROW], [[ONE_ROW]])
      == [Start(0, 1)] + [Label(0, 0, 1, Some([FOUND]))] + [Compact(0, ONE_PART, 1)] + [Finish(0, ONE_PART, 1)]
  {
    OneRowParts();
    OneJob(ONE_ROW, (0, 1));
    assert [ONE_ROW][..0] == [] && LabelStep(ONE_ROW, (0, 1)) == Label(0, 0, 1, Some([FOUND]));
    assert Starts([ONE_ROW]) == [Start(0, 1)];
    assert Finishes([ONE_ROW]) == FinishSteps(ONE_ROW);
  }

  lemma RunNext(files: Files, front: seq<Step>, step: Step)
    requires Succeeds(files, front) && !Act(step, Run(files, front)).Raise?
    ensures Succeeds(files, front + [step])
    ensures Run(files, front + [step]) == After(Act(step, Run(files, front)), Run(files, front))
  {
    assert (front + [step])[..|front|] == front;
  }

  lemma {:induction false} OnePartJoined(files: Files)
    requires PartPath(0, 0, 1) in files && files[PartPath(0, 0, 1)] == Rows([FOUND])
    ensures Saved(files, ONE_PART, 1)
  {
    assert ONE_PART[..0] == [] && [] + [FOUND] == [FOUND];
    assert Joined(files, ONE_PART) == [FOUND];
  }

  /** A session over a volume with a wrong compacted file of the right length succeeds, and keeps it. */
  lemma {:induction false} WrongCompactStays(files: Files)
    requires files == map[CompactPath(0) := Rows([OTHER])]
    ensures Workload([ONE_ROW], [[ONE_ROW]]) && Succeeds(files, Session([ONE_ROW], [[ONE_ROW]]))
    ensures var after := Run(files, Session([ONE_ROW], [[ONE_ROW]]));
      && PartPath(0, 0, 1) in after && after[PartPath(0, 0, 1)] == Rows([FOUND])
      && CompactPath(0) in after && after[CompactPath(0)] == Rows([OTHER])
  {
    var (start, part) := (Start(0, 1), Label(0, 0, 1, Some([FOUND])));
    var (compact, finish) := (Compact(0, ONE_PART, 1), Finish(0, ONE_PART, 1));
    OneRowSession();
    assert Listed([ONE_ROW], [[ONE_ROW]][0]) && Grouped([[ONE_ROW]], ONE_ROW) by {
      assert ONE_ROW in [[ONE_ROW]][0];
    }
    var running := files[ManifestPath(0) := Running(1)];
    var labeled := running[PartPath(0, 0, 1) := Rows([FOUND])];
    RunNext(files, [], start);
    assert [] + [start] == [start] && Run(files, [start]) == running;
    RunNext(files, [start], part);
    assert Run(files, [start] + [part]) == labeled;
    OnePartJoined(labeled);
    RunNext(files, [start] + [part], compact);
    RunNext(files, [start] + [part] + [compact], finish);
  }
}
