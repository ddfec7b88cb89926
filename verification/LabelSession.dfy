/** A labeling session over a workload's label sets, and why a resumed one ends complete (`judge_workload`). */
module LabelSession {
  import opened Common
  import opened LabelVolume

  /** A label set to make: its left rows, how many a part takes, the judge's labels for a range of left rows,
      or an exception, and how many rows are expected in all. */
  datatype Plan = Plan(labels: nat, size: nat, step: nat, rows: (nat, nat) -> Option<seq<LabelRow>>, expected: nat)

  type Bound = (nat, nat)

  /** `_part_bounds`, from some row on. */
  function Bounds(start: nat, left: nat, step: nat): (r: seq<Bound>)
    requires step >= 1
    decreases left - start
  {
    if start >= left then [] else [(start, Min(start + step, left))] + Bounds(start + step, left, step)
  }

  ghost predicate Holds(bound: Bound, i: nat) {
    bound.0 <= i < bound.1
  }

  /** Parts that follow one another from `start` to `end`, none empty. */
  ghost predicate Tiles(bounds: seq<Bound>, start: nat, end: nat) {
    && (forall k :: 0 <= k < |bounds| ==> bounds[k].0 < bounds[k].1 <= end)
    && (bounds == [] ==> start >= end) && (bounds != [] ==> bounds[0].0 == start && bounds[|bounds| - 1].1 == end)
    && forall k :: 0 < k < |bounds| ==> bounds[k].0 == bounds[k - 1].1
  }

  /** The ranges tile the left table. */
  lemma {:induction false} BoundsTile(start: nat, left: nat, step: nat)
    requires step >= 1
    ensures Tiles(Bounds(start, left, step), start, left)
    decreases left - start
  {
    if start < left {
      BoundsTile(start + step, left, step);
      var rest := Bounds(start + step, left, step);
      var all := Bounds(start, left, step);
      forall k | 0 < k < |all| ensures all[k].0 == all[k - 1].1 {
        assert all[k] == rest[k - 1];
      }
    }
  }

  function PartBounds(plan: Plan): seq<Bound>
    requires plan.step >= 1
  {
    Bounds(0, plan.size, plan.step)
  }

  function PartOf(plan: Plan, bound: Bound): Path {
    PartPath(plan.labels, bound.0, bound.1)
  }

  /** `_expected_parts` */
  function ExpectedParts(plan: Plan): (r: seq<Path>)
    requires plan.step >= 1
    ensures |r| == |PartBounds(plan)| && forall k :: 0 <= k < |r| ==> r[k] == PartOf(plan, PartBounds(plan)[k])
  {
    seq(|PartBounds(plan)|, k requires 0 <= k < |PartBounds(plan)| => PartOf(plan, PartBounds(plan)[k]))
  }

  /** The plans share their table and part size, as those of one filter group do; a join is alone. */
  ghost predicate OneTable(group: seq<Plan>) {
    && group != [] && group[0].step >= 1
    && forall m :: 0 <= m < |group| ==> group[m].size == group[0].size && group[m].step == group[0].step
  }

  function LabelStep(plan: Plan, bound: Bound): Step {
    Label(plan.labels, bound.0, bound.1, plan.rows(bound.0, bound.1))
  }

  /** A range of left rows, for each plan of the group. */
  function BatchSteps(group: seq<Plan>, bound: Bound): (r: seq<Step>)
    ensures |r| == |group|
    ensures forall m :: 0 <= m < |r| ==> r[m] == LabelStep(group[m], bound)
  {
    seq(|group|, m requires 0 <= m < |group| => LabelStep(group[m], bound))
  }

  /** Range by range. */
  function RangeSteps(group: seq<Plan>, bounds: seq<Bound>): seq<Step> {
    if bounds == [] then
      []
    else
      var n := |bounds| - 1;
      RangeSteps(group, bounds[..n]) + BatchSteps(group, bounds[n])
  }

  function GroupSteps(group: seq<Plan>): seq<Step>
    requires OneTable(group)
  {
    RangeSteps(group, PartBounds(group[0]))
  }

  function AllGroups(groups: seq<seq<Plan>>): seq<Step>
    requires forall g :: 0 <= g < |groups| ==> OneTable(groups[g])
  {
    if groups == [] then
      []
    else
      AllGroups(groups[..|groups| - 1]) + GroupSteps(groups[|groups| - 1])
  }

  function Starts(plans: seq<Plan>): seq<Step> {
    if plans == [] then
      []
    else
      var plan := plans[|plans| - 1];
      Starts(plans[..|plans| - 1]) + [Start(plan.labels, plan.expected)]
  }

  /** `_complete_manifest` */
  function FinishSteps(plan: Plan): seq<Step>
    requires plan.step >= 1
  {
    [Compact(plan.labels, ExpectedParts(plan), plan.expected),
     Finish(plan.labels, ExpectedParts(plan), plan.expected)]
  }

  function Finishes(plans: seq<Plan>): seq<Step>
    requires forall k :: 0 <= k < |plans| ==> plans[k].step >= 1
  {
    if plans == [] then [] else Finishes(plans[..|plans| - 1]) + FinishSteps(plans[|plans| - 1])
  }

  /** Part sizes are positive, and the groups share their tables. */
  ghost predicate Sized(plans: seq<Plan>, groups: seq<seq<Plan>>) {
    (forall k :: 0 <= k < |plans| ==> plans[k].step >= 1) && forall g :: 0 <= g < |groups| ==> OneTable(groups[g])
  }

  /** The workload: its plans in order, and the groups they are labeled in. */
  ghost predicate Workload(plans: seq<Plan>, groups: seq<seq<Plan>>) {
    && Sized(plans, groups)
    && (forall j, k :: 0 <= j < k < |plans| ==> plans[j].labels != plans[k].labels)
    && (forall g :: 0 <= g < |groups| ==> Listed(plans, groups[g]))
    && forall k :: 0 <= k < |plans| ==> Grouped(groups, plans[k])
  }

  ghost predicate Listed(plans: seq<Plan>, group: seq<Plan>) {
    forall m :: 0 <= m < |group| ==> group[m] in plans
  }

  ghost predicate Grouped(groups: seq<seq<Plan>>, plan: Plan) {
    exists g :: 0 <= g < |groups| && plan in groups[g]
  }

  function Labels(plans: seq<Plan>, groups: seq<seq<Plan>>): seq<Step>
    requires Sized(plans, groups)
  {
    Starts(plans) + AllGroups(groups)
  }

  /** `judge_workload` */
  function Session(plans: seq<Plan>, groups: seq<seq<Plan>>): seq<Step>
    requires Sized(plans, groups)
  {
    Labels(plans, groups) + Finishes(plans)
  }

  /** The step is one the plan calls for. */
  ghost predicate CalledFor(plan: Plan, step: Step)
    requires plan.step >= 1
  {
    && step.labels == plan.labels
    && match step
       case Start(_, expected) => expected == plan.expected
       case Label(_, start, end, _) => step == LabelStep(plan, (start, end))
       case Compact(_, _, _) => step == FinishSteps(plan)[0]
       case Finish(_, _, _) => step == FinishSteps(plan)[1]
  }

  ghost predicate Stepwise(plans: seq<Plan>, step: Step)
    requires forall k :: 0 <= k < |plans| ==> plans[k].step >= 1
  {
    exists k :: 0 <= k < |plans| && CalledFor(plans[k], step)
  }

  ghost predicate AllStepwise(plans: seq<Plan>, steps: seq<Step>)
    requires forall k :: 0 <= k < |plans| ==> plans[k].step >= 1
  {
    forall i :: 0 <= i < |steps| ==> Stepwise(plans, steps[i])
  }

  lemma {:induction false} RangeStepwise(plans: seq<Plan>, group: seq<Plan>, bounds: seq<Bound>)
    requires Listed(plans, group) && forall k :: 0 <= k < |plans| ==> plans[k].step >= 1
    ensures AllStepwise(plans, RangeSteps(group, bounds))
  {
    if bounds != [] {
      var n := |bounds| - 1;
      RangeStepwise(plans, group, bounds[..n]);
      var batch := BatchSteps(group, bounds[n]);
      forall m | 0 <= m < |group| ensures Stepwise(plans, batch[m]) {
        var k :| 0 <= k < |plans| && plans[k] == group[m];
        assert CalledFor(plans[k], batch[m]);
      }
    }
  }

  lemma {:induction false} GroupsStepwise(plans: seq<Plan>, groups: seq<seq<Plan>>)
    requires forall k :: 0 <= k < |plans| ==> plans[k].step >= 1
    requires forall g :: 0 <= g < |groups| ==> OneTable(groups[g]) && Listed(plans, groups[g])
    ensures AllStepwise(plans, AllGroups(groups))
  {
    if groups != [] {
      GroupsStepwise(plans, groups[..|groups| - 1]);
      RangeStepwise(plans, groups[|groups| - 1], PartBounds(groups[|groups| - 1][0]));
    }
  }

  lemma {:induction false} StartsStepwise(plans: seq<Plan>, n: nat)
    requires n <= |plans| && forall k :: 0 <= k < |plans| ==> plans[k].step >= 1
    ensures AllStepwise(plans, Starts(plans[..n]))
  {
    if n > 0 {
      StartsStepwise(plans, n - 1);
      assert plans[..n][..n - 1] == plans[..n - 1];
      assert CalledFor(plans[n - 1], Start(plans[n - 1].labels, plans[n - 1].expected));
    }
  }

  lemma {:induction false} FinishesStepwise(plans: seq<Plan>, n: nat)
    requires n <= |plans| && forall k :: 0 <= k < |plans| ==> plans[k].step >= 1
    ensures AllStepwise(plans, Finishes(plans[..n]))
  {
    if n > 0 {
      FinishesStepwise(plans, n - 1);
      assert plans[..n][..n - 1] == plans[..n - 1];
      var last := FinishSteps(plans[n - 1]);
      assert CalledFor(plans[n - 1], last[0]) && CalledFor(plans[n - 1], last[1]);
    }
  }

  lemma SessionStepwise(plans: seq<Plan>, groups: seq<seq<Plan>>)
    requires Workload(plans, groups)
    ensures AllStepwise(plans, Session(plans, groups))
  {
    StartsStepwise(plans, |plans|);
    GroupsStepwise(plans, groups);
    FinishesStepwise(plans, |plans|);
    assert plans[..|plans|] == plans;
  }

  lemma OneWayEach(plans: seq<Plan>, a: Step, b: Step)
    requires forall k :: 0 <= k < |plans| ==> plans[k].step >= 1
    requires forall j, k :: 0 <= j < k < |plans| ==> plans[j].labels != plans[k].labels
    requires Stepwise(plans, a) && Stepwise(plans, b)
    ensures OneWay(a, b)
  {
    var j :| 0 <= j < |plans| && CalledFor(plans[j], a);
    var k :| 0 <= k < |plans| && CalledFor(plans[k], b);
    assert a.labels == b.labels ==> j == k;
  }

  lemma StepwiseOneFinish(plans: seq<Plan>, groups: seq<seq<Plan>>, steps: seq<Step>)
    requires Workload(plans, groups) && AllStepwise(plans, steps)
    ensures OneFinish(steps)
  {
    forall i, j | 0 <= i < |steps| && 0 <= j < |steps| ensures OneWay(steps[i], steps[j]) {
      OneWayEach(plans, steps[i], steps[j]);
    }
  }

  /** Labeling resumed after any number of sessions that died ends with the files of one that ran through,
      and raises or completes just the same. */
  lemma SessionResumes(plans: seq<Plan>, groups: seq<seq<Plan>>, files: Files, lives: seq<nat>)
    requires Workload(plans, groups)
    requires forall k :: 0 <= k < |lives| ==> lives[k] <= |Session(plans, groups)|
    ensures var (steps, left) := (Session(plans, groups), Deaths(files, Session(plans, groups), lives));
      Run(left, steps) == Run(files, steps) && (Succeeds(left, steps) <==> Succeeds(files, steps))
  {
    SessionStepwise(plans, groups);
    StepwiseOneFinish(plans, groups, Session(plans, groups));
    ResumesAlways(files, Session(plans, groups), lives);
  }
}
