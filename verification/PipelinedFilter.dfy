/** The pipelined filter reports what the operator-at-a-time filter reports. */
module PipelinedFilter {
  import opened Requests
  import opened Engines
  import opened Common
  import opened FilterTask
  import opened FilterScheduling
  import opened OperatorFilter

  datatype PipelinedOutcome = Interrupted | Finished(report: Report)

  function PreviousStage(cell: Cell): Cell {
    (cell.0, if cell.1 == 0 then 0 else cell.1 - 1)
  }

  /** The answers with stages counted from 0 instead of 1. */
  function ShiftDown(answers: map<Cell, bool>): (r: map<Cell, bool>)
    requires forall cell :: cell in answers ==> cell.1 >= 1
    ensures forall cell :: cell in r <==> NextStage(cell) in answers
    ensures forall cell :: cell in r ==> r[cell] == answers[NextStage(cell)]
  {
    var cells := set cell | cell in answers :: PreviousStage(cell);
    Renumber(answers.Keys, cells);
    map cell | cell in cells :: answers[NextStage(cell)]
  }

  lemma Renumber(from1: set<Cell>, from0: set<Cell>)
    requires forall cell :: cell in from1 ==> cell.1 >= 1
    requires from0 == set cell | cell in from1 :: PreviousStage(cell)
    ensures forall cell :: cell in from0 <==> NextStage(cell) in from1
  {
    forall cell: Cell ensures cell in from0 <==> NextStage(cell) in from1 {
      if cell in from0 {
        var c :| c in from1 && PreviousStage(c) == cell;
        assert NextStage(cell) == c;
      }
      if NextStage(cell) in from1 {
        assert PreviousStage(NextStage(cell)) == cell;
      }
    }
  }

  lemma ReferenceStages(task: Task)
    ensures forall cell :: cell in task.Reference(1) ==> cell.1 >= 1
    ensures NextStages(task.AskedCells(0)) == task.AskedCells(1)
  {
    forall cell | cell in task.Reference(1) ensures cell.1 >= 1 {
      assert cell == (cell.0, cell.1);
    }
    forall d: nat, k: nat ensures (d, k) in task.AskedCells(1) <==> (d, k) in NextStages(task.AskedCells(0)) {
      if k > 0 { assert NextStage((d, k - 1)) == (d, k); }
    }
    CellsEqual(task.AskedCells(1), NextStages(task.AskedCells(0)));
  }

  /** Counting stages from 0 turns one reference result into the other. */
  lemma ShiftDownReference(task: Task)
    ensures forall cell :: cell in task.Reference(1) ==> cell.1 >= 1
    ensures ShiftDown(task.Reference(1)) == task.Reference(0)
    ensures |task.AskedCells(1)| == |task.AskedCells(0)|
    ensures task.PromptTokens(task.AskedCells(1), 1) == task.PromptTokens(task.AskedCells(0), 0)
  {
    ReferenceStages(task);
    PromptTokensShift(task, task.AskedCells(0));
    forall cell | cell in task.Reference(0)
      ensures NextStage(cell) in task.Reference(1) && task.Reference(1)[NextStage(cell)] == task.Reference(0)[cell]
    {
      ShiftOne(task, cell);
    }
    ShiftDownInverts(task.Reference(0), task.Reference(1));
  }

  lemma ShiftOne(task: Task, cell: Cell)
    requires cell in task.AskedCells(0)
    ensures NextStage(cell) in task.AskedCells(1)
    ensures task.Reference(1)[NextStage(cell)] == task.Reference(0)[cell]
  {
    var (d, s) := cell;
    assert cell == (d, s) && NextStage(cell) == (d, s + 1);
    assert task.Asked(d, s) && s + 1 - 1 == s;
  }

  lemma ShiftDownInverts(low: map<Cell, bool>, high: map<Cell, bool>)
    requires high.Keys == NextStages(low.Keys)
    requires forall cell :: cell in high ==> cell.1 >= 1
    requires forall cell :: cell in low ==> NextStage(cell) in high && high[NextStage(cell)] == low[cell]
    ensures ShiftDown(high) == low
  {
    Inverts(ShiftDown(high), low, high);
  }

  lemma Inverts(r: map<Cell, bool>, low: map<Cell, bool>, high: map<Cell, bool>)
    requires high.Keys == NextStages(low.Keys)
    requires forall cell :: cell in low ==> NextStage(cell) in high && high[NextStage(cell)] == low[cell]
    requires forall cell :: cell in r <==> NextStage(cell) in high
    requires forall cell :: cell in r ==> r[cell] == high[NextStage(cell)]
    ensures r == low
  {
    forall cell: Cell ensures cell in r <==> cell in low {
      ShiftedCell(low, high, cell);
    }
  }

  lemma ShiftedCell(low: map<Cell, bool>, high: map<Cell, bool>, cell: Cell)
    requires high.Keys == NextStages(low.Keys)
    ensures NextStage(cell) in high <==> cell in low
  {
    NextStagesMember(low.Keys, cell);
    assert NextStage(cell) in high <==> NextStage(cell) in high.Keys;
  }

  lemma NextStagesMember(cells: set<Cell>, cell: Cell)
    ensures NextStage(cell) in NextStages(cells) <==> cell in cells
  {
    if NextStage(cell) in NextStages(cells) {
      var c :| c in cells && NextStage(c) == NextStage(cell);
      assert c == cell;
    }
  }

  /** Documents below n answered at a stage, and how many of them answered TRUE. */
  ghost predicate CountsStage(task: Task, answers: map<Cell, bool>, stage: nat, n: nat, numIn: nat, numOut: nat)
    requires 1 <= stage <= |task.questions| && n <= |task.bodies|
  {
    numIn == |task.PassedBelow(n, stage - 1)| && numOut == |task.PassedBelow(n, stage)|
  }

  lemma CountStageOne(task: Task, answers: map<Cell, bool>, stage: nat, n: nat, numIn: nat, numOut: nat)
    requires answers == task.Reference(1) && 1 <= stage <= |task.questions| && n < |task.bodies|
    requires CountsStage(task, answers, stage, n, numIn, numOut)
    ensures CountsStage(task, answers, stage, n + 1,
                        if (n, stage) in answers then numIn + 1 else numIn,
                        if (n, stage) in answers && answers[(n, stage)] then numOut + 1 else numOut)
  {
    PassedNext(task, n, stage - 1);
    assert (n, stage) in task.AskedCells(1) <==> task.Asked(n, stage - 1);
  }

  /** How many documents a stage evaluated, and how many it kept. */
  method CountStage(task: Task, answers: map<Cell, bool>, stage: nat) returns (count: StageCount)
    requires answers == task.Reference(1) && 1 <= stage <= |task.questions|
    ensures count == StageOf(task, stage - 1)
  {
    var numIn, numOut := 0, 0;
    for d := 0 to |task.bodies|
      invariant CountsStage(task, answers, stage, d, numIn, numOut)
    {
      CountStageOne(task, answers, stage, d, numIn, numOut);
      if (d, stage) in answers {
        numIn := numIn + 1;
        if answers[(d, stage)] {
          numOut := numOut + 1;
        }
      }
    }
    count := StageCount(stage - 1, numIn, numOut);
  }

  /** The report of a run that returned. */
  method Summarize(task: Task, result: FilterResult) returns (report: Report)
    requires result == ReferenceResult(task)
    ensures report == ReferenceReport(task)
  {
    ShiftDownReference(task);
    var stages: seq<StageCount> := [];
    for stage := 1 to |task.questions| + 1
      invariant |stages| == stage - 1 && forall i :: 0 <= i < stage - 1 ==> stages[i] == StageOf(task, i)
    {
      var count := CountStage(task, result.answers, stage);
      stages := stages + [count];
    }
    report := Report(result.survivors, ShiftDown(result.answers), result.requests, result.promptTokens, stages);
  }

  /** Without documents the reference result is empty, but it still has one row per question. */
  lemma EmptyReference(task: Task)
    requires task.bodies == [] && |task.questions| > 0
    ensures ReferenceReport(task).(stages := []) == Report([], map[], 0, 0, [])
    ensures |ReferenceReport(task).stages| == |task.questions|
    ensures ReferenceReport(task).stages[0] == StageCount(0, 0, 0)
  {
    CellsEqual(task.AskedCells(0), {});
    assert task.Reference(0).Keys == {};
    assert ReferenceReport(task).stages[0] == StageOf(task, 0);
  }

  /** `pipelined_filter`: on every engine, a finished run reports exactly what the operator-at-a-time
      filter reports, stage counts included, if and only if there is a document; without documents it
      reports no stages where the other reports one row of zeros per question. */
  method PipelinedFilter(task: Task, engine: AnyEngine, uncached: bool, budget: int, block: nat, maxSeqs: Option<nat>)
    returns (r: PipelinedOutcome)
    requires |task.questions| > 0 && block >= 1
    requires engine.Valid() && engine.Synced()
    requires forall d: nat, s: nat :: engine.MayAdd(Numbered(d, s))
    modifies engine.Repr()
    ensures r.Finished? ==>
      r.report == if task.bodies != [] then ReferenceReport(task) else ReferenceReport(task).(stages := [])
    ensures r.Finished? ==> (r.report == ReferenceReport(task) <==> task.bodies != [])
    ensures engine.Valid() && engine.View().Keys <= old(engine.View()).Keys
    ensures engine.Strangers() <= old(engine.Strangers())
    ensures engine.Inner().outstanding.Keys
      <= old(engine.Inner().outstanding).Keys + Carriers(old(engine.View()).Keys)
    ensures maxSeqs != Some(0) && old(KeepsAnswering(engine, engine.Tries() * |task.AskedCells(1)|)) ==> r.Finished?
  {
    if task.bodies == [] {
      EmptyReference(task);
      return Finished(Report([], map[], 0, 0, []));
    }
    var outcome := RunFilterSequence(task, engine, uncached, budget, block, maxSeqs);
    if outcome.Propagated? {
      return Interrupted;
    }
    var report := Summarize(task, outcome.result);
    r := Finished(report);
  }
}
