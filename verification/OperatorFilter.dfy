/** The simple form of a filter: one operator at a time over all active documents
    (`operator_at_a_time_filter`). */
module OperatorFilter {
  import opened Common
  import opened Prompts
  import opened Requests
  import opened DecisionClient
  import opened FilterTask
  import opened Sorting

  datatype StageCount = StageCount(stage: nat, numIn: nat, numOut: nat)

  /** A filter's result; timing and cached tokens are left out. */
  datatype Report = Report(
    survivors: seq<int>, answers: map<Cell, bool>, requests: nat, promptTokens: nat, stages: seq<StageCount>)

  datatype OperatorOutcome = Unreported | Reported(report: Report)

  ghost function StageOf(task: Task, s: nat): StageCount
    requires s < |task.questions|
  {
    StageCount(s, |task.PassedBelow(|task.bodies|, s)|, |task.PassedBelow(|task.bodies|, s + 1)|)
  }

  ghost function ReferenceReport(task: Task): Report {
    Report(task.SurvivorsBelow(|task.bodies|), task.Reference(0), |task.AskedCells(0)|,
           task.PromptTokens(task.AskedCells(0), 0),
           seq(|task.questions|, s requires 0 <= s < |task.questions| => StageOf(task, s)))
  }

  /** Asked before stage s, or at stage s among `done`. */
  ghost predicate Covered(task: Task, d: nat, k: nat, s: nat, done: seq<int>) {
    task.Asked(d, k) && (k < s || (k == s && d in done))
  }

  ghost predicate AnswersCover(task: Task, answers: map<Cell, bool>, s: nat, done: seq<int>) {
    && forall d: nat, k: nat ::
         && ((d, k) in answers <==> Covered(task, d, k, s, done))
         && ((d, k) in answers ==> answers[(d, k)] == task.Truth(d, k))
  }

  ghost predicate CountsCover(task: Task, answers: map<Cell, bool>, requests: nat, promptTokens: nat) {
    requests == |answers.Keys| && promptTokens == task.PromptTokens(answers.Keys, 0)
  }

  /** The documents of `done` that answer TRUE at stage s. */
  ghost predicate Kept(task: Task, s: nat, done: seq<int>, next: seq<nat>)
    requires s < |task.questions|
  {
    && Increasing(next)
    && forall d :: d in next <==> d in done && 0 <= d < |task.bodies| && task.Truth(d, s)
  }

  lemma KeptOne(task: Task, s: nat, done: seq<int>, next: seq<nat>, d: nat)
    requires s < |task.questions| && d < |task.bodies| && Kept(task, s, done, next)
    requires forall e :: e in done ==> e < d
    ensures Kept(task, s, done + [d], if task.Truth(d, s) then next + [d] else next)
  {
    assert forall j :: 0 <= j < |next| ==> next[j] in next;
  }

  lemma CoverOne(task: Task, answers: map<Cell, bool>, s: nat, done: seq<int>, d: nat)
    requires AnswersCover(task, answers, s, done) && task.Asked(d, s) && d !in done
    ensures AnswersCover(task, answers[(d, s) := task.Truth(d, s)], s, done + [d])
    ensures (d, s) !in answers
  {
    assert !Covered(task, d, s, s, done);
    forall e: nat, k: nat
      ensures Covered(task, e, k, s, done + [d]) <==> Covered(task, e, k, s, done) || (e, k) == (d, s)
    {
    }
  }

  lemma CountOne(task: Task, answers: map<Cell, bool>, requests: nat, promptTokens: nat, d: nat, s: nat, answer: bool)
    requires CountsCover(task, answers, requests, promptTokens) && (d, s) !in answers && task.Asked(d, s)
    ensures CountsCover(task, answers[(d, s) := answer], requests + 1, promptTokens + |task.PromptOf(d, s)|)
  {
    assert answers[(d, s) := answer].Keys == answers.Keys + {(d, s)};
    task.PromptTokensAdd(answers.Keys, (d, s), 0);
  }

  /** Every active document has been asked stage s, so stage s + 1 can start. */
  lemma StageDone(task: Task, answers: map<Cell, bool>, s: nat, evaluated: seq<int>, next: seq<nat>)
    requires s < |task.questions| && evaluated == task.PassedBelow(|task.bodies|, s)
    requires AnswersCover(task, answers, s, evaluated) && Kept(task, s, evaluated, next)
    ensures AnswersCover(task, answers, s + 1, [])
    ensures next == task.PassedBelow(|task.bodies|, s + 1)
  {
    forall d: nat, k: nat ensures Covered(task, d, k, s, evaluated) <==> Covered(task, d, k, s + 1, []) {
    }
    forall d ensures d in next <==> d in task.PassedBelow(|task.bodies|, s + 1) {
      if 0 <= d < |task.bodies| {
        PassedNext(task, d, s);
      }
    }
    IncreasingUnique(next, task.PassedBelow(|task.bodies|, s + 1));
  }

  lemma FinalAnswers(task: Task, answers: map<Cell, bool>)
    requires AnswersCover(task, answers, |task.questions|, [])
    ensures answers == task.Reference(0) && answers.Keys == task.AskedCells(0)
  {
    forall d: nat, k: nat ensures (d, k) in answers.Keys <==> (d, k) in task.AskedCells(0) {
      assert (d, k) in answers <==> Covered(task, d, k, |task.questions|, []);
    }
    CellsEqual(answers.Keys, task.AskedCells(0));
    forall cell | cell in answers ensures answers[cell] == task.Reference(0)[cell] {
      assert cell == (cell.0, cell.1);
    }
  }

  /** The stages up to s have their counts. */
  ghost predicate StagesCounted(task: Task, stages: seq<StageCount>, s: nat)
    requires s <= |task.questions|
  {
    |stages| == s && forall i :: 0 <= i < s ==> stages[i] == StageOf(task, i)
  }

  lemma FinalReport(task: Task, answers: map<Cell, bool>, requests: nat, promptTokens: nat, active: seq<nat>,
                    stages: seq<StageCount>)
    requires AnswersCover(task, answers, |task.questions|, []) && CountsCover(task, answers, requests, promptTokens)
    requires active == task.PassedBelow(|task.bodies|, |task.questions|)
    requires StagesCounted(task, stages, |task.questions|)
    ensures Report(active, answers, requests, promptTokens, stages) == ReferenceReport(task)
  {
    FinalAnswers(task, answers);
  }

  /** The documents asked stage s, in order. */
  ghost predicate AskedInOrder(task: Task, s: nat, evaluated: seq<nat>) {
    (forall i :: 0 <= i < |evaluated| ==> task.Asked(evaluated[i], s)) && Increasing(evaluated)
  }

  lemma PassedAsked(task: Task, s: nat, evaluated: seq<nat>)
    requires s < |task.questions| && evaluated == task.PassedBelow(|task.bodies|, s)
    ensures AskedInOrder(task, s, evaluated)
  {
    forall i | 0 <= i < |evaluated| ensures task.Asked(evaluated[i], s) {
      assert evaluated[i] in evaluated;
    }
  }

  /** Stage s has been asked of the documents in `done`. */
  ghost predicate AskedSoFar(task: Task, s: nat, done: seq<nat>, answers: map<Cell, bool>, requests: nat,
                             promptTokens: nat, active: seq<nat>)
    requires s < |task.questions|
  {
    && AnswersCover(task, answers, s, done) && CountsCover(task, answers, requests, promptTokens)
    && Kept(task, s, done, active)
  }

  /** What the answer of one active document changes. */
  lemma AskOne(task: Task, s: nat, evaluated: seq<nat>, i: nat, answers: map<Cell, bool>, requests: nat,
               promptTokens: nat, active: seq<nat>)
    requires s < |task.questions| && AskedInOrder(task, s, evaluated) && i < |evaluated|
    requires AskedSoFar(task, s, evaluated[..i], answers, requests, promptTokens, active)
    ensures task.Asked(evaluated[i], s)
    ensures var d := evaluated[i];
      AskedSoFar(task, s, evaluated[..i + 1], answers[(d, s) := task.Truth(d, s)], requests + 1,
                 promptTokens + |task.PromptOf(d, s)|, if task.Truth(d, s) then active + [d] else active)
  {
    var (d, done) := (evaluated[i], evaluated[..i]);
    assert evaluated[..i + 1] == done + [d];
    CoverOne(task, answers, s, done, d);
    CountOne(task, answers, requests, promptTokens, d, s, task.Truth(d, s));
    KeptOne(task, s, done, active, d);
  }

  /** The outputs of the active documents, each made from its own prompt for question s. */
  ghost predicate StageOutputs(task: Task, s: nat, evaluated: seq<nat>, outputs: seq<Output>)
    requires s < |task.questions| && AskedInOrder(task, s, evaluated)
  {
    |outputs| == |evaluated| && forall i :: 0 <= i < |outputs| ==> outputs[i].prompt == task.PromptOf(evaluated[i], s)
  }

  /** One generate call, unless no document is active. */
  method Generate(client: Client, uncached: bool, task: Task, s: nat, evaluated: seq<nat>, ghost spare: nat)
    returns (ok: bool, outputs: seq<Output>)
    requires client.Valid() && s < |task.questions| && AskedInOrder(task, s, evaluated)
    modifies client`counter, client.engine
    ensures ok ==> client.Valid() && StageOutputs(task, s, evaluated, outputs)
    ensures old(client.Served(spare + 2 * |evaluated|)) ==>
      ok && client.Served(spare) && forall i :: 0 <= i < |outputs| ==> !outputs[i].malformed
  {
    if evaluated == [] {
      return true, [];
    }
    var prompts := seq(|evaluated|, i requires 0 <= i < |evaluated| => task.PromptOf(evaluated[i], s));
    var sent := client.Generate(prompts, uncached, spare);
    if sent.Propagated? {
      return false, [];
    }
    ok, outputs := true, sent.outputs;
    assert forall i :: 0 <= i < |prompts| ==> Answers(outputs[i], prompts[i]);
  }

  /** Read the outputs of a stage; reading a malformed one raises. */
  method ReadStage(task: Task, s: nat, evaluated: seq<nat>, outputs: seq<Output>, answers: map<Cell, bool>,
                   requests: nat, promptTokens: nat)
    returns (ok: bool, active: seq<nat>, answers': map<Cell, bool>, requests': nat, promptTokens': nat)
    requires s < |task.questions| && AskedInOrder(task, s, evaluated) && StageOutputs(task, s, evaluated, outputs)
    requires AskedSoFar(task, s, [], answers, requests, promptTokens, [])
    ensures !ok ==> exists i :: 0 <= i < |outputs| && outputs[i].malformed
    ensures ok ==> AskedSoFar(task, s, evaluated, answers', requests', promptTokens', active)
    ensures ok ==> requests' == requests + |evaluated|
  {
    ok, active, answers', requests', promptTokens' := true, [], answers, requests, promptTokens;
    assert evaluated[..0] == [];
    for i := 0 to |evaluated|
      invariant AskedSoFar(task, s, evaluated[..i], answers', requests', promptTokens', active)
      invariant ok && requests' == requests + i
    {
      if outputs[i].malformed {
        ok := false;
        return;
      }
      var document := evaluated[i];
      AskOne(task, s, evaluated, i, answers', requests', promptTokens', active);
      assert outputs[i].prompt == task.PromptOf(document, s);
      var answer := task.truth(outputs[i].prompt);
      answers' := answers'[(document, s) := answer];
      requests' := requests' + 1;
      promptTokens' := promptTokens' + |outputs[i].prompt|;
      if answer {
        active := active + [document];
      }
    }
    assert evaluated[..|evaluated|] == evaluated;
  }

  /** One stage: ask the active documents, and keep those that answer TRUE. */
  method RunStage(client: Client, uncached: bool, task: Task, s: nat, evaluated: seq<nat>, answers: map<Cell, bool>,
                  requests: nat, promptTokens: nat, stages: seq<StageCount>, ghost spare: nat)
    returns (ok: bool, active: seq<nat>, answers': map<Cell, bool>, requests': nat, promptTokens': nat,
             stages': seq<StageCount>)
    requires client.Valid() && s < |task.questions| && evaluated == task.PassedBelow(|task.bodies|, s)
    requires AnswersCover(task, answers, s, []) && CountsCover(task, answers, requests, promptTokens)
    requires StagesCounted(task, stages, s)
    modifies client`counter, client.engine
    ensures ok ==> client.Valid() && active == task.PassedBelow(|task.bodies|, s + 1)
    ensures ok ==> AnswersCover(task, answers', s + 1, []) && CountsCover(task, answers', requests', promptTokens')
    ensures ok ==> StagesCounted(task, stages', s + 1) && requests' == requests + |evaluated|
    ensures old(client.Served(spare + 2 * |evaluated|)) ==> ok && client.Served(spare)
  {
    PassedAsked(task, s, evaluated);
    active, answers', requests', promptTokens', stages' := [], answers, requests, promptTokens, stages;
    var outputs;
    ok, outputs := Generate(client, uncached, task, s, evaluated, spare);
    if ok {
      ok, active, answers', requests', promptTokens' :=
        ReadStage(task, s, evaluated, outputs, answers, requests, promptTokens);
    }
    if ok {
      StageDone(task, answers', s, evaluated, active);
      stages' := stages + [StageCount(s, |evaluated|, |active|)];
    }
  }

  /** The cells of some documents at one stage. */
  ghost function StageCells(documents: seq<nat>, s: nat): set<Cell> {
    if documents == [] then
      {}
    else
      var n := |documents| - 1;
      StageCells(documents[..n], s) + {(documents[n], s)}
  }

  lemma {:induction false} StageCellsCount(documents: seq<nat>, s: nat)
    requires Increasing(documents)
    ensures |StageCells(documents, s)| == |documents|
    ensures forall cell :: cell in StageCells(documents, s) ==> cell.1 == s && cell.0 in documents
  {
    if documents != [] {
      var n := |documents| - 1;
      StageCellsCount(documents[..n], s);
      assert documents == documents[..n] + [documents[n]];
      assert documents[n] !in documents[..n];
    }
  }

  /** What is asked in stage s is among the cells still to come. */
  lemma StageWithin(task: Task, s: nat, evaluated: seq<nat>, answers: map<Cell, bool>, requests: nat, promptTokens: nat)
    requires s < |task.questions| && AskedInOrder(task, s, evaluated)
    requires AnswersCover(task, answers, s, []) && CountsCover(task, answers, requests, promptTokens)
    ensures requests + |evaluated| <= |task.AskedCells(0)|
  {
    StageCellsCount(evaluated, s);
    var (before, now) := (answers.Keys, StageCells(evaluated, s));
    forall cell | cell in before ensures cell in task.AskedCells(0) - now {
      assert cell == (cell.0, cell.1) && Covered(task, cell.0, cell.1, s, []);
    }
    forall cell | cell in now ensures cell in task.AskedCells(0) {
      var i :| 0 <= i < |evaluated| && evaluated[i] == cell.0;
      assert cell == (cell.0, cell.1) && task.Asked(evaluated[i], s);
    }
    TwoParts(before, now, task.AskedCells(0));
  }

  lemma TwoParts(a: set<Cell>, b: set<Cell>, all: set<Cell>)
    requires a <= all - b && b <= all
    ensures |a| + |b| <= |all|
  {
    assert |a + b| == |a| + |b|;
    SubsetSize(a + b, all);
  }

  lemma NothingAsked(task: Task)
    ensures AnswersCover(task, map[], 0, []) && CountsCover(task, map[], 0, 0)
  {
    var answers: map<Cell, bool> := map[];
    assert answers.Keys == {};
  }

  /** `operator_at_a_time_filter`: whatever the engine does, a run that returns reports what the
      questions ask; an engine that answers some request in each turn makes it return, in at most two
      turns per cell. */
  method OperatorAtATimeFilter(client: Client, uncached: bool, task: Task) returns (r: OperatorOutcome)
    requires client.Valid()
    modifies client`counter, client.engine
    ensures r.Reported? ==> r.report == ReferenceReport(task) && client.Valid()
    ensures old(client.Served(2 * |task.AskedCells(0)|)) ==> r.Reported?
  {
    var active: seq<nat> := seq(|task.bodies|, i => i);
    EveryoneActive(task, active);
    NothingAsked(task);
    var answers: map<Cell, bool> := map[];
    var requests, promptTokens: nat := 0, 0;
    var stages: seq<StageCount> := [];
    ghost var live := client.Served(2 * |task.AskedCells(0)|);
    ghost var turns: nat := 2 * |task.AskedCells(0)|;
    for s := 0 to |task.questions|
      invariant client.Valid() && active == task.PassedBelow(|task.bodies|, s)
      invariant AnswersCover(task, answers, s, []) && CountsCover(task, answers, requests, promptTokens)
      invariant StagesCounted(task, stages, s) && turns == 2 * (|task.AskedCells(0)| - requests)
      invariant live ==> client.Served(turns)
    {
      PassedAsked(task, s, active);
      StageWithin(task, s, active, answers, requests, promptTokens);
      turns := turns - 2 * |active|;
      var ok;
      ok, active, answers, requests, promptTokens, stages :=
        RunStage(client, uncached, task, s, active, answers, requests, promptTokens, stages, turns);
      if !ok {
        return Unreported;
      }
    }
    FinalReport(task, answers, requests, promptTokens, active, stages);
    r := Reported(Report(active, answers, requests, promptTokens, stages));
  }

  lemma EveryoneActive(task: Task, active: seq<nat>)
    requires |active| == |task.bodies| && forall i :: 0 <= i < |active| ==> active[i] == i
    ensures active == task.PassedBelow(|task.bodies|, 0)
  {
    forall d ensures d in active <==> d in task.PassedBelow(|task.bodies|, 0) {
      if 0 <= d < |active| { assert active[d] == d; }
    }
    IncreasingUnique(active, task.PassedBelow(|task.bodies|, 0));
  }
}
