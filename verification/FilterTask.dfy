/** What a filter sequence must compute, and every way its completions can interleave.

    `Task` is the question set; `Reference...` is the answer a reader would write down without any
    scheduling.  `Progress` is the scheduler's state with the request ids taken away: admissions and
    completions, in whatever order they happen. */
module FilterTask {
  import opened Common
  import opened Prompts
  import opened Sorting

  /** Documents, questions, and the model: an answer depends on the prompt alone. */
  datatype Task = Task(bodies: seq<Prompt>, questions: seq<Prompt>, truth: Prompt -> bool) {

    function PromptOf(document: nat, stage: nat): Prompt
      requires document < |bodies| && stage < |questions|
    {
      bodies[document] + questions[stage]
    }

    predicate Truth(document: nat, stage: nat)
      requires document < |bodies| && stage < |questions|
    {
      truth(PromptOf(document, stage))
    }

    /** The document answers TRUE to its first `stages` questions. */
    predicate Passed(document: nat, stages: nat)
      requires document < |bodies| && stages <= |questions|
    {
      forall stage: nat :: stage < stages ==> Truth(document, stage)
    }

    /** The document is asked this question: it passed all earlier ones. */
    predicate Asked(document: nat, stage: nat) {
      document < |bodies| && stage < |questions| && Passed(document, stage)
    }

    predicate Survives(document: nat) {
      document < |bodies| && Passed(document, |questions|)
    }

    /** Documents below n that pass the first `stages` questions, in document order. */
    ghost function PassedBelow(n: nat, stages: nat): (r: seq<int>)
      requires n <= |bodies| && stages <= |questions|
      ensures Increasing(r)
      ensures forall d :: d in r <==> 0 <= d < n && Passed(d, stages)
    {
      if n == 0 then
        []
      else
        var before := PassedBelow(n - 1, stages);
        assert forall i :: 0 <= i < |before| ==> before[i] in before;
        if Passed(n - 1, stages) then before + [n - 1] else before
    }

    ghost function SurvivorsBelow(n: nat): seq<int>
      requires n <= |bodies|
    {
      PassedBelow(n, |questions|)
    }

    /** The answers of a correct evaluation; stages count from `base`. */
    ghost function Reference(base: nat): map<Cell, bool> {
      map cell | cell in AskedCells(base) :: Truth(cell.0, cell.1 - base)
    }

    ghost function AskedCells(base: nat): (r: set<Cell>)
      ensures forall d: nat, k: nat :: (d, k) in r <==> base <= k && Asked(d, k - base)
    {
      set d: nat, s: nat | d < |bodies| && s < |questions| && Asked(d, s) :: (d, s + base)
    }

    /** Tokens of one cell's prompt; stages count from `base`. */
    function CellTokens(cell: Cell, base: nat): nat {
      if cell.0 < |bodies| && base <= cell.1 < base + |questions| then
        |PromptOf(cell.0, cell.1 - base)|
      else
        0
    }

    ghost function PromptTokens(cells: set<Cell>, base: nat): nat {
      if cells == {} then
        0
      else
        var cell :| cell in cells;
        CellTokens(cell, base) + PromptTokens(cells - {cell}, base)
    }

    lemma {:induction false} PromptTokensAdd(cells: set<Cell>, cell: Cell, base: nat)
      requires cell !in cells
      ensures PromptTokens(cells + {cell}, base) == PromptTokens(cells, base) + CellTokens(cell, base)
    {
      var all := cells + {cell};
      var first :| first in all && PromptTokens(all, base)
        == CellTokens(first, base) + PromptTokens(all - {first}, base);
      if first == cell {
        assert all - {first} == cells;
      } else {
        PromptTokensAdd(cells - {first}, cell, base);
        assert all - {first} == (cells - {first}) + {cell};
        PromptTokensAdd(cells - {first}, first, base);
        assert (cells - {first}) + {first} == cells;
      }
    }
  }

  function NextStage(cell: Cell): Cell {
    (cell.0, cell.1 + 1)
  }

  function NextStages(cells: set<Cell>): set<Cell> {
    set cell | cell in cells :: NextStage(cell)
  }

  /** Renumbering the stages by one does not change the tokens a set of cells costs. */
  lemma {:induction false} PromptTokensShift(task: Task, cells: set<Cell>)
    ensures task.PromptTokens(NextStages(cells), 1) == task.PromptTokens(cells, 0)
    ensures |NextStages(cells)| == |cells|
  {
    if cells == {} {
      assert NextStages(cells) == {};
    } else {
      var cell :| cell in cells;
      var rest := cells - {cell};
      PromptTokensShift(task, rest);
      assert rest + {cell} == cells;
      assert NextStages(rest) + {NextStage(cell)} == NextStages(cells);
      task.PromptTokensAdd(rest, cell, 0);
      task.PromptTokensAdd(NextStages(rest), NextStage(cell), 1);
    }
  }

  lemma CellsEqual(a: set<Cell>, b: set<Cell>)
    requires forall d: nat, k: nat :: (d, k) in a <==> (d, k) in b
    ensures a == b
  {
    forall cell: Cell ensures cell in a <==> cell in b {
      assert cell == (cell.0, cell.1);
    }
  }

  /** The scheduler's state without request ids: each in-flight document waits at one stage. */
  datatype Progress = Progress(
    next: nat,
    inflight: map<nat, nat>,
    answers: map<Cell, bool>,
    survivors: seq<nat>,
    requests: nat,
    promptTokens: nat)

  datatype Event = Admit | Complete(document: nat)

  const START := Progress(0, map[], map[], [], 0, 0)

  predicate Enabled(task: Task, cap: nat, p: Progress, e: Event) {
    match e
    case Admit => p.next < |task.bodies| && |p.inflight.Keys| < cap
    case Complete(d) => d in p.inflight && d < |task.bodies| && p.inflight[d] < |task.questions|
  }

  /** One admission, or one completion: record the answer, then advance the document or settle it. */
  function Step(task: Task, cap: nat, p: Progress, e: Event): Progress
    requires Enabled(task, cap, p, e)
  {
    match e
    case Admit => p.(next := p.next + 1, inflight := p.inflight[p.next := 0])
    case Complete(d) =>
      var stage := p.inflight[d];
      var answer := task.Truth(d, stage);
      var recorded := p.(
        answers := p.answers[(d, stage + 1) := answer],
        requests := p.requests + 1,
        promptTokens := p.promptTokens + |task.PromptOf(d, stage)|);
      if answer && stage + 1 < |task.questions| then
        recorded.(inflight := p.inflight[d := stage + 1])
      else if answer then
        recorded.(inflight := p.inflight - {d}, survivors := p.survivors + [d])
      else
        recorded.(inflight := p.inflight - {d})
  }

  /** An in-flight document waits at one stage, with every earlier answer TRUE. */
  ghost predicate InflightOk(task: Task, cap: nat, p: Progress) {
    && |p.inflight.Keys| <= cap
    && forall d :: d in p.inflight ==> d < p.next && task.Asked(d, p.inflight[d])
  }

  /** Question k - 1 of document d is answered by now. */
  ghost predicate Answered(task: Task, p: Progress, d: nat, k: nat) {
    d < p.next && 1 <= k && task.Asked(d, k - 1) && (d in p.inflight ==> k <= p.inflight[d])
  }

  /** Exactly the questions before that stage are answered; a settled document has all of them. */
  ghost predicate AnswersOk(task: Task, p: Progress) {
    forall d: nat, k: nat {:trigger (d, k) in p.answers} {:trigger Answered(task, p, d, k)} :: AnswerOk(task, p, d, k)
  }

  ghost predicate AnswerOk(task: Task, p: Progress, d: nat, k: nat) {
    && ((d, k) in p.answers <==> Answered(task, p, d, k))
    && ((d, k) in p.answers ==> p.answers[(d, k)] == task.Truth(d, k - 1))
  }

  ghost predicate SurvivorsOk(task: Task, p: Progress) {
    && Distinct(p.survivors)
    && forall d: nat :: d in p.survivors <==> d < p.next && d !in p.inflight && task.Survives(d)
  }

  ghost predicate CountsOk(task: Task, p: Progress) {
    && p.requests == |p.answers.Keys|
    && p.promptTokens == task.PromptTokens(p.answers.Keys, 1)
  }

  /** What holds after every admission and completion. */
  ghost predicate Inv(task: Task, cap: nat, p: Progress) {
    && p.next <= |task.bodies|
    && InflightOk(task, cap, p) && AnswersOk(task, p) && SurvivorsOk(task, p) && CountsOk(task, p)
  }

  lemma InvStart(task: Task, cap: nat)
    ensures Inv(task, cap, START)
  {
    assert task.PromptTokens({}, 1) == 0;
    assert START.answers.Keys == {};
    assert forall d: nat, k: nat :: AnswerOk(task, START, d, k);
  }

  lemma InvAdmit(task: Task, cap: nat, p: Progress)
    requires Inv(task, cap, p) && Enabled(task, cap, p, Admit) && |task.questions| > 0
    ensures Inv(task, cap, Step(task, cap, p, Admit))
  {
    AdmitInflight(task, cap, p);
    AdmitAnswers(task, cap, p);
    AdmitSurvivors(task, cap, p);
  }

  lemma AdmitInflight(task: Task, cap: nat, p: Progress)
    requires InflightOk(task, cap, p) && Enabled(task, cap, p, Admit) && |task.questions| > 0
    ensures InflightOk(task, cap, Step(task, cap, p, Admit))
  {
    var q := Step(task, cap, p, Admit);
    assert q.inflight.Keys == p.inflight.Keys + {p.next};
    assert |q.inflight.Keys| == |p.inflight.Keys| + 1;
    assert task.Asked(p.next, 0);
  }

  lemma AdmitAnswers(task: Task, cap: nat, p: Progress)
    requires AnswersOk(task, p) && InflightOk(task, cap, p) && Enabled(task, cap, p, Admit)
    ensures AnswersOk(task, Step(task, cap, p, Admit))
  {
    var q := Step(task, cap, p, Admit);
    forall d: nat, k: nat ensures AnswerOk(task, q, d, k) {
      assert (d, k) in p.answers <==> Answered(task, p, d, k);
      assert Answered(task, q, d, k) <==> Answered(task, p, d, k);
    }
  }

  lemma AdmitSurvivors(task: Task, cap: nat, p: Progress)
    requires SurvivorsOk(task, p) && InflightOk(task, cap, p) && Enabled(task, cap, p, Admit)
    ensures SurvivorsOk(task, Step(task, cap, p, Admit))
  {
  }

  lemma InvComplete(task: Task, cap: nat, p: Progress, d: nat)
    requires Inv(task, cap, p) && Enabled(task, cap, p, Complete(d))
    ensures Inv(task, cap, Step(task, cap, p, Complete(d)))
  {
    CompleteInflight(task, cap, p, d);
    CompleteAnswers(task, cap, p, d);
    CompleteSurvivors(task, cap, p, d);
    CompleteCounts(task, cap, p, d);
  }

  lemma CompleteCounts(task: Task, cap: nat, p: Progress, d: nat)
    requires CountsOk(task, p) && AnswersOk(task, p) && Enabled(task, cap, p, Complete(d))
    ensures CountsOk(task, Step(task, cap, p, Complete(d)))
  {
    var q := Step(task, cap, p, Complete(d));
    var cell := (d, p.inflight[d] + 1);
    assert !Answered(task, p, cell.0, cell.1);
    assert cell !in p.answers.Keys;
    assert q.answers.Keys == p.answers.Keys + {cell};
    assert |q.answers.Keys| == |p.answers.Keys| + 1;
    task.PromptTokensAdd(p.answers.Keys, cell, 1);
  }

  /** The answers TRUE so far reach exactly one stage further when this one is TRUE. */
  lemma PassedNext(task: Task, d: nat, stage: nat)
    requires d < |task.bodies| && stage < |task.questions|
    ensures task.Passed(d, stage + 1) <==> task.Passed(d, stage) && task.Truth(d, stage)
  {
    assert task.Passed(d, stage + 1) ==> task.Truth(d, stage);
  }

  lemma CompleteInflight(task: Task, cap: nat, p: Progress, d: nat)
    requires Inv(task, cap, p) && Enabled(task, cap, p, Complete(d))
    ensures InflightOk(task, cap, Step(task, cap, p, Complete(d)))
  {
    var q := Step(task, cap, p, Complete(d));
    PassedNext(task, d, p.inflight[d]);
    assert q.inflight.Keys == p.inflight.Keys || q.inflight.Keys == p.inflight.Keys - {d};
    assert |q.inflight.Keys| <= |p.inflight.Keys|;
  }

  lemma CompleteAnswers(task: Task, cap: nat, p: Progress, d: nat)
    requires Inv(task, cap, p) && Enabled(task, cap, p, Complete(d))
    ensures AnswersOk(task, Step(task, cap, p, Complete(d)))
  {
    var q := Step(task, cap, p, Complete(d));
    var stage := p.inflight[d];
    assert task.Asked(d, stage);
    forall e: nat, k: nat ensures AnswerOk(task, q, e, k) {
      assert (e, k) in p.answers <==> Answered(task, p, e, k);
      CompleteAnswered(task, cap, p, d, e, k);
    }
  }

  lemma CompleteAnswered(task: Task, cap: nat, p: Progress, d: nat, e: nat, k: nat)
    requires InflightOk(task, cap, p) && Enabled(task, cap, p, Complete(d))
    ensures Answered(task, Step(task, cap, p, Complete(d)), e, k)
      <==> Answered(task, p, e, k) || (e, k) == (d, p.inflight[d] + 1)
  {
    if e == d && k > p.inflight[d] + 1 && task.Asked(d, k - 1) {
      assert task.Truth(d, p.inflight[d]);
    }
  }

  lemma CompleteSurvivors(task: Task, cap: nat, p: Progress, d: nat)
    requires Inv(task, cap, p) && Enabled(task, cap, p, Complete(d))
    ensures SurvivorsOk(task, Step(task, cap, p, Complete(d)))
  {
    var q := Step(task, cap, p, Complete(d));
    var stage := p.inflight[d];
    PassedNext(task, d, stage);
    assert task.Survives(d) ==> task.Truth(d, stage);
    assert d !in p.survivors;
  }

  /** A run of the scheduler: any enabled events, in any order. */
  ghost predicate IsRun(task: Task, cap: nat, states: seq<Progress>, events: seq<Event>) {
    && |states| == |events| + 1
    && states[0] == START
    && forall i {:trigger events[i]} :: 0 <= i < |events| ==>
         Enabled(task, cap, states[i], events[i]) && states[i + 1] == Step(task, cap, states[i], events[i])
  }

  /** Every reachable state is consistent. */
  lemma {:induction false} RunKeepsInv(task: Task, cap: nat, states: seq<Progress>, events: seq<Event>)
    requires |task.questions| > 0 && IsRun(task, cap, states, events)
    ensures forall i :: 0 <= i < |states| ==> Inv(task, cap, states[i])
  {
    InvStart(task, cap);
    for i := 0 to |events|
      invariant forall j :: 0 <= j <= i ==> Inv(task, cap, states[j])
    {
      match events[i]
      case Admit => InvAdmit(task, cap, states[i]);
      case Complete(d) => InvComplete(task, cap, states[i], d);
    }
  }

  ghost predicate Reachable(task: Task, cap: nat, p: Progress) {
    exists states: seq<Progress>, events: seq<Event> {:trigger IsRun(task, cap, states, events)} ::
      IsRun(task, cap, states, events) && states[|events|] == p
  }

  lemma StartReachable(task: Task, cap: nat)
    ensures Reachable(task, cap, START)
  {
    assert IsRun(task, cap, [START], []);
  }

  lemma StepReachable(task: Task, cap: nat, p: Progress, e: Event)
    requires Reachable(task, cap, p) && Enabled(task, cap, p, e)
    ensures Reachable(task, cap, Step(task, cap, p, e))
  {
    var states, events :| IsRun(task, cap, states, events) && states[|events|] == p;
    var q := Step(task, cap, p, e);
    assert IsRun(task, cap, states + [q], events + [e]);
    assert (states + [q])[|events + [e]|] == q;
  }

  lemma ReachableInv(task: Task, cap: nat, p: Progress)
    requires |task.questions| > 0 && Reachable(task, cap, p)
    ensures Inv(task, cap, p)
  {
    var states, events :| IsRun(task, cap, states, events) && states[|events|] == p;
    RunKeepsInv(task, cap, states, events);
  }

  predicate Finished(task: Task, p: Progress) {
    p.next == |task.bodies| && p.inflight == map[]
  }

  /** A finished state holds the reference answers, whatever the order that led to it. */
  lemma FinishedIsReference(task: Task, cap: nat, p: Progress)
    requires Inv(task, cap, p) && Finished(task, p)
    ensures p.answers == task.Reference(1)
    ensures SortInts(p.survivors) == task.SurvivorsBelow(|task.bodies|)
    ensures p.requests == |task.AskedCells(1)|
    ensures p.promptTokens == task.PromptTokens(task.AskedCells(1), 1)
  {
    FinishedAnswers(task, cap, p);
    FinishedSurvivors(task, cap, p);
  }

  lemma FinishedAnswers(task: Task, cap: nat, p: Progress)
    requires AnswersOk(task, p) && Finished(task, p)
    ensures p.answers == task.Reference(1) && p.answers.Keys == task.AskedCells(1)
  {
    CellsEqual(p.answers.Keys, task.AskedCells(1));
    forall cell | cell in p.answers ensures p.answers[cell] == task.Reference(1)[cell] {
      assert cell == (cell.0, cell.1);
    }
  }

  lemma FinishedSurvivors(task: Task, cap: nat, p: Progress)
    requires SurvivorsOk(task, p) && Finished(task, p)
    ensures SortInts(p.survivors) == task.SurvivorsBelow(|task.bodies|)
  {
    assert forall d: int :: d in p.survivors ==> d >= 0;
    SortDistinct(p.survivors, task.SurvivorsBelow(|task.bodies|));
  }

  /** Confluence: two finished runs, under any two caps, agree on every reported field. */
  lemma RunsAgree(task: Task, cap0: nat, states0: seq<Progress>, events0: seq<Event>,
                  cap1: nat, states1: seq<Progress>, events1: seq<Event>)
    requires |task.questions| > 0
    requires IsRun(task, cap0, states0, events0) && Finished(task, states0[|events0|])
    requires IsRun(task, cap1, states1, events1) && Finished(task, states1[|events1|])
    ensures states0[|events0|].answers == states1[|events1|].answers
    ensures SortInts(states0[|events0|].survivors) == SortInts(states1[|events1|].survivors)
    ensures states0[|events0|].requests == states1[|events1|].requests
    ensures states0[|events0|].promptTokens == states1[|events1|].promptTokens
  {
    RunKeepsInv(task, cap0, states0, events0);
    RunKeepsInv(task, cap1, states1, events1);
    FinishedIsReference(task, cap0, states0[|events0|]);
    FinishedIsReference(task, cap1, states1[|events1|]);
  }

  /** Asked cells without an answer yet. */
  ghost function Unanswered(task: Task, p: Progress): set<Cell> {
    task.AskedCells(1) - p.answers.Keys
  }

  lemma CompletionAnswers(task: Task, cap: nat, p: Progress, d: nat)
    requires AnswersOk(task, p) && InflightOk(task, cap, p) && Enabled(task, cap, p, Complete(d))
    ensures (d, p.inflight[d] + 1) in task.AskedCells(1)
    ensures (d, p.inflight[d] + 1) !in p.answers.Keys
    ensures Step(task, cap, p, Complete(d)).answers.Keys == p.answers.Keys + {(d, p.inflight[d] + 1)}
  {
    assert !Answered(task, p, d, p.inflight[d] + 1);
  }

  /** Each completion answers exactly one of the unanswered cells. */
  lemma CompletionDecreases(task: Task, cap: nat, p: Progress, d: nat)
    requires AnswersOk(task, p) && InflightOk(task, cap, p) && Enabled(task, cap, p, Complete(d))
    ensures |Unanswered(task, Step(task, cap, p, Complete(d)))| == |Unanswered(task, p)| - 1
  {
    var cell := (d, p.inflight[d] + 1);
    CompletionAnswers(task, cap, p, d);
    var after := Step(task, cap, p, Complete(d)).answers.Keys;
    assert after == p.answers.Keys + {cell};
    RemoveOne(task.AskedCells(1), p.answers.Keys, cell);
  }

  lemma RemoveOne(asked: set<Cell>, answered: set<Cell>, cell: Cell)
    requires cell in asked && cell !in answered
    ensures |asked - (answered + {cell})| == |asked - answered| - 1
  {
    assert asked - (answered + {cell}) == (asked - answered) - {cell};
  }

  /** In every reachable state an unfinished run can move exactly when the cap is positive, so it ends once every event
      has happened. */
  lemma NoDeadlock(task: Task, cap: nat, p: Progress)
    requires |task.questions| > 0 && Reachable(task, cap, p) && !Finished(task, p)
    ensures (exists e :: Enabled(task, cap, p, e)) <==> cap > 0
  {
    ReachableInv(task, cap, p);
    if p.inflight == map[] {
      assert p.inflight.Keys == {};
      assert cap > 0 ==> Enabled(task, cap, p, Admit);
    } else {
      var d :| d in p.inflight;
      assert d in p.inflight.Keys;
      assert Enabled(task, cap, p, Complete(d));
    }
  }

  /** With a cap of zero nothing is ever admitted: the run cannot finish unless it has no documents. */
  lemma {:induction false} ZeroCapStarves(task: Task, states: seq<Progress>, events: seq<Event>)
    requires IsRun(task, 0, states, events)
    ensures events == [] && (Finished(task, states[0]) <==> |task.bodies| == 0)
  {
    assert events != [] ==> !Enabled(task, 0, states[0], events[0]);
  }
}
