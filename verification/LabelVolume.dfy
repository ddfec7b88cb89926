/** A label volume: a map from paths to files, changed one atomic replacement at a time. */
module LabelVolume {
  import opened Common

  /** A labeled row: the ids are ranked as text, and `source` says where the label comes from. */
  datatype LabelRow = LabelRow(left: int, right: Option<int>, answer: bool, source: int)

  datatype Path =
    | PartPath(labels: nat, start: nat, end: nat)
    | CompactPath(labels: nat)
    | ManifestPath(labels: nat)

  datatype File = Rows(rows: seq<LabelRow>) | Running(expected: nat) | Complete(stats: Stats, compactRows: nat)

  /** `_parts_stats` */
  datatype Stats = Stats(rows: nat, trueRows: nat, sources: multiset<int>)

  type Files = map<Path, File>

  /** One thing a labeling session does. A judge that raises gives no rows. */
  datatype Step =
    | Start(labels: nat, expected: nat)
    | Label(labels: nat, start: nat, end: nat, rows: Option<seq<LabelRow>>)
    | Compact(labels: nat, parts: seq<Path>, expected: nat)
    | Finish(labels: nat, parts: seq<Path>, expected: nat)

  /** What a step does to the volume. */
  datatype Effect = Nothing | Raise | Put(path: Path, file: File)

  predicate Present(files: Files, parts: seq<Path>) {
    forall k :: 0 <= k < |parts| ==> parts[k].PartPath? && parts[k] in files && files[parts[k]].Rows?
  }

  /** The rows of some parts, one part after the other. */
  function Joined(files: Files, parts: seq<Path>): seq<LabelRow>
    requires Present(files, parts)
  {
    if parts == [] then [] else Joined(files, parts[..|parts| - 1]) + files[parts[|parts| - 1]].rows
  }

  function TrueRows(rows: seq<LabelRow>): nat {
    if rows == [] then 0 else TrueRows(rows[..|rows| - 1]) + if rows[|rows| - 1].answer then 1 else 0
  }

  function Sources(rows: seq<LabelRow>): multiset<int> {
    if rows == [] then multiset{} else Sources(rows[..|rows| - 1]) + multiset{rows[|rows| - 1].source}
  }

  function StatsOf(rows: seq<LabelRow>): Stats {
    Stats(|rows|, TrueRows(rows), Sources(rows))
  }

  /** The saved parts are all there and hold as many rows as expected. */
  predicate Saved(files: Files, parts: seq<Path>, expected: nat) {
    Present(files, parts) && |Joined(files, parts)| == expected
  }

  function Act(step: Step, files: Files): Effect {
    match step
    case Start(labels, expected) =>
      if ManifestPath(labels) in files then Nothing else Put(ManifestPath(labels), Running(expected))
    case Label(labels, start, end, rows) =>
      if PartPath(labels, start, end) in files then
        Nothing
      else if rows.None? then
        Raise
      else
        Put(PartPath(labels, start, end), Rows(rows.value))
    case Compact(labels, parts, expected) =>
      if !Saved(files, parts, expected) then
        Raise
      else if CompactPath(labels) !in files then
        Put(CompactPath(labels), Rows(Joined(files, parts)))
      else if files[CompactPath(labels)].Rows? && |files[CompactPath(labels)].rows| == expected then
        Nothing
      else
        Raise
    case Finish(labels, parts, expected) =>
      if !Saved(files, parts, expected) then
        Raise
      else
        Put(ManifestPath(labels), Complete(StatsOf(Joined(files, parts)), expected))
  }

  function After(effect: Effect, files: Files): Files {
    if effect.Put? then files[effect.path := effect.file] else files
  }

  /** The volume after some steps, which stop at the first that raises. */
  function Run(files: Files, steps: seq<Step>): Files {
    if steps == [] then
      files
    else
      var n := |steps| - 1;
      var before := Run(files, steps[..n]);
      if Succeeds(files, steps[..n]) then After(Act(steps[n], before), before) else before
  }

  predicate Succeeds(files: Files, steps: seq<Step>) {
    if steps == [] then
      true
    else
      var n := |steps| - 1;
      Succeeds(files, steps[..n]) && !Act(steps[n], Run(files, steps[..n])).Raise?
  }

  lemma {:induction false} RunAppend(files: Files, a: seq<Step>, b: seq<Step>)
    ensures Succeeds(files, a) ==> Run(files, a + b) == Run(Run(files, a), b)
    ensures Succeeds(files, a + b) <==> Succeeds(files, a) && Succeeds(Run(files, a), b)
    ensures !Succeeds(files, a) ==> Run(files, a + b) == Run(files, a)
    decreases |b|
  {
    if b == [] {
      assert a + b == a;
    } else {
      RunAppend(files, a, b[..|b| - 1]);
      assert (a + b)[..|a + b| - 1] == a + b[..|b| - 1];
    }
  }

  predicate OneWay(a: Step, b: Step) {
    a.Finish? && b.Finish? && a.labels == b.labels ==> a == b
  }

  /** A label set is finished in one way. */
  ghost predicate OneFinish(steps: seq<Step>) {
    forall i, j :: 0 <= i < |steps| && 0 <= j < |steps| ==> OneWay(steps[i], steps[j])
  }

  /** Doing the step again changes nothing. */
  predicate Settled(step: Step, files: Files) {
    var effect := Act(step, files);
    !effect.Raise? && After(effect, files) == files
  }

  /** What a step leaves in place: only manifests are ever replaced. */
  ghost predicate Keeps(before: Files, after: Files) {
    forall path :: path in before ==> path in after && (path.ManifestPath? || after[path] == before[path])
  }

  lemma ActKeeps(step: Step, files: Files)
    ensures Keeps(files, After(Act(step, files), files))
  {
  }

  lemma {:induction false} JoinedKept(before: Files, after: Files, parts: seq<Path>)
    requires Keeps(before, after) && Present(before, parts)
    ensures Present(after, parts) && Joined(after, parts) == Joined(before, parts)
  {
    if parts != [] {
      JoinedKept(before, after, parts[..|parts| - 1]);
    }
  }

  lemma ActSettles(step: Step, files: Files)
    requires !Act(step, files).Raise?
    ensures Settled(step, After(Act(step, files), files))
  {
    var after := After(Act(step, files), files);
    ActKeeps(step, files);
    if step.Compact? || step.Finish? {
      JoinedKept(files, after, step.parts);
    }
  }

  /** A later step does not undo an earlier one. */
  lemma StaysSettled(step: Step, next: Step, files: Files)
    requires Settled(step, files)
    requires OneWay(step, next)
    ensures Settled(step, After(Act(next, files), files))
  {
    var after := After(Act(next, files), files);
    ActKeeps(next, files);
    if step.Compact? || step.Finish? {
      JoinedKept(files, after, step.parts);
    }
  }

  lemma {:induction false} RunSettles(files: Files, steps: seq<Step>, i: nat)
    requires Succeeds(files, steps) && OneFinish(steps) && i < |steps|
    ensures Settled(steps[i], Run(files, steps))
  {
    var n := |steps| - 1;
    if i < n {
      RunSettles(files, steps[..n], i);
      StaysSettled(steps[i], steps[n], Run(files, steps[..n]));
    } else {
      ActSettles(steps[n], Run(files, steps[..n]));
    }
  }

  lemma {:induction false} SettledRun(files: Files, steps: seq<Step>)
    requires forall i :: 0 <= i < |steps| ==> Settled(steps[i], files)
    ensures Run(files, steps) == files && Succeeds(files, steps)
  {
    if steps != [] {
      SettledRun(files, steps[..|steps| - 1]);
    }
  }

  /** Steps that were done can be done again. */
  lemma RunTwice(files: Files, steps: seq<Step>)
    requires Succeeds(files, steps) && OneFinish(steps)
    ensures Run(Run(files, steps), steps) == Run(files, steps) && Succeeds(Run(files, steps), steps)
  {
    forall i | 0 <= i < |steps| ensures Settled(steps[i], Run(files, steps)) {
      RunSettles(files, steps, i);
    }
    SettledRun(Run(files, steps), steps);
  }

  /** A session that died after its first n steps, run again from the start, ends as one that never died:
      with the same files, and raising or not just the same. */
  lemma Resumes(files: Files, steps: seq<Step>, n: nat)
    requires n <= |steps| && Succeeds(files, steps[..n]) && OneFinish(steps)
    ensures Run(Run(files, steps[..n]), steps) == Run(files, steps)
    ensures Succeeds(Run(files, steps[..n]), steps) <==> Succeeds(files, steps)
  {
    var (done, rest) := (steps[..n], steps[n..]);
    assert steps == done + rest;
    RunTwice(files, done);
    RunAppend(files, done, rest);
    RunAppend(Run(files, done), done, rest);
  }

  /** Any number of sessions that die, each after some of its steps. */
  function Deaths(files: Files, steps: seq<Step>, lives: seq<nat>): Files
    requires forall k :: 0 <= k < |lives| ==> lives[k] <= |steps|
  {
    if lives == [] then
      files
    else
      var n := |lives| - 1;
      Run(Deaths(files, steps, lives[..n]), steps[..lives[n]])
  }

  /** What a raising session leaves is what its steps before the raise leave. */
  lemma {:induction false} RaisesAt(files: Files, steps: seq<Step>) returns (n: nat)
    ensures n <= |steps| && Succeeds(files, steps[..n]) && Run(files, steps[..n]) == Run(files, steps)
  {
    n := |steps|;
    if steps != [] && !Succeeds(files, steps) {
      var m := |steps| - 1;
      if Succeeds(files, steps[..m]) {
        n := m;
      } else {
        n := RaisesAt(files, steps[..m]);
        assert steps[..m][..n] == steps[..n];
      }
    } else {
      assert steps[..n] == steps;
    }
  }

  /** Labeling resumed after any number of crashes, anywhere, ends as an uninterrupted session does. */
  lemma {:induction false} ResumesAlways(files: Files, steps: seq<Step>, lives: seq<nat>)
    requires OneFinish(steps) && forall k :: 0 <= k < |lives| ==> lives[k] <= |steps|
    ensures Run(Deaths(files, steps, lives), steps) == Run(files, steps)
    ensures Succeeds(Deaths(files, steps, lives), steps) <==> Succeeds(files, steps)
  {
    if lives != [] {
      var m := |lives| - 1;
      var before := Deaths(files, steps, lives[..m]);
      ResumesAlways(files, steps, lives[..m]);
      var n := RaisesAt(before, steps[..lives[m]]);
      assert steps[..lives[m]][..n] == steps[..n];
      Resumes(before, steps, n);
    }
  }
}
