/** Scoring a request's trailing rows across prefill chunks (`pool_decision_rows`). */
module Pooling {
  import opened Common
  import opened Sorting

  /** A row of hidden values, known only by identity. */
  type Row = nat

  type Scores = seq<Score>

  /** An option's score, or the NaN that makes the caller rerun the request. */
  datatype Score = NaN | Score(value: int)

  /** The decision head scores each request of a batch by itself. */
  type Head = (seq<Row>, Row) -> Scores

  /** The last n rows. */
  function Tail(rows: seq<Row>, n: nat): (r: seq<Row>)
    ensures |r| == Min(n, |rows|)
  {
    if |rows| <= n then rows else rows[|rows| - n..]
  }

  lemma TailRight(a: seq<Row>, b: seq<Row>, n: nat)
    requires n <= |b|
    ensures Tail(a + b, n) == Tail(b, n)
  {
  }

  lemma TailLeft(a: seq<Row>, b: seq<Row>, n: nat)
    requires |b| <= n
    ensures Tail(a + b, n) == Tail(a, n - |b|) + b
  {
  }

  lemma TailTwice(a: seq<Row>, m: nat, n: nat)
    requires m <= n
    ensures Tail(Tail(a, n), m) == Tail(a, m)
  {
  }

  /** Keeping the last rows of each chunk keeps the last rows of all. */
  lemma TailOfTails(a: seq<Row>, b: seq<Row>, n: nat)
    ensures Tail(Tail(a, n) + Tail(b, n), n) == Tail(a + b, n)
  {
    if n <= |b| {
      TailRight(a, b, n);
      TailRight(Tail(a, n), Tail(b, n), n);
      TailTwice(b, n, n);
    } else {
      TailLeft(a, b, n);
      TailLeft(Tail(a, n), b, n);
      TailTwice(a, n - |b|, n);
    }
  }

  /** One more than the largest offset. */
  function Need(offsets: seq<nat>): (r: nat)
    ensures forall i :: 0 <= i < |offsets| ==> offsets[i] < r
    ensures offsets != [] ==> exists i :: 0 <= i < |offsets| && r == offsets[i] + 1
  {
    if offsets == [] then
      0
    else
      var n := |offsets| - 1;
      Max(Need(offsets[..n]), offsets[n] + 1)
  }

  /** The rows at the offsets, counted from the last row. */
  function Picked(rows: seq<Row>, offsets: seq<nat>): (r: seq<Row>)
    requires |rows| >= Need(offsets)
    ensures |r| == |offsets|
  {
    seq(|offsets|, i requires 0 <= i < |offsets| => rows[|rows| - 1 - offsets[i]])
  }

  /** An offset counts the rows after the one it names. */
  lemma PickedNamed(before: seq<Row>, row: Row, after: seq<Row>, offsets: seq<nat>, i: nat)
    requires i < |offsets| && offsets[i] == |after| && |before| + 1 + |after| >= Need(offsets)
    ensures Picked(before + [row] + after, offsets)[i] == row
  {
    assert (before + [row] + after)[|before|] == row;
  }

  /** The options' rows, and the last offset's row. */
  function ScoreRows(head: Head, picked: seq<Row>): Scores
    requires picked != []
  {
    head(picked[..|picked| - 1], picked[|picked| - 1])
  }

  function NoScores(offsets: seq<nat>): Scores
    requires offsets != []
  {
    seq(|offsets| - 1, _ => NaN)
  }

  /** What a finished request gets for its rows. */
  function ScoresOf(head: Head, rows: seq<Row>, offsets: seq<nat>): Scores
    requires offsets != []
  {
    if |rows| < Need(offsets) then NoScores(offsets) else ScoreRows(head, Picked(rows, offsets))
  }

  /** Only the last rows matter. */
  lemma TailScores(head: Head, rows: seq<Row>, offsets: seq<nat>)
    requires offsets != []
    ensures ScoresOf(head, Tail(rows, Need(offsets)), offsets) == ScoresOf(head, rows, offsets)
  {
    var tail := Tail(rows, Need(offsets));
    if |rows| >= Need(offsets) {
      assert Picked(tail, offsets) == Picked(rows, offsets);
    }
  }

  /** A request's row cache between steps: nothing, or one block of rows. */
  class PoolingState {
    var cache: seq<seq<Row>>

    constructor ()
      ensures Rows() == []
    {
      cache := [];
    }

    function Rows(): seq<Row>
      reads this
    {
      Joined(cache)
    }

    /** Add a chunk's last rows, and keep one block. */
    method Append(chunk: seq<Row>, need: nat)
      requires |cache| <= 1
      modifies this
      ensures |cache| == 1 && Rows() == Tail(old(Rows()) + Tail(chunk, need), need)
    {
      JoinedAppend(cache, Tail(chunk, need));
      cache := cache + [Tail(chunk, need)];
      if |cache| > 1 {
        cache := [Tail(Joined(cache), need)];
        JoinedAppend([], cache[0]);
      } else {
        assert old(Rows()) + Tail(chunk, need) == Tail(chunk, need);
      }
    }

    method Clean()
      modifies this
      ensures cache == []
    {
      cache := [];
    }
  }

  /** `torch.cat` */
  function Joined(blocks: seq<seq<Row>>): seq<Row> {
    if blocks == [] then [] else Joined(blocks[..|blocks| - 1]) + blocks[|blocks| - 1]
  }

  lemma JoinedOne(blocks: seq<seq<Row>>)
    requires |blocks| == 1
    ensures Joined(blocks) == blocks[0]
  {
    assert blocks[..0] == [];
  }

  lemma JoinedAppend(blocks: seq<seq<Row>>, block: seq<Row>)
    ensures Joined(blocks + [block]) == Joined(blocks) + block
  {
    assert (blocks + [block])[..|blocks|] == blocks;
  }

  /** A request of a step: one without offsets only warms the engine up. */
  datatype Params = Warmup | Options(offsets: seq<nat>)

  /** What a request gets from a step: nothing while it prefills. */
  datatype Pooled = Prefilling | First(row: Row) | Pooled(scores: Scores)

  /** The rows a request has after a chunk. */
  function Kept(rows: seq<Row>, chunk: seq<Row>, need: nat): seq<Row> {
    Tail(rows + Tail(chunk, need), need)
  }

  /** What a request should get: the scores of its rows when it is finished. */
  function Due(head: Head, chunk: seq<Row>, done: bool, param: Params, rows: seq<Row>): Pooled
    requires param.Options? ==> param.offsets != []
    requires param.Warmup? && done ==> chunk != []
  {
    if !done then
      Prefilling
    else
      match param
      case Warmup => First(chunk[|chunk| - 1])
      case Options(offsets) => Pooled(ScoresOf(head, Kept(rows, chunk, Need(offsets)), offsets))
  }

  /** The request waits for the head: it is finished and has enough rows. */
  predicate Waits(chunk: seq<Row>, done: bool, param: Params, rows: seq<Row>) {
    done && param.Options? && |Kept(rows, chunk, Need(param.offsets))| >= Need(param.offsets)
  }

  /** One request's rows, picked for its group. */
  datatype Member = Member(index: nat, rows: seq<Row>)

  type Groups = map<seq<nat>, seq<Member>>

  /** Some member of the request's group is the request. */
  ghost predicate Listed(groups: Groups, offsets: seq<nat>, i: nat) {
    offsets in groups && exists k :: 0 <= k < |groups[offsets]| && groups[offsets][k].index == i
  }

  /** Every member is of a request that waits, with the rows that decide what it should get. */
  ghost predicate GroupsOk(head: Head, groups: Groups, waiting: set<nat>, due: seq<Pooled>) {
    forall offsets :: offsets in groups ==> GroupOk(head, groups[offsets], waiting, due)
  }

  ghost predicate GroupOk(head: Head, members: seq<Member>, waiting: set<nat>, due: seq<Pooled>) {
    forall k :: 0 <= k < |members| ==> MemberOk(head, members[k], waiting, due)
  }

  ghost predicate MemberOk(head: Head, m: Member, waiting: set<nat>, due: seq<Pooled>) {
    && m.index in waiting && m.index < |due| && m.rows != []
    && due[m.index] == Pooled(ScoreRows(head, m.rows))
  }

  /** Score every group; `waiting` are the requests not scored yet. */
  method ScoreGroups(head: Head, groups: Groups, out: seq<Pooled>, ghost waiting: set<nat>, ghost due: seq<Pooled>,
                     ghost offsetsOf: map<nat, seq<nat>>)
    returns (scored: seq<Pooled>)
    requires |out| == |due| && GroupsOk(head, groups, waiting, due)
    requires forall i :: i in waiting ==> i in offsetsOf && Listed(groups, offsetsOf[i], i)
    requires forall i: nat :: i < |due| ==> out[i] == due[i] || i in waiting
    ensures scored == due
  {
    scored := out;
    var left := groups.Keys;
    while left != {}
      invariant left <= groups.Keys && |scored| == |due|
      invariant forall i: nat :: i < |due| ==> scored[i] == due[i] || (i in waiting && offsetsOf[i] in left)
      decreases |left|
    {
      var offsets := Any(left);
      scored := ScoreGroup(head, groups[offsets], scored, waiting, due);
      forall i: nat | i < |due| && i in waiting && offsetsOf[i] == offsets ensures scored[i] == due[i] {
        assert Listed(groups, offsetsOf[i], i);
      }
      left := left - {offsets};
    }
  }

  /** The head scores a group at once, each member by itself. */
  method ScoreGroup(head: Head, members: seq<Member>, out: seq<Pooled>, ghost waiting: set<nat>, ghost due: seq<Pooled>)
    returns (scored: seq<Pooled>)
    requires |out| == |due| && GroupOk(head, members, waiting, due)
    ensures |scored| == |due|
    ensures forall i: nat :: i < |due| ==> scored[i] == out[i] || scored[i] == due[i]
    ensures forall k :: 0 <= k < |members| ==> scored[members[k].index] == due[members[k].index]
  {
    scored := out;
    for k := 0 to |members|
      invariant |scored| == |due|
      invariant forall i: nat :: i < |due| ==> scored[i] == out[i] || scored[i] == due[i]
      invariant forall j :: 0 <= j < k ==> scored[members[j].index] == due[members[j].index]
    {
      assert MemberOk(head, members[k], waiting, due);
      scored := scored[members[k].index := Pooled(ScoreRows(head, members[k].rows))];
    }
  }

  /** Add a member to its group. */
  function Grouped(groups: Groups, offsets: seq<nat>, m: Member): Groups {
    groups[offsets := (if offsets in groups then groups[offsets] else []) + [m]]
  }

  lemma GroupedOk(head: Head, groups: Groups, waiting: set<nat>, due: seq<Pooled>, offsets: seq<nat>, m: Member)
    requires GroupsOk(head, groups, waiting, due) && MemberOk(head, m, waiting + {m.index}, due)
    ensures GroupsOk(head, Grouped(groups, offsets, m), waiting + {m.index}, due)
    ensures Listed(Grouped(groups, offsets, m), offsets, m.index)
    ensures forall o, i :: Listed(groups, o, i) ==> Listed(Grouped(groups, offsets, m), o, i)
  {
    var after := Grouped(groups, offsets, m);
    forall o | o in after ensures GroupOk(head, after[o], waiting + {m.index}, due) {
      if o in groups {
        assert GroupOk(head, groups[o], waiting, due);
      }
    }
    assert after[offsets][|after[offsets]| - 1] == m;
    forall o, i | Listed(groups, o, i) ensures Listed(after, o, i) {
      var k :| 0 <= k < |groups[o]| && groups[o][k].index == i;
      assert after[o][k] == groups[o][k];
    }
  }

  /** What a step does to a request's rows. */
  ghost predicate Advanced(state: PoolingState, before: seq<seq<Row>>, chunk: seq<Row>, done: bool, param: Params)
    reads state
  {
    match param
    case Warmup => state.cache == before
    case Options(offsets) =>
      if done then state.cache == []
      else |state.cache| == 1 && state.Rows() == Kept(Joined(before), chunk, Need(offsets))
  }

  /** What one request's chunk leads to. */
  datatype Taken = Out(pooled: Pooled) | ToScore(rows: seq<Row>)

  /** Take one request's chunk: keep its last rows, and pick them when it is finished. */
  method TakeChunk(head: Head, chunk: seq<Row>, done: bool, param: Params, state: PoolingState) returns (r: Taken)
    requires |state.cache| <= 1
    requires param.Options? ==> param.offsets != []
    requires param.Warmup? && done ==> chunk != []
    modifies state
    ensures Advanced(state, old(state.cache), chunk, done, param)
    ensures r.Out? ==> r.pooled == Due(head, chunk, done, param, old(state.Rows()))
    ensures r.ToScore? ==> param.Options? && r.rows != []
    ensures r.ToScore? ==> Due(head, chunk, done, param, old(state.Rows())) == Pooled(ScoreRows(head, r.rows))
  {
    if param.Warmup? {
      return Out(if done then First(chunk[|chunk| - 1]) else Prefilling);
    }
    var need := Need(param.offsets);
    state.Append(chunk, need);
    if !done {
      return Out(Prefilling);
    }
    var rows := state.cache[0];
    JoinedOne(state.cache);
    assert rows == Kept(old(state.Rows()), chunk, need);
    state.Clean();
    if |rows| < need {
      return Out(Pooled(NoScores(param.offsets)));
    }
    r := ToScore(Picked(rows, param.offsets));
  }

  ghost function CachesOf(states: seq<PoolingState>): (r: seq<seq<seq<Row>>>)
    reads set s | s in states
    ensures |r| == |states| && forall i :: 0 <= i < |r| ==> r[i] == states[i].cache
  {
    if states == [] then [] else CachesOf(states[..|states| - 1]) + [states[|states| - 1].cache]
  }

  /** What is asked of one step: per request a chunk, whether it is the last, and the options. */
  datatype Ask = Ask(chunk: seq<Row>, done: bool, param: Params) {
    predicate Valid() {
      (param.Options? ==> param.offsets != []) && (param.Warmup? && done ==> chunk != [])
    }

    function DueFor(head: Head, rows: seq<Row>): Pooled
      requires Valid()
    {
      Due(head, chunk, done, param, rows)
    }
  }

  /** The first n requests of a step have been taken. */
  ghost predicate TakenUpTo(states: seq<PoolingState>, before: seq<seq<seq<Row>>>, asks: seq<Ask>, n: nat)
    requires |asks| == |states| == |before|
    reads set s | s in states
  {
    && (forall j :: 0 <= j < n && j < |states| ==>
          Advanced(states[j], before[j], asks[j].chunk, asks[j].done, asks[j].param))
    && (forall j :: n <= j < |states| ==> states[j].cache == before[j])
  }

  /** Take the n-th request's chunk; the others' caches stay. */
  method TakeAt(head: Head, asks: seq<Ask>, states: seq<PoolingState>, n: nat, ghost before: seq<seq<seq<Row>>>)
    returns (r: Taken)
    requires |asks| == |states| == |before| && Distinct(states) && n < |states|
    requires asks[n].Valid() && |before[n]| <= 1 && TakenUpTo(states, before, asks, n)
    modifies set s | s in states
    ensures TakenUpTo(states, before, asks, n + 1)
    ensures r.Out? ==> r.pooled == asks[n].DueFor(head, Joined(before[n]))
    ensures r.ToScore? ==> asks[n].param.Options? && r.rows != []
    ensures r.ToScore? ==> asks[n].DueFor(head, Joined(before[n])) == Pooled(ScoreRows(head, r.rows))
  {
    r := TakeChunk(head, asks[n].chunk, asks[n].done, asks[n].param, states[n]);
    assert forall j :: 0 <= j < |states| && j != n ==> states[j] != states[n];
  }

  /** `pool_decision_rows`: each request gets what its own rows decide, whichever requests share its step. */
  method PoolDecisionRows(head: Head, asks: seq<Ask>, states: seq<PoolingState>)
    returns (out: seq<Pooled>)
    requires |asks| == |states| && Distinct(states)
    requires forall i :: 0 <= i < |states| ==> |states[i].cache| <= 1 && asks[i].Valid()
    modifies set s | s in states
    ensures |out| == |asks| && TakenUpTo(states, old(CachesOf(states)), asks, |asks|)
    ensures forall i :: 0 <= i < |asks| ==> out[i] == asks[i].DueFor(head, old(states[i].Rows()))
  {
    ghost var before := CachesOf(states);
    assert forall i :: 0 <= i < |states| ==> |before[i]| <= 1;
    ghost var due := seq(|asks|, i requires 0 <= i < |asks| => asks[i].DueFor(head, Joined(before[i])));
    var groups: Groups := map[];
    ghost var waiting: map<nat, seq<nat>> := map[];
    out := [];
    for i := 0 to |asks|
      invariant TakenUpTo(states, before, asks, i)
      invariant |out| == i && Tracks(head, groups, waiting, out, due)
    {
      var taken := TakeAt(head, asks, states, i, before);
      if taken.ToScore? {
        TracksMember(head, groups, waiting, out, due, asks[i].param.offsets, taken.rows);
        groups := Grouped(groups, asks[i].param.offsets, Member(i, taken.rows));
        waiting := waiting[i := asks[i].param.offsets];
        out := out + [Prefilling];
      } else {
        TracksOut(head, groups, waiting, out, due, taken.pooled);
        out := out + [taken.pooled];
      }
    }
    out := ScoreGroups(head, groups, out, waiting.Keys, due, waiting);
  }

  /** Every request so far has what it should get, or waits in its group. */
  ghost predicate Tracks(head: Head, groups: Groups, waiting: map<nat, seq<nat>>, out: seq<Pooled>, due: seq<Pooled>) {
    && |out| <= |due| && GroupsOk(head, groups, waiting.Keys, due)
    && (forall j :: j in waiting ==> j < |out| && Listed(groups, waiting[j], j))
    && forall j: nat :: j < |out| ==> out[j] == due[j] || j in waiting
  }

  lemma TracksOut(head: Head, groups: Groups, waiting: map<nat, seq<nat>>, out: seq<Pooled>, due: seq<Pooled>,
                  pooled: Pooled)
    requires Tracks(head, groups, waiting, out, due) && |out| < |due| && due[|out|] == pooled
    ensures Tracks(head, groups, waiting, out + [pooled], due)
  {
  }

  lemma TracksMember(head: Head, groups: Groups, waiting: map<nat, seq<nat>>, out: seq<Pooled>, due: seq<Pooled>,
                     offsets: seq<nat>, rows: seq<Row>)
    requires Tracks(head, groups, waiting, out, due) && |out| < |due|
    requires rows != [] && due[|out|] == Pooled(ScoreRows(head, rows))
    ensures Tracks(head, Grouped(groups, offsets, Member(|out|, rows)), waiting[|out| := offsets], out + [Prefilling],
                   due)
  {
    var (m, more) := (Member(|out|, rows), waiting[|out| := offsets]);
    assert more.Keys == waiting.Keys + {|out|};
    GroupedOk(head, groups, waiting.Keys, due, offsets, m);
    forall j | j in more ensures Listed(Grouped(groups, offsets, m), more[j], j) {
      if j != |out| {
        assert Listed(groups, waiting[j], j);
      }
    }
  }

  /** The rows a request has after its chunks. */
  function AfterChunks(chunks: seq<seq<Row>>, need: nat): seq<Row> {
    if chunks == [] then [] else Kept(AfterChunks(chunks[..|chunks| - 1], need), chunks[|chunks| - 1], need)
  }

  lemma {:induction false} AfterChunksTail(chunks: seq<seq<Row>>, need: nat)
    ensures AfterChunks(chunks, need) == Tail(Joined(chunks), need)
  {
    if chunks != [] {
      var n := |chunks| - 1;
      AfterChunksTail(chunks[..n], need);
      TailOfTails(Joined(chunks[..n]), chunks[n], need);
    }
  }

  /** However a request's rows are split into chunks, it gets the scores of the rows at its offsets, and
      NaN exactly when it has fewer rows than the largest offset needs. */
  lemma ChunksDoNotMatter(head: Head, chunks: seq<seq<Row>>, offsets: seq<nat>)
    requires chunks != [] && offsets != []
    ensures var n := |chunks| - 1;
      Due(head, chunks[n], true, Options(offsets), AfterChunks(chunks[..n], Need(offsets)))
        == Pooled(if |Joined(chunks)| < Need(offsets) then NoScores(offsets)
                  else ScoreRows(head, Picked(Joined(chunks), offsets)))
  {
    AfterChunksTail(chunks, Need(offsets));
    TailScores(head, Joined(chunks), offsets);
  }
}
