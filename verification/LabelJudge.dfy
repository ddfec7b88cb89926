/** What the judge answers for a batch of rows (`QuailJudge.filter` and `QuailJudge.join`). */
module LabelJudge {
  import opened Common
  import opened MatchingPairs

  /** An exception is `None`. */
  type Raising<T> = Option<T>

  /** The engine's answer tables, as functions of the registered rows. */
  type FilterEngine = seq<Row> -> seq<(nat, bool)>

  type JoinEngine = (seq<Row>, seq<Row>) -> seq<Reply>

  datatype Reply = Reply(left: nat, right: nat, answer: bool)

  /** The list of answers after some replies. */
  function Noted(n: nat, replies: seq<(nat, bool)>): (r: seq<Option<bool>>)
    requires forall k :: 0 <= k < |replies| ==> replies[k].0 < n
    ensures |r| == n
  {
    if replies == [] then
      Copies(n, None)
    else
      var last := replies[|replies| - 1];
      Noted(n, replies[..|replies| - 1])[last.0 := Some(last.1)]
  }

  ghost predicate Reports(replies: seq<(nat, bool)>, i: nat, answer: bool) {
    (i, answer) in replies
  }

  lemma {:induction false} NotedReported(n: nat, replies: seq<(nat, bool)>, i: nat)
    requires (forall k :: 0 <= k < |replies| ==> replies[k].0 < n) && i < n
    ensures Noted(n, replies)[i].None? <==> forall answer :: !Reports(replies, i, answer)
    ensures Noted(n, replies)[i].Some? ==> Reports(replies, i, Noted(n, replies)[i].value)
  {
    if replies != [] {
      var last := replies[|replies| - 1];
      var front := replies[..|replies| - 1];
      NotedReported(n, front, i);
      assert replies == front + [last];
      forall answer ensures Reports(replies, i, answer) <==> Reports(front, i, answer) || last == (i, answer) {
      }
      if last.0 == i {
        assert Reports(replies, i, last.1);
      }
    }
  }

  function Values(noted: seq<Option<bool>>): (r: seq<bool>)
    requires forall k :: 0 <= k < |noted| ==> noted[k].Some?
    ensures |r| == |noted| && forall k :: 0 <= k < |r| ==> r[k] == noted[k].value
  {
    seq(|noted|, k requires 0 <= k < |noted| => noted[k].value)
  }

  /** `QuailJudge.filter`: one answer per row, or an exception when a row has none. */
  function Filter(engine: FilterEngine, rows: seq<Row>): (r: Raising<seq<bool>>)
    ensures r.Some? ==> |r.value| == |rows|
  {
    if rows == [] then
      Some([])
    else
      var replies := engine(rows);
      if exists k :: 0 <= k < |replies| && replies[k].0 >= |rows| then
        None
      else
        var noted := Noted(|rows|, replies);
        if exists k :: 0 <= k < |noted| && noted[k].None? then None else Some(Values(noted))
  }

  /** A filter that reports each row's own answer gets them back; one that leaves a row out raises. */
  lemma FilterExact(engine: FilterEngine, rows: seq<Row>, truth: Row -> bool)
    requires forall k :: 0 <= k < |engine(rows)| ==>
      engine(rows)[k].0 < |rows| && engine(rows)[k].1 == truth(rows[engine(rows)[k].0])
    ensures Filter(engine, rows).Some?
      <==> forall i: nat :: i < |rows| ==> Reports(engine(rows), i, truth(rows[i]))
    ensures Filter(engine, rows).Some? ==>
      forall i :: 0 <= i < |rows| ==> Filter(engine, rows).value[i] == truth(rows[i])
  {
    var replies := engine(rows);
    forall i: nat | i < |rows|
      ensures Noted(|rows|, replies)[i] == if Reports(replies, i, truth(rows[i])) then Some(truth(rows[i])) else None
    {
      NotedReported(|rows|, replies, i);
      forall answer | Reports(replies, i, answer) ensures answer == truth(rows[i]) {
        var k :| 0 <= k < |replies| && replies[k] == (i, answer);
      }
    }
  }

  function Gathered(rows: seq<Row>, keep: seq<nat>): (r: seq<Row>)
    requires Below(keep, |rows|)
    ensures |r| == |keep| && forall k :: 0 <= k < |r| ==> r[k] == rows[keep[k]]
  {
    seq(|keep|, k requires 0 <= k < |keep| => rows[keep[k]])
  }

  ghost predicate WithinRows(replies: seq<Reply>, left: nat, right: nat) {
    forall k :: 0 <= k < |replies| ==> replies[k].left < left && replies[k].right < right
  }

  /** The answers, mapped back to the rows' own places. */
  function Remapped(keepLeft: seq<nat>, keepRight: seq<nat>, replies: seq<Reply>): map<Pair, bool>
    requires WithinRows(replies, |keepLeft|, |keepRight|)
  {
    if replies == [] then
      map[]
    else
      var last := replies[|replies| - 1];
      Remapped(keepLeft, keepRight, replies[..|replies| - 1])
        [(keepLeft[last.left], keepRight[last.right]) := last.answer]
  }

  function KeptLeft(spec: Option<PairSpec>, left: seq<Row>): (r: seq<nat>)
    ensures Below(r, |left|)
  {
    if spec.Some? then WhereRows(left, spec.value.leftWhere) else Indices(|left|)
  }

  function KeptRight(spec: Option<PairSpec>, right: seq<Row>): (r: seq<nat>)
    ensures Below(r, |right|)
  {
    if spec.Some? then WhereRows(right, spec.value.rightWhere) else Indices(|right|)
  }

  /** What the engine is asked, and what it replies. */
  function Replies(engine: JoinEngine, spec: Option<PairSpec>, left: seq<Row>, right: seq<Row>): seq<Reply> {
    engine(Gathered(left, KeptLeft(spec, left)), Gathered(right, KeptRight(spec, right)))
  }

  function ExpectedPairs(spec: Option<PairSpec>, left: seq<Row>, right: seq<Row>): nat {
    if spec.Some? then |Matching(spec.value, left, right)| else |left| * |right|
  }

  /** `QuailJudge.join` */
  function Join(engine: JoinEngine, spec: Option<PairSpec>, left: seq<Row>, right: seq<Row>): Raising<map<Pair, bool>> {
    if KeptLeft(spec, left) == [] || KeptRight(spec, right) == [] then
      Some(map[])
    else
      var replies := Replies(engine, spec, left, right);
      if exists k :: 0 <= k < |replies|
           && !(replies[k].left < |KeptLeft(spec, left)| && replies[k].right < |KeptRight(spec, right)|) then
        None
      else
        var answers := Remapped(KeptLeft(spec, left), KeptRight(spec, right), replies);
        if |answers| == ExpectedPairs(spec, left, right) then Some(answers) else None
  }

  /** The engine's replies are about pairs the query's `ON` condition lets through. */
  ghost predicate SoundReplies(spec: Option<PairSpec>, left: seq<Row>, right: seq<Row>, replies: seq<Reply>) {
    && WithinRows(replies, |KeptLeft(spec, left)|, |KeptRight(spec, right)|)
    && (spec.Some? ==> forall k :: 0 <= k < |replies| ==>
          var l := left[KeptLeft(spec, left)[replies[k].left]].get(spec.value.leftColumn);
          l.Some? && l == right[KeptRight(spec, right)[replies[k].right]].get(spec.value.rightColumn))
  }

  ghost predicate RepliedTo(spec: Option<PairSpec>, left: seq<Row>, right: seq<Row>, replies: seq<Reply>, p: Pair,
                            a: bool)
  {
    exists k :: 0 <= k < |replies| && RepliesWith(spec, left, right, replies[k], p, a)
  }

  ghost predicate RepliesWith(spec: Option<PairSpec>, left: seq<Row>, right: seq<Row>, reply: Reply, p: Pair, a: bool) {
    && reply.left < |KeptLeft(spec, left)| && reply.right < |KeptRight(spec, right)|
    && p == (KeptLeft(spec, left)[reply.left], KeptRight(spec, right)[reply.right]) && a == reply.answer
  }

  lemma {:induction false} RemappedReplies(spec: Option<PairSpec>, left: seq<Row>, right: seq<Row>, replies: seq<Reply>,
                                           p: Pair)
    requires WithinRows(replies, |KeptLeft(spec, left)|, |KeptRight(spec, right)|)
    ensures var answers := Remapped(KeptLeft(spec, left), KeptRight(spec, right), replies);
      && (p in answers <==> exists a :: RepliedTo(spec, left, right, replies, p, a))
      && (p in answers ==> RepliedTo(spec, left, right, replies, p, answers[p]))
  {
    if replies != [] {
      var (n, front) := (|replies| - 1, replies[..|replies| - 1]);
      RemappedReplies(spec, left, right, front, p);
      forall a ensures RepliedTo(spec, left, right, replies, p, a)
        <==> RepliedTo(spec, left, right, front, p, a) || RepliesWith(spec, left, right, replies[n], p, a)
      {
        RepliedNext(spec, left, right, replies, p, a);
      }
      var reply := replies[n];
      var at := (KeptLeft(spec, left)[reply.left], KeptRight(spec, right)[reply.right]);
      assert p == at ==> RepliedTo(spec, left, right, replies, p, reply.answer);
    }
  }

  lemma RepliedNext(spec: Option<PairSpec>, left: seq<Row>, right: seq<Row>, replies: seq<Reply>, p: Pair, a: bool)
    requires replies != []
    ensures RepliedTo(spec, left, right, replies, p, a) <==>
      (RepliedTo(spec, left, right, replies[..|replies| - 1], p, a)
      || RepliesWith(spec, left, right, replies[|replies| - 1], p, a))
  {
    var front := replies[..|replies| - 1];
    if RepliedTo(spec, left, right, front, p, a) {
      var k :| 0 <= k < |front| && RepliesWith(spec, left, right, front[k], p, a);
      assert RepliesWith(spec, left, right, replies[k], p, a);
    }
    if RepliedTo(spec, left, right, replies, p, a) && !RepliesWith(spec, left, right, replies[|replies| - 1], p, a) {
      var k :| 0 <= k < |replies| && RepliesWith(spec, left, right, replies[k], p, a);
      assert RepliesWith(spec, left, right, front[k], p, a);
    }
  }

  function PairSet(pairs: seq<Pair>): set<Pair> {
    set p | p in pairs
  }

  lemma {:induction false} PairSetSize(pairs: seq<Pair>)
    requires NestedOrder(pairs)
    ensures |PairSet(pairs)| == |pairs|
  {
    if pairs != [] {
      var n := |pairs| - 1;
      PairSetSize(pairs[..n]);
      assert pairs == pairs[..n] + [pairs[n]];
      assert PairSet(pairs) == PairSet(pairs[..n]) + {pairs[n]};
      forall k | 0 <= k < n ensures pairs[k] != pairs[n] {
        assert PairBefore(pairs[k], pairs[n]);
      }
    }
  }

  /** The pairs asked, as a set of the size the count check expects. */
  lemma AskedSet(spec: Option<PairSpec>, left: seq<Row>, right: seq<Row>) returns (asked: set<Pair>)
    ensures forall p: Pair :: p in asked <==> IsAsked(spec, left, right, p)
    ensures |asked| == ExpectedPairs(spec, left, right)
  {
    var pairs := Asked(spec, left, right);
    asked := PairSet(pairs);
    AskedNested(spec, left, right);
    PairSetSize(pairs);
    if spec.Some? {
      MatchingAsked(spec.value, left, right);
    } else {
      AskedCount(left, right);
    }
    forall p: Pair ensures p in asked <==> IsAsked(spec, left, right, p) {
      AskedMembers(spec, left, right, p);
    }
  }

  lemma FullSubset<T>(a: set<T>, b: set<T>)
    requires a <= b
    ensures |a| == |b| <==> a == b
  {
    if a != b {
      assert a + (b - a) == b;
      var x := AnyMember(b - a);
      SubsetSize(a, b - {x});
    }
  }

  lemma KeptPasses(spec: Option<PairSpec>, left: seq<Row>, right: seq<Row>)
    ensures spec.Some? ==>
      forall i: nat :: i in KeptLeft(spec, left) <==> i < |left| && Passes(left[i], spec.value.leftWhere)
    ensures spec.Some? ==>
      forall j: nat :: j in KeptRight(spec, right) <==> j < |right| && Passes(right[j], spec.value.rightWhere)
  {
    if spec.Some? {
      WhereExact(left, spec.value.leftWhere);
      WhereExact(right, spec.value.rightWhere);
    }
  }

  /** A reply a sound engine gives is about a pair that was asked. */
  lemma SoundAsked(spec: Option<PairSpec>, left: seq<Row>, right: seq<Row>, replies: seq<Reply>, p: Pair, a: bool)
    requires SoundReplies(spec, left, right, replies) && RepliedTo(spec, left, right, replies, p, a)
    ensures IsAsked(spec, left, right, p)
  {
    var k :| 0 <= k < |replies| && RepliesWith(spec, left, right, replies[k], p, a);
    KeptPasses(spec, left, right);
    assert p.0 in KeptLeft(spec, left) && p.1 in KeptRight(spec, right);
  }

  lemma AnsweredAsked(spec: Option<PairSpec>, left: seq<Row>, right: seq<Row>, replies: seq<Reply>, p: Pair)
    requires SoundReplies(spec, left, right, replies)
    ensures var answers := Remapped(KeptLeft(spec, left), KeptRight(spec, right), replies);
      && (p in answers <==> exists a :: RepliedTo(spec, left, right, replies, p, a))
      && (p in answers ==> IsAsked(spec, left, right, p) && RepliedTo(spec, left, right, replies, p, answers[p]))
  {
    RemappedReplies(spec, left, right, replies, p);
    var answers := Remapped(KeptLeft(spec, left), KeptRight(spec, right), replies);
    if p in answers {
      SoundAsked(spec, left, right, replies, p, answers[p]);
    }
  }

  lemma NothingKept(spec: Option<PairSpec>, left: seq<Row>, right: seq<Row>, p: Pair)
    requires KeptLeft(spec, left) == [] || KeptRight(spec, right) == []
    ensures !IsAsked(spec, left, right, p)
  {
    KeptPasses(spec, left, right);
    assert |Indices(|left|)| == |left| && |Indices(|right|)| == |right|;
    assert KeptLeft(spec, left) == [] ==> p.0 !in KeptLeft(spec, left);
    assert KeptRight(spec, right) == [] ==> p.1 !in KeptRight(spec, right);
  }

  lemma AskedJoinExact(engine: JoinEngine, spec: Option<PairSpec>, left: seq<Row>, right: seq<Row>)
    requires KeptLeft(spec, left) != [] && KeptRight(spec, right) != []
    requires SoundReplies(spec, left, right, Replies(engine, spec, left, right))
    ensures var (r, replies) := (Join(engine, spec, left, right), Replies(engine, spec, left, right));
      && (r.Some? <==> forall p: Pair :: IsAsked(spec, left, right, p) ==>
            exists a :: RepliedTo(spec, left, right, replies, p, a))
      && (r.Some? ==> forall p: Pair :: p in r.value <==> IsAsked(spec, left, right, p))
      && (r.Some? ==> forall p: Pair :: p in r.value ==> RepliedTo(spec, left, right, replies, p, r.value[p]))
  {
    var replies := Replies(engine, spec, left, right);
    var answers := Remapped(KeptLeft(spec, left), KeptRight(spec, right), replies);
    var asked := AskedSet(spec, left, right);
    forall p: Pair
      ensures p in answers <==> exists a :: RepliedTo(spec, left, right, replies, p, a)
      ensures p in answers ==> p in asked && RepliedTo(spec, left, right, replies, p, answers[p])
    {
      AnsweredAsked(spec, left, right, replies, p);
    }
    assert answers.Keys <= asked;
    assert Join(engine, spec, left, right) == if |answers| == |asked| then Some(answers) else None;
    FullSubset(answers.Keys, asked);
    assert |answers| == |answers.Keys|;
  }

  /** Over an engine whose replies satisfy the query, the count check is complete: the join raises exactly when
      some pair went unanswered, and otherwise answers exactly the pairs the whole table asks about, each with
      an answer given for the rows at its own places. */
  lemma JoinExact(engine: JoinEngine, spec: Option<PairSpec>, left: seq<Row>, right: seq<Row>)
    requires KeptLeft(spec, left) != [] && KeptRight(spec, right) != [] ==>
      SoundReplies(spec, left, right, Replies(engine, spec, left, right))
    ensures var (r, replies) := (Join(engine, spec, left, right), Replies(engine, spec, left, right));
      && (r.Some? <==> forall p: Pair :: IsAsked(spec, left, right, p) ==>
            exists a :: RepliedTo(spec, left, right, replies, p, a))
      && (r.Some? ==> forall p: Pair :: p in r.value <==> IsAsked(spec, left, right, p))
      && (r.Some? ==> forall p: Pair :: p in r.value ==> RepliedTo(spec, left, right, replies, p, r.value[p]))
  {
    if KeptLeft(spec, left) == [] || KeptRight(spec, right) == [] {
      forall p: Pair ensures !IsAsked(spec, left, right, p) {
        NothingKept(spec, left, right, p);
      }
    } else {
      AskedJoinExact(engine, spec, left, right);
    }
  }
}
