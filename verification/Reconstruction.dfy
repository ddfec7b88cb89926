/** Applying retention decisions to a trace (`reconstruct_trace`, `message_chars`): reading the shorter
    trace again finds exactly the calls that were not dropped. */
module Reconstruction {
  import opened Common
  import opened Sorting
  import opened TokenEstimate
  import opened TraceMessages
  import opened TraceCalls
  import TraceAcceptance

  const RESULT_HEAD_CHARS := 300

  datatype Action = Pinned | Kept | Truncated | Dropped

  /** The two questions asked about a call; answers that are not Boolean are left out of the map. */
  datatype Question = CallStays(number: nat) | ResultStays(number: nat)

  type Replies = map<Question, bool>

  /** What to do with a call: pinned ones stay, and the others need both answers. */
  function ActionOf(call: ToolCall, replies: Replies): Option<Action> {
    if call.pinned then
      Some(Pinned)
    else if CallStays(call.number) !in replies || ResultStays(call.number) !in replies then
      None
    else if replies[ResultStays(call.number)] then
      Some(Kept)
    else if replies[CallStays(call.number)] then
      Some(Truncated)
    else
      Some(Dropped)
  }

  predicate AllDecided(calls: seq<ToolCall>, replies: Replies) {
    forall k :: 0 <= k < |calls| ==> ActionOf(calls[k], replies).Some?
  }

  /** The note in place of so many units of a result. */
  function CutNote(cut: nat, isError: bool): Text {
    Units("\n[fast-jev-compaction truncated ") + Decimal(cut) + Units(" chars of this tool result")
    + (if isError then Units(" (error)") else []) + Units("; re-run the tool if needed]")
  }

  /** The head of a long result, with a note of what is left out. */
  function Shortened(result: Text, isError: bool): Text {
    if |result| > RESULT_HEAD_CHARS + 120 then
      result[..RESULT_HEAD_CHARS] + CutNote(|result| - RESULT_HEAD_CHARS, isError)
    else
      result
  }

  /** The result a call is left with. */
  function ResultLeft(call: ToolCall, replies: Replies): Text {
    if ActionOf(call, replies) == Some(Truncated) then Shortened(call.result, call.isError) else call.result
  }

  /** What the decisions change: calls and results that go, and results that are replaced. */
  datatype Plan = Plan(dropped: set<Id>, removed: set<nat>, replaced: map<nat, Text>)

  predicate Drops(call: ToolCall, replies: Replies) {
    ActionOf(call, replies) == Some(Dropped)
  }

  function DroppedIds(calls: seq<ToolCall>, replies: Replies): set<Id> {
    set k | 0 <= k < |calls| && Drops(calls[k], replies) :: calls[k].sourceId
  }

  function RemovedResults(calls: seq<ToolCall>, dropped: set<Id>): set<nat> {
    set k | 0 <= k < |calls| && calls[k].sourceId in dropped :: calls[k].resultIndex
  }

  /** The results that are replaced; a later call's would replace an earlier one's. */
  function ReplacedResults(calls: seq<ToolCall>, replies: Replies): map<nat, Text> {
    if calls == [] then
      map[]
    else
      var n := |calls| - 1;
      var before := ReplacedResults(calls[..n], replies);
      if ActionOf(calls[n], replies) == Some(Truncated) then
        before[calls[n].resultIndex := Shortened(calls[n].result, calls[n].isError)]
      else
        before
  }

  function PlanOf(calls: seq<ToolCall>, replies: Replies): Plan {
    var dropped := DroppedIds(calls, replies);
    Plan(dropped, RemovedResults(calls, dropped), ReplacedResults(calls, replies))
  }

  function Remaining(calls: seq<Request>, dropped: set<Id>): (r: seq<Request>)
    ensures |r| <= |calls|
  {
    if calls == [] then
      []
    else
      var n := |calls| - 1;
      var before := Remaining(calls[..n], dropped);
      if calls[n].id in dropped then before else before + [calls[n]]
  }

  /** What becomes of message i. */
  function Rewritten(m: Message, i: nat, plan: Plan): Option<Message> {
    if i in plan.removed then
      None
    else
      var content := if i in plan.replaced then plan.replaced[i] else m.content;
      var remaining := Remaining(m.toolCalls, plan.dropped);
      if |remaining| != |m.toolCalls| && remaining == [] && Blank(content) then
        None
      else
        Some(m.(content := content, toolCalls := remaining))
  }

  /** The messages that stay. */
  function Left(messages: seq<Message>, plan: Plan): seq<Message> {
    if messages == [] then
      []
    else
      var n := |messages| - 1;
      var before := Left(messages[..n], plan);
      match Rewritten(messages[n], n, plan)
      case None => before
      case Some(m) => before + [m]
  }

  /** The scans of a trace and of what is left of it: without the calls that are gone they agree. */
  ghost predicate Follows(scan: Scan, left: Scan, plan: Plan, gone: set<Id>) {
    && left.pending.Keys == scan.pending.Keys - gone
    && (forall id :: id in left.pending ==> SameCall(scan.pending[id], left.pending[id]))
    && left.seen == scan.seen - gone
    && PairsFollow(scan.paired, left.paired, plan)
  }

  /** A message's calls go with it, and otherwise only the dropped ones go. */
  ghost predicate CallsGo(calls: seq<Request>, removed: bool, dropped: set<Id>, gone: set<Id>) {
    forall k :: 0 <= k < |calls| ==> (calls[k].id in gone <==> removed || calls[k].id in dropped)
  }

  /** The pairs of what is left are those of the calls that are not dropped. */
  ghost predicate PairsFollow(paired: seq<Pair>, left: seq<Pair>, plan: Plan) {
    && (forall p :: p in left ==> IsLeft(paired, p, plan))
    && (forall q :: q in paired && q.id !in plan.dropped ==> StaysIn(left, q, plan))
  }

  ghost predicate IsLeft(paired: seq<Pair>, p: Pair, plan: Plan) {
    exists q :: q in paired && LeftOf(q, p, plan)
  }

  ghost predicate StaysIn(left: seq<Pair>, q: Pair, plan: Plan) {
    exists p :: p in left && LeftOf(q, p, plan)
  }

  ghost predicate SameCall(a: Pending, b: Pending) {
    a.tool == b.tool && a.arguments == b.arguments
  }

  /** Pair p is what the plan makes of pair q. */
  ghost predicate LeftOf(q: Pair, p: Pair, plan: Plan) {
    && q.id !in plan.dropped && p.id == q.id && p.tool == q.tool && p.arguments == q.arguments && p.isError == q.isError
    && p.result == if q.resultIndex in plan.replaced then plan.replaced[q.resultIndex] else q.result
  }

  /** Reading a message's remaining calls follows reading all of them. */
  lemma {:induction false} CallsFollow(scan: Scan, left: Scan, plan: Plan, gone: set<Id>, i: nat, j: nat,
                                       calls: seq<Request>)
    requires Follows(scan, left, plan, gone) && ReadCalls(scan, i, calls).Read?
    requires CallsGo(calls, false, plan.dropped, gone)
    ensures ReadCalls(left, j, Remaining(calls, plan.dropped)).Read?
    ensures Follows(ReadCalls(scan, i, calls).scan, ReadCalls(left, j, Remaining(calls, plan.dropped)).scan, plan, gone)
  {
    if calls != [] {
      var n := |calls| - 1;
      assert forall k :: 0 <= k < n ==> calls[..n][k] == calls[k];
      CallsFollow(scan, left, plan, gone, i, j, calls[..n]);
      var (before, kept) := (ReadCalls(scan, i, calls[..n]).scan, Remaining(calls[..n], plan.dropped));
      CallFollows(before, ReadCalls(left, j, kept).scan, plan, gone, i, j, calls[n]);
      if calls[n].id !in plan.dropped {
        assert Remaining(calls, plan.dropped)[..|kept|] == kept;
      }
    }
  }

  /** The calls of a message that is removed leave no trace. */
  lemma {:induction false} CallsVanish(scan: Scan, left: Scan, plan: Plan, gone: set<Id>, i: nat, calls: seq<Request>)
    requires Follows(scan, left, plan, gone) && ReadCalls(scan, i, calls).Read?
    requires CallsGo(calls, true, plan.dropped, gone)
    ensures Follows(ReadCalls(scan, i, calls).scan, left, plan, gone)
  {
    if calls != [] {
      var n := |calls| - 1;
      assert forall k :: 0 <= k < n ==> calls[..n][k] == calls[k];
      CallsVanish(scan, left, plan, gone, i, calls[..n]);
      CallFollows(ReadCalls(scan, i, calls[..n]).scan, left, plan, gone, i, 0, calls[n]);
    }
  }

  lemma CallFollows(scan: Scan, left: Scan, plan: Plan, gone: set<Id>, i: nat, j: nat, call: Request)
    requires Follows(scan, left, plan, gone) && ReadCall(scan, i, call).Read?
    ensures call.id !in gone ==>
      ReadCall(left, j, call).Read? && Follows(ReadCall(scan, i, call).scan, ReadCall(left, j, call).scan, plan, gone)
    ensures call.id in gone ==> Follows(ReadCall(scan, i, call).scan, left, plan, gone)
  {
  }

  /** The results the plan removes are those of the calls it drops. */
  ghost predicate Consistent(plan: Plan, paired: seq<Pair>) {
    forall p :: p in paired ==> (p.resultIndex in plan.removed <==> p.id in plan.dropped)
  }

  /** Reading what is left of a result follows reading the result. */
  lemma ResultFollows(scan: Scan, left: Scan, plan: Plan, gone: set<Id>, i: nat, j: nat, m: Message, id: Id)
    requires Follows(scan, left, plan, gone) && Answers(scan.pending, m.toolCallId, id)
    requires i in plan.removed <==> id in plan.dropped
    requires id in gone <==> id in plan.dropped
    ensures var after := Scan(scan.pending - {id}, scan.seen, scan.paired + [PairOf(id, scan.pending[id], i, m)]);
      if i in plan.removed then
        Follows(after, left, plan, gone)
      else
        var content := if i in plan.replaced then plan.replaced[i] else m.content;
        var read := ReadResult(left, j, m.(content := content));
        read.Read? && Follows(after, read.scan, plan, gone)
  {
    var q := PairOf(id, scan.pending[id], i, m);
    var after := Scan(scan.pending - {id}, scan.seen, scan.paired + [q]);
    if i in plan.removed {
      RemovedFollows(scan, left, plan, gone, id, q);
    } else {
      var kept := m.(content := if i in plan.replaced then plan.replaced[i] else m.content);
      assert id in left.pending.Keys;
      assert scan.pending.Keys == {id} ==> left.pending.Keys == {id};
      assert Answers(left.pending, kept.toolCallId, id);
      ResultIs(left, j, kept, id);
      var p := PairOf(id, left.pending[id], j, kept);
      assert LeftOf(q, p, plan);
      PairFollows(scan.paired, left.paired, plan, q, p);
    }
  }

  lemma RemovedFollows(scan: Scan, left: Scan, plan: Plan, gone: set<Id>, id: Id, q: Pair)
    requires Follows(scan, left, plan, gone) && id in plan.dropped && id in gone && q.id == id
    ensures Follows(Scan(scan.pending - {id}, scan.seen, scan.paired + [q]), left, plan, gone)
  {
    forall p | p in left.paired ensures IsLeft(scan.paired + [q], p, plan) {
      LeftGrows(scan.paired, q, p, plan);
    }
  }

  lemma LeftGrows(paired: seq<Pair>, q: Pair, p: Pair, plan: Plan)
    requires IsLeft(paired, p, plan)
    ensures IsLeft(paired + [q], p, plan)
  {
    var x :| x in paired && LeftOf(x, p, plan);
    assert x in paired + [q];
  }

  lemma StaysGrows(left: seq<Pair>, p: Pair, q: Pair, plan: Plan)
    requires StaysIn(left, q, plan)
    ensures StaysIn(left + [p], q, plan)
  {
    var x :| x in left && LeftOf(q, x, plan);
    assert x in left + [p];
  }

  lemma PairFollows(paired: seq<Pair>, left: seq<Pair>, plan: Plan, q: Pair, p: Pair)
    requires PairsFollow(paired, left, plan) && LeftOf(q, p, plan)
    ensures PairsFollow(paired + [q], left + [p], plan)
  {
    assert q in paired + [q] && p in left + [p];
    forall x | x in left + [p] ensures IsLeft(paired + [q], x, plan) {
      if x in left {
        LeftGrows(paired, q, x, plan);
      }
    }
    forall y | y in paired + [q] && y.id !in plan.dropped ensures StaysIn(left + [p], y, plan) {
      if y in paired {
        StaysGrows(left, p, y, plan);
      }
    }
  }

  /** Tool messages only report results, as in the recorded format: they make no calls. */
  predicate ToolsQuiet(messages: seq<Message>) {
    forall i :: 0 <= i < |messages| && messages[i].role == Tool ==> messages[i].toolCalls == []
  }

  /** The plan touches the contents of tool messages only. */
  ghost predicate TouchesResults(plan: Plan, messages: seq<Message>) {
    forall i :: 0 <= i < |messages| && (i in plan.removed || i in plan.replaced) ==> messages[i].role == Tool
  }

  /** A scan only adds pairs. */
  lemma {:induction false} CallsKeepPairs(scan: Scan, index: nat, calls: seq<Request>)
    requires ReadCalls(scan, index, calls).Read?
    ensures ReadCalls(scan, index, calls).scan.paired == scan.paired
  {
    if calls != [] {
      CallsKeepPairs(scan, index, calls[..|calls| - 1]);
    }
  }

  lemma MessageKeepsPairs(scan: Scan, index: nat, m: Message)
    requires ReadMessage(scan, index, m).Read?
    ensures scan.paired <= ReadMessage(scan, index, m).scan.paired
  {
    if m.role == Tool {
      CallsKeepPairs(ReadResult(scan, index, m).scan, index, m.toolCalls);
    } else {
      CallsKeepPairs(scan, index, m.toolCalls);
    }
  }

  /** Message i's pair, if it has one, is as the plan decides, and what is not removed of it is read again. */
  ghost predicate KeptResult(m: Message, i: nat, plan: Plan, gone: set<Id>, paired: seq<Pair>) {
    forall p :: p in paired && p.resultIndex == i ==>
      && (i in plan.removed <==> p.id in plan.dropped) && (p.id in gone <==> p.id in plan.dropped)
      && (p.id !in plan.dropped ==> Rewritten(m, i, plan).Some?)
  }

  /** Reading what is left of one message follows reading the message. */
  lemma MessageFollows(scan: Scan, left: Scan, plan: Plan, gone: set<Id>, i: nat, j: nat, m: Message)
    requires Follows(scan, left, plan, gone) && ReadMessage(scan, i, m).Read?
    requires CallsGo(m.toolCalls, i in plan.removed, plan.dropped, gone)
    requires KeptResult(m, i, plan, gone, ReadMessage(scan, i, m).scan.paired)
    requires i in plan.removed || i in plan.replaced ==> m.role == Tool
    ensures Rewritten(m, i, plan).None? ==> Follows(ReadMessage(scan, i, m).scan, left, plan, gone)
    ensures Rewritten(m, i, plan).Some? ==>
      && ReadMessage(left, j, Rewritten(m, i, plan).value).Read?
      && Follows(ReadMessage(scan, i, m).scan, ReadMessage(left, j, Rewritten(m, i, plan).value).scan, plan, gone)
  {
    if m.role == Tool {
      ToolFollows(scan, left, plan, gone, i, j, m);
    } else {
      CallsFollow(scan, left, plan, gone, i, j, m.toolCalls);
    }
  }

  lemma ToolFollows(scan: Scan, left: Scan, plan: Plan, gone: set<Id>, i: nat, j: nat, m: Message)
    requires Follows(scan, left, plan, gone) && ReadMessage(scan, i, m).Read? && m.role == Tool
    requires CallsGo(m.toolCalls, i in plan.removed, plan.dropped, gone)
    requires KeptResult(m, i, plan, gone, ReadMessage(scan, i, m).scan.paired)
    ensures Rewritten(m, i, plan).None? ==> Follows(ReadMessage(scan, i, m).scan, left, plan, gone)
    ensures Rewritten(m, i, plan).Some? ==>
      && ReadMessage(left, j, Rewritten(m, i, plan).value).Read?
      && Follows(ReadMessage(scan, i, m).scan, ReadMessage(left, j, Rewritten(m, i, plan).value).scan, plan, gone)
  {
    var id :| Answers(scan.pending, m.toolCallId, id)
      && ReadResult(scan, i, m)
         == Read(Scan(scan.pending - {id}, scan.seen, scan.paired + [PairOf(id, scan.pending[id], i, m)]));
    var after := ReadResult(scan, i, m).scan;
    CallsKeepPairs(after, i, m.toolCalls);
    assert PairOf(id, scan.pending[id], i, m) == after.paired[|scan.paired|];
    ResultFollows(scan, left, plan, gone, i, j, m, id);
    if i in plan.removed {
      CallsVanish(after, left, plan, gone, i, m.toolCalls);
    } else {
      var kept := m.(content := if i in plan.replaced then plan.replaced[i] else m.content);
      var read := ReadResult(left, j, kept).scan;
      CallsFollow(after, read, plan, gone, i, j, m.toolCalls);
      SameResult(left, j, kept, Rewritten(m, i, plan).value);
    }
  }

  /** A result is read by its message's name for the call and its content alone. */
  lemma SameResult(scan: Scan, index: nat, m: Message, other: Message)
    requires m.toolCallId == other.toolCallId && m.content == other.content && m.isError == other.isError
    ensures ReadResult(scan, index, m) == ReadResult(scan, index, other)
  {
    if HasAnswered(scan.pending, m.toolCallId) {
      var id :| Answers(scan.pending, m.toolCallId, id);
      ResultIs(scan, index, m, id);
      ResultIs(scan, index, other, id);
    }
  }

  /** The calls that are gone: the dropped ones, and those of the messages that are removed. */
  ghost predicate AllGo(messages: seq<Message>, plan: Plan, gone: set<Id>) {
    forall i :: 0 <= i < |messages| ==> CallsGo(messages[i].toolCalls, i in plan.removed, plan.dropped, gone)
  }

  ghost predicate AllKept(messages: seq<Message>, plan: Plan, gone: set<Id>, paired: seq<Pair>) {
    forall i: nat :: i < |messages| ==> KeptResult(messages[i], i, plan, gone, paired)
  }

  /** Reading what is left of a trace follows reading the trace. */
  lemma {:induction false} TraceFollows(messages: seq<Message>, plan: Plan, gone: set<Id>)
    requires ReadAll(messages).Read? && TouchesResults(plan, messages) && AllGo(messages, plan, gone)
    requires AllKept(messages, plan, gone, ReadAll(messages).scan.paired)
    ensures ReadAll(Left(messages, plan)).Read?
    ensures Follows(ReadAll(messages).scan, ReadAll(Left(messages, plan)).scan, plan, gone)
  {
    if messages != [] {
      var n := |messages| - 1;
      var scan := ReadAll(messages[..n]).scan;
      MessageKeepsPairs(scan, n, messages[n]);
      FrontKept(messages, plan, gone, scan.paired, ReadAll(messages).scan.paired);
      TraceFollows(messages[..n], plan, gone);
      var left := Left(messages[..n], plan);
      MessageFollows(scan, ReadAll(left).scan, plan, gone, n, |left|, messages[n]);
      if Rewritten(messages[n], n, plan).Some? {
        assert Left(messages, plan)[..|left|] == left;
      }
    }
  }

  lemma {:induction false} FrontKept(messages: seq<Message>, plan: Plan, gone: set<Id>, before: seq<Pair>, paired: seq<Pair>)
    requires messages != [] && TouchesResults(plan, messages) && AllGo(messages, plan, gone)
    requires AllKept(messages, plan, gone, paired) && before <= paired
    ensures var front := messages[..|messages| - 1];
      TouchesResults(plan, front) && AllGo(front, plan, gone) && AllKept(front, plan, gone, before)
  {
    var front := messages[..|messages| - 1];
    assert forall i :: 0 <= i < |front| ==> front[i] == messages[i];
    assert forall p :: p in before ==> p in paired;
    forall i: nat | i < |front| ensures KeptResult(front[i], i, plan, gone, before) {
      assert KeptResult(messages[i], i, plan, gone, paired);
    }
  }

  /** Ids without those that are dropped. */
  function Undropped(ids: seq<Id>, dropped: set<Id>): (r: seq<Id>)
    ensures forall id :: id in r <==> id in ids && id !in dropped
  {
    if ids == [] then
      []
    else
      var n := |ids| - 1;
      var before := Undropped(ids[..n], dropped);
      if ids[n] in dropped then before else before + [ids[n]]
  }

  lemma {:induction false} UndroppedAppend(a: seq<Id>, b: seq<Id>, dropped: set<Id>)
    ensures Undropped(a + b, dropped) == Undropped(a, dropped) + Undropped(b, dropped)
  {
    if b == [] {
      assert a + b == a;
    } else {
      var n := |b| - 1;
      UndroppedAppend(a, b[..n], dropped);
      assert (a + b)[..|a + b| - 1] == a + b[..n];
    }
  }

  lemma {:induction false} RemainingIds(calls: seq<Request>, dropped: set<Id>)
    ensures RequestIds(Remaining(calls, dropped)) == Undropped(RequestIds(calls), dropped)
  {
    if calls != [] {
      var n := |calls| - 1;
      RemainingIds(calls[..n], dropped);
      assert RequestIds(calls)[..n] == RequestIds(calls[..n]);
    }
  }

  lemma {:induction false} UndroppedAlike(ids: seq<Id>, some: set<Id>, others: set<Id>)
    requires forall k :: 0 <= k < |ids| ==> (ids[k] in some <==> ids[k] in others)
    ensures Undropped(ids, some) == Undropped(ids, others)
  {
    if ids != [] {
      UndroppedAlike(ids[..|ids| - 1], some, others);
    }
  }

  lemma {:induction false} UndroppedNone(ids: seq<Id>, dropped: set<Id>)
    requires forall k :: 0 <= k < |ids| ==> ids[k] in dropped
    ensures Undropped(ids, dropped) == []
  {
    if ids != [] {
      UndroppedNone(ids[..|ids| - 1], dropped);
    }
  }

  /** What is left of a message makes its calls that are not gone. */
  lemma MessageIds(m: Message, i: nat, plan: Plan, gone: set<Id>)
    requires CallsGo(m.toolCalls, i in plan.removed, plan.dropped, gone)
    ensures Rewritten(m, i, plan).None? ==> Undropped(RequestIds(m.toolCalls), gone) == []
    ensures Rewritten(m, i, plan).Some? ==>
      Undropped(RequestIds(m.toolCalls), gone) == RequestIds(Rewritten(m, i, plan).value.toolCalls)
  {
    if i in plan.removed {
      UndroppedNone(RequestIds(m.toolCalls), gone);
    } else {
      RemainingIds(m.toolCalls, plan.dropped);
      UndroppedAlike(RequestIds(m.toolCalls), plan.dropped, gone);
    }
  }

  /** What is left makes the calls that are not gone, in the same order. */
  lemma {:induction false} LeftIds(messages: seq<Message>, plan: Plan, gone: set<Id>)
    requires AllGo(messages, plan, gone)
    ensures Ids(Left(messages, plan)) == Undropped(Ids(messages), gone)
  {
    if messages != [] {
      var n := |messages| - 1;
      var (m, left) := (messages[n], Left(messages[..n], plan));
      assert forall i :: 0 <= i < n ==> messages[..n][i] == messages[i];
      LeftIds(messages[..n], plan, gone);
      UndroppedAppend(Ids(messages[..n]), RequestIds(m.toolCalls), gone);
      MessageIds(m, n, plan, gone);
      if Rewritten(m, n, plan).Some? {
        IdsAppend(left, Rewritten(m, n, plan).value);
      }
    }
  }

  lemma {:induction false} IndexAppend(ids: seq<Id>, last: Id, id: Id)
    ensures IndexOf(ids + [last], id)
      == if id in ids then IndexOf(ids, id) else if id == last then |ids| else |ids| + 1
  {
    if ids == [] {
      assert ids + [last] == [last];
    } else {
      IndexAppend(ids[1..], last, id);
      assert (ids + [last])[1..] == ids[1..] + [last];
    }
  }

  /** Dropping some ids keeps the order of the others. */
  lemma {:induction false} UndroppedOrder(ids: seq<Id>, dropped: set<Id>, a: Id, b: Id)
    requires a in ids && b in ids && a !in dropped && b !in dropped && IndexOf(ids, a) < IndexOf(ids, b)
    ensures IndexOf(Undropped(ids, dropped), a) < IndexOf(Undropped(ids, dropped), b)
  {
    var n := |ids| - 1;
    var (before, kept) := (ids[..n], Undropped(ids[..n], dropped));
    assert ids == before + [ids[n]];
    IndexAppend(before, ids[n], a);
    IndexAppend(before, ids[n], b);
    if b in before {
      UndroppedOrder(before, dropped, a, b);
    }
    if ids[n] !in dropped {
      IndexAppend(kept, ids[n], a);
      IndexAppend(kept, ids[n], b);
    }
  }

  /** Distinct ids in the order they have among others. */
  ghost predicate OrderedBy(ids: seq<Id>, some: seq<Id>) {
    && (forall k :: 0 <= k < |some| ==> some[k] in ids)
    && forall j, k :: 0 <= j < k < |some| ==> IndexOf(ids, some[j]) < IndexOf(ids, some[k])
  }

  lemma {:induction false} UndroppedOrdered(ids: seq<Id>, some: seq<Id>, dropped: set<Id>)
    requires OrderedBy(ids, some)
    ensures OrderedBy(Undropped(ids, dropped), Undropped(some, dropped))
  {
    if some != [] {
      var n := |some| - 1;
      UndroppedOrdered(ids, some[..n], dropped);
      var kept := Undropped(some[..n], dropped);
      if some[n] !in dropped {
        forall j | 0 <= j < |kept|
          ensures IndexOf(Undropped(ids, dropped), kept[j]) < IndexOf(Undropped(ids, dropped), some[n])
        {
          assert kept[j] in some[..n];
          UndroppedOrder(ids, dropped, kept[j], some[n]);
        }
      }
    }
  }

  /** Two orderings of the same ids are the same. */
  lemma OrderedUnique(ids: seq<Id>, a: seq<Id>, b: seq<Id>)
    requires OrderedBy(ids, a) && OrderedBy(ids, b) && forall id :: id in a <==> id in b
    ensures a == b
  {
    var at := seq(|a|, k requires 0 <= k < |a| => IndexOf(ids, a[k]));
    var bt := seq(|b|, k requires 0 <= k < |b| => IndexOf(ids, b[k]));
    forall x ensures x in at <==> x in bt {
      if x in at {
        var k :| 0 <= k < |a| && at[k] == x;
        assert a[k] in b;
        var j :| 0 <= j < |b| && b[j] == a[k];
        assert bt[j] == x;
      }
      if x in bt {
        var k :| 0 <= k < |b| && bt[k] == x;
        assert b[k] in a;
        var j :| 0 <= j < |a| && a[j] == b[k];
        assert at[j] == x;
      }
    }
    IncreasingUnique(at, bt);
    forall k | 0 <= k < |a| ensures a[k] == b[k] {
      assert ids[at[k]] == a[k] && ids[bt[k]] == b[k];
    }
  }

  function PairIds(pairs: seq<Pair>): (r: seq<Id>)
    ensures |r| == |pairs| && forall k :: 0 <= k < |r| ==> r[k] == pairs[k].id
  {
    seq(|pairs|, k requires 0 <= k < |pairs| => pairs[k].id)
  }

  function SourceIds(calls: seq<ToolCall>): (r: seq<Id>)
    ensures |r| == |calls| && forall k :: 0 <= k < |r| ==> r[k] == calls[k].sourceId
  {
    seq(|calls|, k requires 0 <= k < |calls| => calls[k].sourceId)
  }

  /** The pairs of a scan, in the order of their calls. */
  ghost function Sorted(messages: seq<Message>): seq<Pair>
    requires ReadAll(messages).Read?
  {
    SortBy(ReadAll(messages).scan.paired, ByCall(Ids(messages)))
  }

  lemma SortedOrder(messages: seq<Message>)
    requires ReadAll(messages).Read?
    ensures OrderedBy(Ids(messages), PairIds(Sorted(messages)))
    ensures forall p :: p in Sorted(messages) <==> p in ReadAll(messages).scan.paired
  {
    ReadAllOk(messages);
    SortedPairs(messages, ReadAll(messages).scan);
    SameElements(Sorted(messages), ReadAll(messages).scan.paired);
  }

  /** What is left pairs exactly the undropped calls, in the same order. */
  lemma SortedLeft(messages: seq<Message>, plan: Plan, gone: set<Id>)
    requires ReadAll(messages).Read? && TouchesResults(plan, messages) && AllGo(messages, plan, gone)
    requires AllKept(messages, plan, gone, ReadAll(messages).scan.paired)
    ensures ReadAll(Left(messages, plan)).Read?
    ensures PairIds(Sorted(Left(messages, plan))) == Undropped(PairIds(Sorted(messages)), plan.dropped)
    ensures forall p :: p in Sorted(Left(messages, plan)) ==> IsLeft(Sorted(messages), p, plan)
  {
    var left := Left(messages, plan);
    TraceFollows(messages, plan, gone);
    LeftIds(messages, plan, gone);
    SortedOrder(messages);
    SortedOrder(left);
    PairsGone(messages, plan, gone);
    UndroppedOrdered(Ids(messages), PairIds(Sorted(messages)), gone);
    SortedMembers(Sorted(messages), Sorted(left), plan, ReadAll(messages).scan.paired, ReadAll(left).scan.paired);
    OrderedUnique(Ids(left), PairIds(Sorted(left)), Undropped(PairIds(Sorted(messages)), plan.dropped));
  }

  /** Of the calls with results only the dropped ones are gone. */
  lemma PairsGone(messages: seq<Message>, plan: Plan, gone: set<Id>)
    requires ReadAll(messages).Read? && AllKept(messages, plan, gone, ReadAll(messages).scan.paired)
    ensures Undropped(PairIds(Sorted(messages)), gone) == Undropped(PairIds(Sorted(messages)), plan.dropped)
  {
    var sorted := Sorted(messages);
    ReadAllOk(messages);
    SortedOrder(messages);
    forall k | 0 <= k < |sorted| ensures PairIds(sorted)[k] in gone <==> PairIds(sorted)[k] in plan.dropped {
      assert sorted[k] in sorted && PairOk(messages, sorted[k]);
      assert KeptResult(messages[sorted[k].resultIndex], sorted[k].resultIndex, plan, gone, ReadAll(messages).scan.paired);
    }
    UndroppedAlike(PairIds(sorted), gone, plan.dropped);
  }

  lemma SortedMembers(whole: seq<Pair>, left: seq<Pair>, plan: Plan, paired: seq<Pair>, leftPaired: seq<Pair>)
    requires PairsFollow(paired, leftPaired, plan)
    requires (forall p :: p in whole <==> p in paired) && forall p :: p in left <==> p in leftPaired
    ensures forall p :: p in left ==> IsLeft(whole, p, plan)
    ensures forall id :: id in PairIds(left) <==> id in Undropped(PairIds(whole), plan.dropped)
  {
    forall p | p in left ensures IsLeft(whole, p, plan) {
      assert IsLeft(paired, p, plan);
      var q :| q in paired && LeftOf(q, p, plan);
      assert q in whole;
    }
    forall id ensures id in PairIds(left) <==> id in Undropped(PairIds(whole), plan.dropped) {
      if id in PairIds(left) {
        var k :| 0 <= k < |left| && left[k].id == id;
        assert left[k] in left && IsLeft(whole, left[k], plan);
        var q :| q in whole && LeftOf(q, left[k], plan);
        var j :| 0 <= j < |whole| && whole[j] == q;
        assert PairIds(whole)[j] == id;
      }
      if id in Undropped(PairIds(whole), plan.dropped) {
        var k :| 0 <= k < |whole| && PairIds(whole)[k] == id;
        assert whole[k] in whole && StaysIn(leftPaired, whole[k], plan);
        var p :| p in leftPaired && LeftOf(whole[k], p, plan);
        assert p in left;
        var j :| 0 <= j < |left| && left[j] == p;
        assert PairIds(left)[j] == id;
      }
    }
  }

  /** Collected calls are told apart by their source, and by their result. */
  ghost predicate Apart(calls: seq<ToolCall>) {
    forall j, k :: 0 <= j < |calls| && 0 <= k < |calls| && j != k ==>
      calls[j].sourceId != calls[k].sourceId && calls[j].resultIndex != calls[k].resultIndex
  }

  lemma {:induction false} CollectedApart(messages: seq<Message>)
    requires ReadAll(messages).Read?
    ensures Apart(Numbered(Sorted(messages), |messages|))
  {
    ReadAllOk(messages);
    SortedOrder(messages);
    assert PairedOk(messages, ReadAll(messages).scan);
    NumberedApart(Ids(messages), Sorted(messages), ReadAll(messages).scan.paired, |messages|);
  }

  lemma {:induction false} NumberedApart(ids: seq<Id>, sorted: seq<Pair>, paired: seq<Pair>, count: nat)
    requires OrderedBy(ids, PairIds(sorted)) && forall p :: p in sorted ==> p in paired
    requires forall j, k :: 0 <= j < k < |paired| ==> paired[j].resultIndex < paired[k].resultIndex
    ensures Apart(Numbered(sorted, count))
  {
    forall j, k | 0 <= j < k < |sorted|
      ensures sorted[j].id != sorted[k].id && sorted[j].resultIndex != sorted[k].resultIndex
    {
      assert sorted[j] in paired && sorted[k] in paired;
      assert PairIds(sorted)[j] == sorted[j].id && PairIds(sorted)[k] == sorted[k].id;
      OtherResult(paired, sorted[j], sorted[k]);
    }
  }

  lemma OtherResult(paired: seq<Pair>, p: Pair, q: Pair)
    requires forall j, k :: 0 <= j < k < |paired| ==> paired[j].resultIndex < paired[k].resultIndex
    requires p in paired && q in paired && p != q
    ensures p.resultIndex != q.resultIndex
  {
  }

  lemma {:induction false} ReplacedAt(calls: seq<ToolCall>, replies: Replies, k: nat)
    requires Apart(calls) && k < |calls|
    ensures calls[k].resultIndex in ReplacedResults(calls, replies) <==> ActionOf(calls[k], replies) == Some(Truncated)
    ensures ActionOf(calls[k], replies) == Some(Truncated) ==>
      ReplacedResults(calls, replies)[calls[k].resultIndex] == Shortened(calls[k].result, calls[k].isError)
  {
    var n := |calls| - 1;
    if k < n {
      ReplacedAt(calls[..n], replies, k);
    } else {
      ReplacedFrom(calls[..n], replies);
    }
  }

  lemma {:induction false} ReplacedFrom(calls: seq<ToolCall>, replies: Replies)
    ensures forall i :: i in ReplacedResults(calls, replies) ==> exists k :: 0 <= k < |calls| && calls[k].resultIndex == i
  {
    if calls != [] {
      var n := |calls| - 1;
      ReplacedFrom(calls[..n], replies);
      forall i | i in ReplacedResults(calls, replies) ensures exists k :: 0 <= k < |calls| && calls[k].resultIndex == i {
        if i in ReplacedResults(calls[..n], replies) {
          var k :| 0 <= k < n && calls[..n][k].resultIndex == i;
          assert calls[k].resultIndex == i;
        } else {
          assert calls[n].resultIndex == i;
        }
      }
    }
  }

  lemma DroppedAt(calls: seq<ToolCall>, replies: Replies, k: nat)
    requires Apart(calls) && k < |calls|
    ensures calls[k].sourceId in DroppedIds(calls, replies) <==> Drops(calls[k], replies)
    ensures calls[k].resultIndex in RemovedResults(calls, DroppedIds(calls, replies)) <==> Drops(calls[k], replies)
  {
    var dropped := DroppedIds(calls, replies);
    if Drops(calls[k], replies) {
      assert calls[k].sourceId in dropped;
      assert calls[k].resultIndex in RemovedResults(calls, dropped);
    }
  }

  /** The plan for collected calls fits the pairs they were made from. */
  lemma PlanFits(messages: seq<Message>, replies: Replies)
    requires ReadAll(messages).Read?
    ensures var plan := PlanOf(Numbered(Sorted(messages), |messages|), replies);
      Consistent(plan, ReadAll(messages).scan.paired) && TouchesResults(plan, messages)
  {
    var (sorted, paired) := (Sorted(messages), ReadAll(messages).scan.paired);
    var calls := Numbered(sorted, |messages|);
    var plan := PlanOf(calls, replies);
    CollectedApart(messages);
    CollectionOk(messages);
    SortedOrder(messages);
    forall p | p in paired ensures p.resultIndex in plan.removed <==> p.id in plan.dropped {
      assert p in sorted;
      RemovesAt(sorted, calls, |messages|, replies, p);
    }
    TouchedAreResults(messages, calls, replies);
  }

  lemma RemovesAt(sorted: seq<Pair>, calls: seq<ToolCall>, count: nat, replies: Replies, p: Pair)
    requires calls == Numbered(sorted, count) && Apart(calls) && p in sorted
    ensures p.resultIndex in PlanOf(calls, replies).removed <==> p.id in PlanOf(calls, replies).dropped
  {
    var k :| 0 <= k < |sorted| && sorted[k] == p;
    assert calls[k] == CallOf(p, k + 1, count);
    DroppedAt(calls, replies, k);
  }

  lemma TouchedAreResults(messages: seq<Message>, calls: seq<ToolCall>, replies: Replies)
    requires CallsOk(messages, calls)
    ensures TouchesResults(PlanOf(calls, replies), messages)
  {
    var plan := PlanOf(calls, replies);
    ReplacedFrom(calls, replies);
    forall i | 0 <= i < |messages| && (i in plan.removed || i in plan.replaced) ensures messages[i].role == Tool {
      var k :| 0 <= k < |calls| && calls[k].resultIndex == i;
      assert CallOk(messages, calls[k]);
    }
  }

  /** The call is the same, with the result it is left with. */
  ghost predicate CallLeft(before: ToolCall, after: ToolCall, replies: Replies) {
    && after.sourceId == before.sourceId && after.tool == before.tool && after.arguments == before.arguments
    && after.isError == before.isError && after.result == ResultLeft(before, replies)
  }

  /** The call is one of these, as the decision left it. */
  ghost predicate Comes(calls: seq<ToolCall>, after: ToolCall, replies: Replies) {
    exists k :: 0 <= k < |calls| && CallLeft(calls[k], after, replies)
  }

  lemma LeftComes(sorted: seq<Pair>, p: Pair, calls: seq<ToolCall>, after: ToolCall, count: nat, j: nat, leftCount: nat,
                  replies: Replies)
    requires calls == Numbered(sorted, count) && Apart(calls) && after == CallOf(p, j + 1, leftCount)
    requires IsLeft(sorted, p, PlanOf(calls, replies))
    ensures Comes(calls, after, replies)
  {
    var q :| q in sorted && LeftOf(q, p, PlanOf(calls, replies));
    var k :| 0 <= k < |sorted| && sorted[k] == q;
    assert calls[k] == CallOf(q, k + 1, count);
    ReplacedAt(calls, replies, k);
    assert CallLeft(calls[k], after, replies);
  }

  /** Reading what is left again finds exactly the calls that were not dropped, in the order they were
      made, each before its result, and with the result the decision left it. */
  ghost predicate ReadsAgain(messages: seq<Message>, calls: seq<ToolCall>, replies: Replies) {
    var plan := PlanOf(calls, replies);
    var (left, again) := (Left(messages, plan), Collection(Left(messages, plan)));
    && again.Collected? && CallsOk(left, again.calls)
    && SourceIds(again.calls) == Undropped(SourceIds(calls), plan.dropped)
    && forall j :: 0 <= j < |again.calls| ==> Comes(calls, again.calls[j], replies)
  }

  /** No call that stays loses one of its messages: the one that makes it is not the result of a dropped
      call, and its result is not left without calls and content. */
  predicate NothingLost(messages: seq<Message>, calls: seq<ToolCall>, replies: Replies) {
    forall k :: 0 <= k < |calls| && !Drops(calls[k], replies) ==>
      StaysWhole(messages, calls[k], PlanOf(calls, replies))
  }

  predicate StaysWhole(messages: seq<Message>, call: ToolCall, plan: Plan) {
    && call.callIndex !in plan.removed
    && call.resultIndex < |messages| && Rewritten(messages[call.resultIndex], call.resultIndex, plan).Some?
  }

  /** The calls that are gone: the dropped ones, and those of the messages that are removed. */
  ghost function GoneIds(messages: seq<Message>, plan: Plan): set<Id> {
    plan.dropped + set i, k | 0 <= i < |messages| && i in plan.removed && 0 <= k < |messages[i].toolCalls|
                   :: messages[i].toolCalls[k].id
  }

  lemma {:induction false} CallMade(messages: seq<Message>, i: nat, k: nat)
    requires i < |messages| && k < |messages[i].toolCalls|
    ensures messages[i].toolCalls[k].id in Ids(messages)
  {
    var n := |messages| - 1;
    if i < n {
      CallMade(messages[..n], i, k);
    } else {
      assert RequestIds(messages[n].toolCalls)[k] == messages[i].toolCalls[k].id;
    }
  }

  /** An id belongs to one message. */
  lemma {:induction false} OneMaker(messages: seq<Message>, i: nat, k: nat, j: nat, l: nat)
    requires Distinct(Ids(messages)) && i < |messages| && k < |messages[i].toolCalls|
    requires j < |messages| && l < |messages[j].toolCalls| && messages[i].toolCalls[k].id == messages[j].toolCalls[l].id
    ensures i == j
  {
    var n := |messages| - 1;
    var (front, ids) := (messages[..n], RequestIds(messages[n].toolCalls));
    TraceAcceptance.DistinctFront(Ids(front), ids);
    if i < n && j < n {
      OneMaker(front, i, k, j, l);
    } else if i < n {
      CallMade(front, i, k);
      assert ids[l] == front[i].toolCalls[k].id;
      TraceAcceptance.NotBoth(Ids(front), ids, ids[l]);
    } else if j < n {
      CallMade(front, j, l);
      assert ids[k] == front[j].toolCalls[l].id;
      TraceAcceptance.NotBoth(Ids(front), ids, ids[k]);
    }
  }

  lemma {:induction false} GoneAreGone(messages: seq<Message>, plan: Plan)
    requires Distinct(Ids(messages))
    ensures AllGo(messages, plan, GoneIds(messages, plan))
  {
    var gone := GoneIds(messages, plan);
    forall i, k | 0 <= i < |messages| && 0 <= k < |messages[i].toolCalls|
      ensures messages[i].toolCalls[k].id in gone <==> i in plan.removed || messages[i].toolCalls[k].id in plan.dropped
    {
      var id := messages[i].toolCalls[k].id;
      if id in gone && id !in plan.dropped {
        var j, l :| 0 <= j < |messages| && j in plan.removed && 0 <= l < |messages[j].toolCalls|
          && messages[j].toolCalls[l].id == id;
        OneMaker(messages, i, k, j, l);
      }
    }
  }

  /** A call with a result that is gone was dropped, or made by a message that is removed. */
  lemma {:induction false} PairGone(messages: seq<Message>, plan: Plan, p: Pair)
    requires Distinct(Ids(messages)) && PairOk(messages, p)
    ensures p.id in GoneIds(messages, plan) <==> p.id in plan.dropped || p.callIndex in plan.removed
  {
    var made := messages[p.callIndex].toolCalls;
    var k :| 0 <= k < |made| && made[k] == Request(p.id, p.tool, p.arguments);
    GoneAreGone(messages, plan);
    assert CallsGo(made, p.callIndex in plan.removed, plan.dropped, GoneIds(messages, plan));
  }

  /** A call that stays, when nothing is lost. */
  lemma {:induction false} PairWhole(messages: seq<Message>, sorted: seq<Pair>, calls: seq<ToolCall>, replies: Replies,
                                     p: Pair)
    requires calls == Numbered(sorted, |messages|) && Apart(calls) && NothingLost(messages, calls, replies)
    requires p in sorted && Distinct(Ids(messages)) && PairOk(messages, p)
    ensures var plan := PlanOf(calls, replies);
      && (p.id in GoneIds(messages, plan) <==> p.id in plan.dropped)
      && (p.id !in plan.dropped ==> Rewritten(messages[p.resultIndex], p.resultIndex, plan).Some?)
  {
    var k :| 0 <= k < |sorted| && sorted[k] == p;
    assert calls[k] == CallOf(p, k + 1, |messages|);
    DroppedAt(calls, replies, k);
    PairGone(messages, PlanOf(calls, replies), p);
  }

  lemma EachKept(messages: seq<Message>, plan: Plan, gone: set<Id>, paired: seq<Pair>)
    requires Consistent(plan, paired) && forall p :: p in paired ==> p.resultIndex < |messages|
    requires forall p :: p in paired ==> (p.id in gone <==> p.id in plan.dropped)
    requires forall p :: p in paired && p.id !in plan.dropped ==>
      Rewritten(messages[p.resultIndex], p.resultIndex, plan).Some?
    ensures AllKept(messages, plan, gone, paired)
  {
  }

  lemma {:induction false} PairedWhole(messages: seq<Message>, calls: seq<ToolCall>, replies: Replies, p: Pair)
    requires Collection(messages) == Collected(calls) && NothingLost(messages, calls, replies)
    requires ReadAll(messages).Read? && p in ReadAll(messages).scan.paired
    ensures p.resultIndex < |messages|
    ensures var plan := PlanOf(calls, replies);
      && (p.id in GoneIds(messages, plan) <==> p.id in plan.dropped)
      && (p.id !in plan.dropped ==> Rewritten(messages[p.resultIndex], p.resultIndex, plan).Some?)
  {
    ReadAllOk(messages);
    SortedOrder(messages);
    CollectedApart(messages);
    assert p in Sorted(messages) && PairOk(messages, p);
    PairWhole(messages, Sorted(messages), calls, replies, p);
  }

  /** When nothing is lost, every result that stays is read again. */
  lemma {:induction false} NothingLostKept(messages: seq<Message>, calls: seq<ToolCall>, replies: Replies)
    requires Collection(messages) == Collected(calls) && NothingLost(messages, calls, replies)
    ensures ReadAll(messages).Read?
    ensures var plan := PlanOf(calls, replies);
      AllKept(messages, plan, GoneIds(messages, plan), ReadAll(messages).scan.paired)
  {
    var (plan, paired) := (PlanOf(calls, replies), ReadAll(messages).scan.paired);
    PlanFits(messages, replies);
    forall p | p in paired
      ensures p.resultIndex < |messages|
      ensures p.id in GoneIds(messages, plan) <==> p.id in plan.dropped
      ensures p.id !in plan.dropped ==> Rewritten(messages[p.resultIndex], p.resultIndex, plan).Some?
    {
      PairedWhole(messages, calls, replies, p);
    }
    EachKept(messages, plan, GoneIds(messages, plan), paired);
  }

  lemma {:induction false} NothingLostReads(messages: seq<Message>, calls: seq<ToolCall>, replies: Replies)
    requires Collection(messages) == Collected(calls) && NothingLost(messages, calls, replies)
    ensures ReadsAgain(messages, calls, replies)
  {
    var (plan, sorted) := (PlanOf(calls, replies), Sorted(messages));
    assert calls == Numbered(sorted, |messages|);
    ReadAllOk(messages);
    PlanFits(messages, replies);
    GoneAreGone(messages, plan);
    NothingLostKept(messages, calls, replies);
    SortedLeft(messages, plan, GoneIds(messages, plan));
    var left := Left(messages, plan);
    CollectionOk(left);
    var again := Numbered(Sorted(left), |left|);
    assert SourceIds(calls) == PairIds(sorted) && SourceIds(again) == PairIds(Sorted(left));
    CollectedApart(messages);
    forall j | 0 <= j < |again| ensures Comes(calls, again[j], replies) {
      assert Sorted(left)[j] in Sorted(left) && IsLeft(sorted, Sorted(left)[j], plan);
      LeftComes(sorted, Sorted(left)[j], calls, again[j], |messages|, j, |left|, replies);
    }
  }

  /** How many messages report a result. */
  ghost function Results(messages: seq<Message>): nat {
    if messages == [] then
      0
    else
      var n := |messages| - 1;
      Results(messages[..n]) + if messages[n].role == Tool then 1 else 0
  }

  /** How many results the plan does not remove. */
  ghost function Staying(messages: seq<Message>, plan: Plan): nat {
    if messages == [] then
      0
    else
      var n := |messages| - 1;
      Staying(messages[..n], plan) + if messages[n].role == Tool && n !in plan.removed then 1 else 0
  }

  /** Each result read ends one call. */
  lemma {:induction false} PairsCounted(messages: seq<Message>)
    requires ReadAll(messages).Read?
    ensures |ReadAll(messages).scan.paired| == Results(messages)
  {
    if messages != [] {
      var n := |messages| - 1;
      PairsCounted(messages[..n]);
      MessagePairs(ReadAll(messages[..n]).scan, n, messages[n]);
    }
  }

  /** A message that reports a result adds one pair, which says so. */
  lemma {:induction false} MessagePairs(scan: Scan, index: nat, m: Message)
    requires ReadMessage(scan, index, m).Read?
    ensures var paired := ReadMessage(scan, index, m).scan.paired;
      if m.role == Tool then
        |paired| == |scan.paired| + 1 && scan.paired <= paired && paired[|scan.paired|].resultIndex == index
      else
        paired == scan.paired
  {
    if m.role == Tool {
      CallsKeepPairs(ReadResult(scan, index, m).scan, index, m.toolCalls);
    } else {
      CallsKeepPairs(scan, index, m.toolCalls);
    }
  }

  lemma UndroppedLast(pairs: seq<Pair>, p: Pair, dropped: set<Id>)
    ensures Undropped(PairIds(pairs + [p]), dropped)
      == Undropped(PairIds(pairs), dropped) + if p.id in dropped then [] else [p.id]
  {
    assert PairIds(pairs + [p])[..|pairs|] == PairIds(pairs);
  }

  /** A message that reports a result adds one undropped call, unless the plan removes it. */
  lemma {:induction false} UndroppedNext(scan: Scan, index: nat, m: Message, plan: Plan)
    requires ReadMessage(scan, index, m).Read? && Consistent(plan, ReadMessage(scan, index, m).scan.paired)
    ensures Consistent(plan, scan.paired)
    ensures |Undropped(PairIds(ReadMessage(scan, index, m).scan.paired), plan.dropped)|
      == |Undropped(PairIds(scan.paired), plan.dropped)| + if m.role == Tool && index !in plan.removed then 1 else 0
  {
    var (before, after) := (scan.paired, ReadMessage(scan, index, m).scan.paired);
    MessagePairs(scan, index, m);
    assert forall p :: p in before ==> p in after;
    if m.role == Tool {
      assert after == before + [after[|before|]];
      UndroppedLast(before, after[|before|], plan.dropped);
    }
  }

  lemma {:induction false} UndroppedPairs(messages: seq<Message>, plan: Plan)
    requires ReadAll(messages).Read? && Consistent(plan, ReadAll(messages).scan.paired)
    ensures |Undropped(PairIds(ReadAll(messages).scan.paired), plan.dropped)| == Staying(messages, plan)
  {
    if messages != [] {
      var n := |messages| - 1;
      UndroppedNext(ReadAll(messages[..n]).scan, n, messages[n], plan);
      UndroppedPairs(messages[..n], plan);
    }
  }

  lemma ResultsOne(messages: seq<Message>, m: Message)
    ensures Results(messages + [m]) == Results(messages) + if m.role == Tool then 1 else 0
  {
    assert (messages + [m])[..|messages|] == messages;
  }

  lemma {:induction false} LeftOne(front: seq<Message>, m: Message, plan: Plan)
    ensures var r := Rewritten(m, |front|, plan);
      Left(front + [m], plan) == if r.None? then Left(front, plan) else Left(front, plan) + [r.value]
  {
    assert (front + [m])[..|front|] == front;
  }

  /** How many results a message leaves. */
  function Stays(m: Message, i: nat, plan: Plan): nat {
    if m.role == Tool && Rewritten(m, i, plan).Some? then 1 else 0
  }

  lemma {:induction false} ResultsNext(front: seq<Message>, m: Message, plan: Plan)
    ensures Results(Left(front + [m], plan)) == Results(Left(front, plan)) + Stays(m, |front|, plan)
  {
    LeftOne(front, m, plan);
    if Rewritten(m, |front|, plan).Some? {
      ResultsOne(Left(front, plan), Rewritten(m, |front|, plan).value);
    }
  }

  lemma {:induction false} StayingNext(front: seq<Message>, m: Message, plan: Plan)
    ensures Staying(front + [m], plan)
      == Staying(front, plan) + if m.role == Tool && |front| !in plan.removed then 1 else 0
  {
    assert (front + [m])[..|front|] == front;
  }

  /** A message adds no more results than the plan lets stay, and one fewer when it goes though the plan lets it stay. */
  lemma {:induction false} GoesNext(front: seq<Message>, m: Message, plan: Plan)
    ensures Results(Left(front + [m], plan)) - Results(Left(front, plan)) <= Staying(front + [m], plan) - Staying(front, plan)
    ensures m.role == Tool && |front| !in plan.removed && Rewritten(m, |front|, plan).None? ==>
      Results(Left(front + [m], plan)) - Results(Left(front, plan)) < Staying(front + [m], plan) - Staying(front, plan)
  {
    ResultsNext(front, m, plan);
    StayingNext(front, m, plan);
  }

  lemma {:induction false} LeftResults(messages: seq<Message>, plan: Plan)
    ensures Results(Left(messages, plan)) <= Staying(messages, plan)
  {
    if messages != [] {
      var (front, m) := (messages[..|messages| - 1], messages[|messages| - 1]);
      LeftResults(front, plan);
      GoesNext(front, m, plan);
      assert messages == front + [m];
    }
  }

  lemma {:induction false} FewerStay(messages: seq<Message>, plan: Plan, n: nat)
    requires n <= |messages| && Results(Left(messages[..n], plan)) < Staying(messages[..n], plan)
    ensures Results(Left(messages, plan)) < Staying(messages, plan)
    decreases |messages| - n
  {
    if n == |messages| {
      assert messages[..n] == messages;
    } else {
      GoesNext(messages[..n], messages[n], plan);
      TakeNext(messages, n);
      FewerStay(messages, plan, n + 1);
    }
  }

  /** A result the plan does not remove goes when it is left without calls and content. */
  lemma ResultGoes(messages: seq<Message>, plan: Plan, i: nat)
    requires i < |messages| && messages[i].role == Tool && i !in plan.removed
    requires Rewritten(messages[i], i, plan).None?
    ensures Results(Left(messages, plan)) < Staying(messages, plan)
  {
    LeftResults(messages[..i], plan);
    GoesNext(messages[..i], messages[i], plan);
    TakeNext(messages, i);
    FewerStay(messages, plan, i + 1);
  }

  lemma {:induction false} UndroppedDistinct(ids: seq<Id>, dropped: set<Id>)
    requires Distinct(ids)
    ensures Distinct(Undropped(ids, dropped))
  {
    if ids != [] {
      var n := |ids| - 1;
      assert forall i :: 0 <= i < n ==> ids[..n][i] == ids[i];
      UndroppedDistinct(ids[..n], dropped);
    }
  }

  /** As many results stay as calls are not dropped. */
  lemma {:induction false} UndroppedCounted(messages: seq<Message>, plan: Plan)
    requires ReadAll(messages).Read? && Consistent(plan, ReadAll(messages).scan.paired)
    ensures |Undropped(PairIds(Sorted(messages)), plan.dropped)| == Staying(messages, plan)
  {
    var (sorted, paired) := (Sorted(messages), ReadAll(messages).scan.paired);
    ReadAllOk(messages);
    SortedOrder(messages);
    assert PairedOk(messages, ReadAll(messages).scan);
    UndroppedPairs(messages, plan);
    UndroppedDistinct(PairIds(sorted), plan.dropped);
    UndroppedDistinct(PairIds(paired), plan.dropped);
    SameIds(sorted, paired);
    SameLength(Undropped(PairIds(sorted), plan.dropped), Undropped(PairIds(paired), plan.dropped));
  }

  lemma SameIds(a: seq<Pair>, b: seq<Pair>)
    requires forall p :: p in a <==> p in b
    ensures forall id :: id in PairIds(a) <==> id in PairIds(b)
  {
    forall id ensures id in PairIds(a) <==> id in PairIds(b) {
      if id in PairIds(a) {
        var k :| 0 <= k < |a| && PairIds(a)[k] == id;
        assert a[k] in b;
        var j :| 0 <= j < |b| && b[j] == a[k];
        assert PairIds(b)[j] == id;
      }
      if id in PairIds(b) {
        var k :| 0 <= k < |b| && PairIds(b)[k] == id;
        assert b[k] in a;
        var j :| 0 <= j < |a| && a[j] == b[k];
        assert PairIds(a)[j] == id;
      }
    }
  }

  /** A call found again was made by a message that is left. */
  lemma {:induction false} FoundAgain(messages: seq<Message>, calls: seq<ToolCall>, replies: Replies, k: nat)
    requires Collection(messages) == Collected(calls) && ReadsAgain(messages, calls, replies)
    requires k < |calls| && !Drops(calls[k], replies)
    ensures calls[k].callIndex !in PlanOf(calls, replies).removed
  {
    var plan := PlanOf(calls, replies);
    var (left, again) := (Left(messages, plan), Collection(Left(messages, plan)).calls);
    var id := calls[k].sourceId;
    ReadAllOk(messages);
    CollectedApart(messages);
    DroppedAt(calls, replies, k);
    assert SourceIds(calls)[k] == id && id in Undropped(SourceIds(calls), plan.dropped);
    var j :| 0 <= j < |again| && SourceIds(again)[j] == id;
    assert CallOk(left, again[j]);
    var made := left[again[j].callIndex].toolCalls;
    var l :| 0 <= l < |made| && made[l].id == id;
    CallMade(left, again[j].callIndex, l);
    GoneAreGone(messages, plan);
    LeftIds(messages, plan, GoneIds(messages, plan));
    CollectionOk(messages);
    assert CallOk(messages, calls[k]);
    PairGone(messages, plan, Sorted(messages)[k]);
  }

  lemma {:induction false} ReadsLoseNothing(messages: seq<Message>, calls: seq<ToolCall>, replies: Replies)
    requires Collection(messages) == Collected(calls) && ReadsAgain(messages, calls, replies)
    ensures NothingLost(messages, calls, replies)
  {
    var (plan, sorted) := (PlanOf(calls, replies), Sorted(messages));
    var left := Left(messages, plan);
    assert SourceIds(calls) == PairIds(sorted);
    PlanFits(messages, replies);
    UndroppedCounted(messages, plan);
    PairsCounted(left);
    CollectionOk(messages);
    CollectedApart(messages);
    forall k | 0 <= k < |calls| && !Drops(calls[k], replies) ensures StaysWhole(messages, calls[k], plan) {
      FoundAgain(messages, calls, replies, k);
      DroppedAt(calls, replies, k);
      assert CallOk(messages, calls[k]);
      var i := calls[k].resultIndex;
      if Rewritten(messages[i], i, plan).None? {
        ResultGoes(messages, plan, i);
      }
    }
  }

  /** What is left can be read again exactly when no call that stays loses one of its messages. */
  lemma ReadAgainIff(messages: seq<Message>, calls: seq<ToolCall>, replies: Replies)
    requires Collection(messages) == Collected(calls)
    ensures ReadsAgain(messages, calls, replies) <==> NothingLost(messages, calls, replies)
  {
    if NothingLost(messages, calls, replies) {
      NothingLostReads(messages, calls, replies);
    }
    if ReadsAgain(messages, calls, replies) {
      ReadsLoseNothing(messages, calls, replies);
    }
  }

  /** Tool messages that make no calls, as in the recorded format, lose none. */
  lemma {:induction false} QuietLosesNothing(messages: seq<Message>, calls: seq<ToolCall>, replies: Replies)
    requires Collection(messages) == Collected(calls) && ToolsQuiet(messages)
    ensures NothingLost(messages, calls, replies)
  {
    var plan := PlanOf(calls, replies);
    CollectionOk(messages);
    CollectedApart(messages);
    PlanFits(messages, replies);
    forall k | 0 <= k < |calls| && !Drops(calls[k], replies) ensures StaysWhole(messages, calls[k], plan) {
      assert CallOk(messages, calls[k]);
      DroppedAt(calls, replies, k);
    }
  }

  /** So what is left of a recorded trace can always be read again. */
  lemma ReadAgain(messages: seq<Message>, calls: seq<ToolCall>, replies: Replies)
    requires Collection(messages) == Collected(calls) && ToolsQuiet(messages)
    ensures ReadsAgain(messages, calls, replies)
  {
    QuietLosesNothing(messages, calls, replies);
    ReadAgainIff(messages, calls, replies);
  }

  const NO_ARGUMENTS := Arguments([], 0, true)

  const QUIET := Message(User, [], None, [], false)

  /** A call, its result that makes a second call, and that call's result. */
  const CALLING := [QUIET, Message(Other([]), [], None, [Request(0, [], NO_ARGUMENTS)], false),
                    Message(Tool, [], Some(0), [Request(1, [], NO_ARGUMENTS)], false), Message(Tool, [], Some(1), [], false)]

  const FIRST := Pair(0, [], NO_ARGUMENTS, 1, 2, [], false)

  const SECOND := Pair(1, [], NO_ARGUMENTS, 2, 3, [], false)

  lemma {:induction false} QuietRead(front: seq<Message>, n: nat)
    ensures ReadAll(front + Copies(n, QUIET)) == ReadAll(front) && Ids(front + Copies(n, QUIET)) == Ids(front)
  {
    var all := front + Copies(n, QUIET);
    if n == 0 {
      assert all == front;
    } else {
      QuietRead(front, n - 1);
      assert all == (front + Copies(n - 1, QUIET)) + [QUIET];
      assert all[..|all| - 1] == front + Copies(n - 1, QUIET);
      assert RequestIds(QUIET.toolCalls) == [];
    }
  }

  lemma CopiesNext<T>(n: nat, x: T)
    ensures Copies(n + 1, x) == Copies(n, x) + [x]
  {
  }

  lemma QuietLeftNext(front: seq<Message>, left: seq<Message>, n: nat, plan: Plan)
    requires Left(front, plan) == left + Copies(n, QUIET) && |front| !in plan.removed && |front| !in plan.replaced
    ensures Left(front + [QUIET], plan) == left + Copies(n + 1, QUIET)
  {
    LeftOne(front, QUIET, plan);
    CopiesNext(n, QUIET);
    assert Rewritten(QUIET, |front|, plan) == Some(QUIET);
    assert (left + Copies(n, QUIET)) + [QUIET] == left + (Copies(n, QUIET) + [QUIET]);
  }

  lemma {:induction false} QuietLeft(front: seq<Message>, n: nat, plan: Plan)
    requires forall i :: i >= |front| ==> i !in plan.removed && i !in plan.replaced
    ensures Left(front + Copies(n, QUIET), plan) == Left(front, plan) + Copies(n, QUIET)
  {
    var all := front + Copies(n, QUIET);
    if n == 0 {
      assert all == front && Left(front, plan) + [] == Left(front, plan);
    } else {
      var before := front + Copies(n - 1, QUIET);
      QuietLeft(front, n - 1, plan);
      CopiesNext(n - 1, QUIET);
      assert all == before + [QUIET];
      QuietLeftNext(before, Left(front, plan), n - 1, plan);
    }
  }

  lemma {:induction false} ReadOne(front: seq<Message>, m: Message, scan: Scan)
    requires ReadAll(front) == Read(scan)
    ensures ReadAll(front + [m]) == ReadMessage(scan, |front|, m)
  {
    assert (front + [m])[..|front|] == front;
  }

  /** A message's only call. */
  lemma {:induction false} ReadOnlyCall(scan: Scan, index: nat, call: Request)
    ensures ReadCalls(scan, index, [call]) == ReadCall(scan, index, call)
  {
    assert [call][..0] == [];
  }

  lemma {:induction false} CallingRead()
    ensures ReadAll(CALLING) == Read(Scan(map[], {0, 1}, [FIRST, SECOND])) && Ids(CALLING) == [0, 1]
  {
    var (first, result, second) := (CALLING[1], CALLING[2], CALLING[3]);
    assert [QUIET][..0] == [];
    assert ReadAll([QUIET]) == Read(Scan(map[], {}, []));
    var called := Scan(map[0 := Pending(1, [], NO_ARGUMENTS)], {0}, []);
    ReadOnlyCall(Scan(map[], {}, []), 1, first.toolCalls[0]);
    ReadOne([QUIET], first, Scan(map[], {}, []));
    assert [QUIET] + [first] == [QUIET, first];
    assert ReadAll([QUIET, first]) == Read(called);
    ResultIs(called, 2, result, 0);
    var answered := Scan(map[], {0}, [FIRST]);
    assert called.pending - {0} == map[] && [] + [FIRST] == [FIRST];
    assert ReadResult(called, 2, result) == Read(answered);
    ReadOnlyCall(answered, 2, result.toolCalls[0]);
    ReadOne([QUIET, first], result, called);
    assert [QUIET, first] + [result] == [QUIET, first, result];
    var again := Scan(map[1 := Pending(2, [], NO_ARGUMENTS)], {0, 1}, [FIRST]);
    assert ReadAll([QUIET, first, result]) == Read(again);
    ResultIs(again, 3, second, 1);
    assert again.pending - {1} == map[] && [FIRST] + [SECOND] == [FIRST, SECOND];
    ReadOne([QUIET, first, result], second, again);
    assert [QUIET, first, result] + [second] == CALLING;
    CallingIds();
  }

  lemma {:induction false} FirstIds()
    ensures Ids([QUIET, CALLING[1]]) == [0]
  {
    assert RequestIds(QUIET.toolCalls) == [] && RequestIds(CALLING[1].toolCalls) == [0];
    IdsAppend([], QUIET);
    assert [] + [QUIET] == [QUIET] && Ids([QUIET]) == [];
    IdsAppend([QUIET], CALLING[1]);
    assert [QUIET] + [CALLING[1]] == [QUIET, CALLING[1]];
  }

  lemma {:induction false} CallingIds()
    ensures Ids(CALLING) == [0, 1]
  {
    var (early, result, second) := ([QUIET, CALLING[1]], CALLING[2], CALLING[3]);
    FirstIds();
    assert RequestIds(result.toolCalls) == [1] && RequestIds(second.toolCalls) == [];
    IdsAppend(early, result);
    assert [0] + [1] == [0, 1];
    IdsAppend(early + [result], second);
    assert early + [result] + [second] == CALLING;
  }

  lemma {:induction false} CallingSorted()
    ensures SortBy([FIRST, SECOND], ByCall([0, 1])) == [FIRST, SECOND]
  {
    assert [FIRST, SECOND][..1] == [FIRST] && [FIRST][..0] == [];
    assert IndexOf([0, 1], 0) == 0 && [0, 1][1..] == [1] && IndexOf([0, 1], 1) == 1;
  }

  const FIRST_CALL := CallOf(FIRST, 1, 10)

  const SECOND_CALL := CallOf(SECOND, 2, 10)

  /** Drop the first call, keep the second. */
  const DROP_FIRST: Replies := map[CallStays(1) := false, ResultStays(1) := false, CallStays(2) := true,
                                   ResultStays(2) := true]

  lemma {:induction false} CallingPlan()
    ensures PlanOf([FIRST_CALL, SECOND_CALL], DROP_FIRST) == Plan({0}, {2}, map[])
    ensures AllDecided([FIRST_CALL, SECOND_CALL], DROP_FIRST)
  {
    var calls := [FIRST_CALL, SECOND_CALL];
    assert !FIRST_CALL.pinned && !SECOND_CALL.pinned;
    assert Drops(calls[0], DROP_FIRST) && !Drops(calls[1], DROP_FIRST);
    assert DroppedIds(calls, DROP_FIRST) == {0};
    assert RemovedResults(calls, {0}) == {2} by {
      assert calls[0].sourceId in {0};
    }
    assert calls[..1] == [FIRST_CALL] && [FIRST_CALL][..0] == [];
    assert ActionOf(FIRST_CALL, DROP_FIRST) == Some(Dropped) && ActionOf(SECOND_CALL, DROP_FIRST) == Some(Kept);
    assert ReplacedResults([FIRST_CALL], DROP_FIRST) == map[];
    assert ReplacedResults(calls, DROP_FIRST) == map[];
  }

  lemma {:induction false} CallingRewritten()
    ensures var plan := Plan({0}, {2}, map[]);
      && Rewritten(QUIET, 0, plan) == Some(QUIET) && Rewritten(CALLING[1], 1, plan).None?
      && Rewritten(CALLING[2], 2, plan).None? && Rewritten(CALLING[3], 3, plan) == Some(CALLING[3])
  {
    assert CALLING[1].toolCalls[..0] == [];
  }

  lemma {:induction false} CallingLeft()
    ensures Left(CALLING, Plan({0}, {2}, map[])) == [QUIET, CALLING[3]]
  {
    var (plan, first, result, second) := (Plan({0}, {2}, map[]), CALLING[1], CALLING[2], CALLING[3]);
    CallingRewritten();
    LeftOne([], QUIET, plan);
    LeftOne([QUIET], first, plan);
    LeftOne([QUIET, first], result, plan);
    LeftOne([QUIET, first, result], second, plan);
    assert [] + [QUIET] == [QUIET] && [QUIET] + [first] == [QUIET, first];
    assert [QUIET, first] + [result] == [QUIET, first, result] && [QUIET, first, result] + [second] == CALLING;
  }

  lemma {:induction false} CallingCollected()
    ensures Collection(CALLING + Copies(6, QUIET)) == Collected([FIRST_CALL, SECOND_CALL])
  {
    QuietRead(CALLING, 6);
    CallingRead();
    CallingSorted();
    assert Numbered([FIRST, SECOND], 10) == [FIRST_CALL, SECOND_CALL];
  }

  lemma {:induction false} CallingLost()
    ensures ReadAll([QUIET, CALLING[3]] + Copies(6, QUIET)).ValueError?
  {
    var second := CALLING[3];
    QuietRead([QUIET, second], 6);
    assert [QUIET][..0] == [] && [QUIET] + [second] == [QUIET, second];
    assert ReadAll([QUIET]) == Read(Scan(map[], {}, []));
    ReadOne([QUIET], second, Scan(map[], {}, []));
    assert !HasAnswered(map[], Some(1));
  }

  /** A tool message that makes a call takes it along when its own call is dropped. Here the first call is dropped
      and the second kept, none is pinned, and what is left cannot be read: a result has lost its call. */
  lemma {:induction false} CallsLostWithResult(messages: seq<Message>, calls: seq<ToolCall>)
    requires messages == CALLING + Copies(6, QUIET) && calls == [FIRST_CALL, SECOND_CALL]
    ensures Collection(messages) == Collected(calls) && AllDecided(calls, DROP_FIRST)
    ensures !NothingLost(messages, calls, DROP_FIRST)
    ensures Collection(Left(messages, PlanOf(calls, DROP_FIRST))).Refused?
  {
    CallingCollected();
    CallingPlan();
    QuietLeft(CALLING, 6, Plan({0}, {2}, map[]));
    CallingLeft();
    CallingLost();
    ReadAgainIff(messages, calls, DROP_FIRST);
  }

  function ArgumentChars(calls: seq<Request>): nat {
    if calls == [] then 0 else ArgumentChars(calls[..|calls| - 1]) + calls[|calls| - 1].arguments.chars
  }

  /** `message_chars` */
  function MessageChars(messages: seq<Message>): nat {
    if messages == [] then
      0
    else
      var n := |messages| - 1;
      MessageChars(messages[..n]) + |messages[n].content| + ArgumentChars(messages[n].toolCalls)
  }

  lemma {:induction false} RemainingChars(calls: seq<Request>, dropped: set<Id>)
    ensures ArgumentChars(Remaining(calls, dropped)) <= ArgumentChars(calls)
  {
    if calls != [] {
      var n := |calls| - 1;
      RemainingChars(calls[..n], dropped);
      if calls[n].id !in dropped {
        assert Remaining(calls, dropped)[..|Remaining(calls, dropped)| - 1] == Remaining(calls[..n], dropped);
      }
    }
  }

  lemma {:induction false} DecimalShort(n: nat)
    ensures |Decimal(n)| <= 1 + n / 10
  {
    if n >= 10 {
      DecimalShort(n / 10);
    }
  }

  lemma ShortenedShorter(result: Text, isError: bool)
    ensures |Shortened(result, isError)| <= |result|
  {
    if |result| > RESULT_HEAD_CHARS + 120 {
      DecimalShort(|result| - RESULT_HEAD_CHARS);
    }
  }

  /** The plan replaces results by ones that are no longer. */
  ghost predicate Shortens(plan: Plan, messages: seq<Message>) {
    forall i :: 0 <= i < |messages| && i in plan.replaced ==> |plan.replaced[i]| <= |messages[i].content|
  }

  function CharsOf(m: Message): nat {
    |m.content| + ArgumentChars(m.toolCalls)
  }

  lemma CharsNext(front: seq<Message>, m: Message)
    ensures MessageChars(front + [m]) == MessageChars(front) + CharsOf(m)
  {
    assert (front + [m])[..|front|] == front;
  }

  /** A message that stays is no longer than before. */
  lemma RewrittenShorter(m: Message, i: nat, plan: Plan)
    requires i in plan.replaced ==> |plan.replaced[i]| <= |m.content|
    ensures Rewritten(m, i, plan).Some? ==> CharsOf(Rewritten(m, i, plan).value) <= CharsOf(m)
  {
    RemainingChars(m.toolCalls, plan.dropped);
  }

  lemma {:induction false} LeftShorterNext(front: seq<Message>, m: Message, plan: Plan)
    requires MessageChars(Left(front, plan)) <= MessageChars(front)
    requires |front| in plan.replaced ==> |plan.replaced[|front|]| <= |m.content|
    ensures MessageChars(Left(front + [m], plan)) <= MessageChars(front + [m])
  {
    LeftOne(front, m, plan);
    CharsNext(front, m);
    RewrittenShorter(m, |front|, plan);
    if Rewritten(m, |front|, plan).Some? {
      CharsNext(Left(front, plan), Rewritten(m, |front|, plan).value);
    }
  }

  /** What is left is never longer. */
  lemma {:induction false} LeftShorter(messages: seq<Message>, plan: Plan)
    requires Shortens(plan, messages)
    ensures MessageChars(Left(messages, plan)) <= MessageChars(messages)
  {
    if messages != [] {
      var n := |messages| - 1;
      assert forall i :: 0 <= i < n ==> messages[..n][i] == messages[i];
      LeftShorter(messages[..n], plan);
      LeftShorterNext(messages[..n], messages[n], plan);
      assert messages == messages[..n] + [messages[n]];
    }
  }

  lemma PlanShortens(messages: seq<Message>, calls: seq<ToolCall>, replies: Replies)
    requires CallsOk(messages, calls) && Apart(calls)
    ensures Shortens(PlanOf(calls, replies), messages)
  {
    var plan := PlanOf(calls, replies);
    ReplacedFrom(calls, replies);
    forall i | 0 <= i < |messages| && i in plan.replaced ensures |plan.replaced[i]| <= |messages[i].content| {
      var k :| 0 <= k < |calls| && calls[k].resultIndex == i;
      ReplacedAt(calls, replies, k);
      ShortenedShorter(calls[k].result, calls[k].isError);
      assert CallOk(messages, calls[k]);
    }
  }

  /** Reconstruction never makes a trace longer. */
  lemma NeverLonger(messages: seq<Message>, calls: seq<ToolCall>, replies: Replies)
    requires Collection(messages) == Collected(calls)
    ensures MessageChars(Left(messages, PlanOf(calls, replies))) <= MessageChars(messages)
  {
    CollectionOk(messages);
    CollectedApart(messages);
    assert calls == Numbered(Sorted(messages), |messages|);
    PlanShortens(messages, calls, replies);
    LeftShorter(messages, PlanOf(calls, replies));
  }
}
