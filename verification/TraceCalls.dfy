/** Pairing the tool calls of a recorded trace with their results (`collect_tool_calls`). */
module TraceCalls {
  import opened Common
  import opened Sorting
  import opened TokenEstimate
  import opened TraceMessages

  datatype Pending = Pending(index: nat, tool: Text, arguments: Arguments)

  /** A call with its result, before calls are ordered and numbered. */
  datatype Pair = Pair(id: Id, tool: Text, arguments: Arguments, callIndex: nat, resultIndex: nat, result: Text, isError: bool)

  /** What has been read: calls without a result, every id, and the pairs. */
  datatype Scan = Scan(pending: map<Id, Pending>, seen: set<Id>, paired: seq<Pair>)

  datatype Read = ValueError | Read(scan: Scan)

  /** The call a result belongs to: the one it names, or the only one pending. */
  ghost predicate Answers(pending: map<Id, Pending>, named: Option<Id>, id: Id) {
    id in pending && (named == Some(id) || (named == None && pending.Keys == {id}))
  }

  ghost predicate HasAnswered(pending: map<Id, Pending>, named: Option<Id>) {
    exists id :: Answers(pending, named, id)
  }

  lemma AnswersOne(pending: map<Id, Pending>, named: Option<Id>, a: Id, b: Id)
    requires Answers(pending, named, a) && Answers(pending, named, b)
    ensures a == b
  {
    assert a in pending.Keys && b in pending.Keys;
  }

  function PairOf(id: Id, call: Pending, index: nat, m: Message): Pair {
    Pair(id, call.tool, call.arguments, call.index, index, m.content, m.isError)
  }

  /** A tool message ends its call. */
  ghost function ReadResult(scan: Scan, index: nat, m: Message): Read {
    if HasAnswered(scan.pending, m.toolCallId) then
      var id :| Answers(scan.pending, m.toolCallId, id);
      Read(Scan(scan.pending - {id}, scan.seen, scan.paired + [PairOf(id, scan.pending[id], index, m)]))
    else
      ValueError
  }

  /** A message's calls wait for their results. */
  ghost function ReadCalls(scan: Scan, index: nat, calls: seq<Request>): Read {
    if calls == [] then
      Read(scan)
    else
      match ReadCalls(scan, index, calls[..|calls| - 1])
      case ValueError => ValueError
      case Read(before) => ReadCall(before, index, calls[|calls| - 1])
  }

  ghost function ReadCall(scan: Scan, index: nat, call: Request): Read {
    if call.id in scan.seen || !call.arguments.isObject then
      ValueError
    else
      Read(Scan(scan.pending[call.id := Pending(index, call.tool, call.arguments)], scan.seen + {call.id}, scan.paired))
  }

  ghost function ReadMessage(scan: Scan, index: nat, m: Message): Read {
    if m.role != Tool then
      ReadCalls(scan, index, m.toolCalls)
    else
      match ReadResult(scan, index, m)
      case ValueError => ValueError
      case Read(after) => ReadCalls(after, index, m.toolCalls)
  }

  ghost function ReadAll(messages: seq<Message>): Read {
    if messages == [] then
      Read(Scan(map[], {}, []))
    else
      var n := |messages| - 1;
      match ReadAll(messages[..n])
      case ValueError => ValueError
      case Read(scan) => ReadMessage(scan, n, messages[n])
  }

  /** The ids of all calls, in the order they were made. */
  function Ids(messages: seq<Message>): seq<Id> {
    if messages == [] then [] else Ids(messages[..|messages| - 1]) + RequestIds(messages[|messages| - 1].toolCalls)
  }

  function RequestIds(calls: seq<Request>): (r: seq<Id>)
    ensures |r| == |calls| && forall i :: 0 <= i < |calls| ==> r[i] == calls[i].id
  {
    seq(|calls|, i requires 0 <= i < |calls| => calls[i].id)
  }

  /** The position of an id among others. */
  function IndexOf(ids: seq<Id>, id: Id): (i: nat)
    ensures i <= |ids| && (id in ids <==> i < |ids|)
    ensures i < |ids| ==> ids[i] == id
  {
    if ids == [] then 0 else if ids[0] == id then 0 else 1 + IndexOf(ids[1..], id)
  }

  function ByCall(ids: seq<Id>): Pair -> SortKey {
    (p: Pair) => (IndexOf(ids, p.id), 0)
  }

  /** The ordered, numbered calls of a trace with `count` messages. */
  function Numbered(pairs: seq<Pair>, count: nat): (r: seq<ToolCall>)
    ensures |r| == |pairs|
    ensures forall k :: 0 <= k < |r| ==> r[k] == CallOf(pairs[k], k + 1, count)
  {
    seq(|pairs|, k requires 0 <= k < |pairs| => CallOf(pairs[k], k + 1, count))
  }

  function CallOf(p: Pair, number: nat, count: nat): ToolCall {
    ToolCall(number, p.id, p.tool, p.arguments, p.callIndex, p.resultIndex, p.result, p.isError,
             IsPinned(p.callIndex, count) || IsPinned(p.resultIndex, count))
  }

  datatype Collected = Refused | Collected(calls: seq<ToolCall>)

  /** What `collect_tool_calls` returns. */
  ghost function Collection(messages: seq<Message>): Collected {
    match ReadAll(messages)
    case ValueError => Refused
    case Read(scan) => Collected(Numbered(SortBy(scan.paired, ByCall(Ids(messages))), |messages|))
  }

  /** What every accepted prefix of a trace keeps. */
  ghost predicate ScanOk(messages: seq<Message>, scan: Scan) {
    && (forall id :: id in scan.seen <==> id in Ids(messages))
    && Distinct(Ids(messages))
    && (forall id :: id in scan.pending ==> id in scan.seen && Waits(messages, id, scan.pending[id]))
    && PairedOk(messages, scan)
    && (forall i :: 0 <= i < |messages| && messages[i].role == Tool ==> Ends(scan.paired, i))
  }

  /** The pairs read so far are of calls that no longer wait, in the order of their results. */
  ghost predicate PairedOk(messages: seq<Message>, scan: Scan) {
    && (forall k :: 0 <= k < |scan.paired| ==> scan.paired[k].id in scan.seen && scan.paired[k].id !in scan.pending)
    && (forall k :: 0 <= k < |scan.paired| ==> PairOk(messages, scan.paired[k]))
    && (forall j, k :: 0 <= j < k < |scan.paired| ==>
          scan.paired[j].id != scan.paired[k].id && scan.paired[j].resultIndex < scan.paired[k].resultIndex)
  }

  lemma PairedMore(front: seq<Message>, messages: seq<Message>, scan: Scan, p: Pair)
    requires PairedOk(front, scan) && p.id in scan.pending && p.id in scan.seen && p.resultIndex >= |front|
    requires PairOk(messages, p) && forall k :: 0 <= k < |scan.paired| ==> PairOk(messages, scan.paired[k])
    ensures PairedOk(messages, Scan(scan.pending - {p.id}, scan.seen, scan.paired + [p]))
  {
    forall k | 0 <= k < |scan.paired| ensures scan.paired[k].id != p.id && scan.paired[k].resultIndex < p.resultIndex {
      assert PairOk(front, scan.paired[k]);
    }
  }

  /** Some pair's result is message i. */
  ghost predicate Ends(pairs: seq<Pair>, i: nat) {
    exists p :: p in pairs && p.resultIndex == i
  }

  /** A waiting call was made by the message it names. */
  ghost predicate Waits(messages: seq<Message>, id: Id, call: Pending) {
    call.index < |messages| && Request(id, call.tool, call.arguments) in messages[call.index].toolCalls
  }

  /** A pair's call comes before its result, and both are what the messages say. */
  ghost predicate PairOk(messages: seq<Message>, p: Pair) {
    && p.callIndex < p.resultIndex < |messages|
    && Request(p.id, p.tool, p.arguments) in messages[p.callIndex].toolCalls
    && messages[p.resultIndex].role == Tool
    && p.result == messages[p.resultIndex].content && p.isError == messages[p.resultIndex].isError
  }

  /** A message with only its first calls. */
  function WithCalls(m: Message, n: nat): Message
    requires n <= |m.toolCalls|
  {
    m.(toolCalls := m.toolCalls[..n])
  }

  lemma IdsAppend(messages: seq<Message>, m: Message)
    ensures Ids(messages + [m]) == Ids(messages) + RequestIds(m.toolCalls)
  {
    assert (messages + [m])[..|messages|] == messages;
  }

  /** Facts about earlier messages stay when a message is added, or gains a call. */
  ghost predicate Extends(before: seq<Message>, after: seq<Message>) {
    && |before| <= |after|
    && (forall i :: 0 <= i < |before| ==> before[i].(toolCalls := after[i].toolCalls) == after[i])
    && (forall i, r :: 0 <= i < |before| && r in before[i].toolCalls ==> r in after[i].toolCalls)
  }

  lemma {:induction false} ExtendsOk(before: seq<Message>, after: seq<Message>, scan: Scan)
    requires ScanOk(before, scan) && Extends(before, after)
    ensures forall id :: id in scan.pending ==> Waits(after, id, scan.pending[id])
    ensures forall k :: 0 <= k < |scan.paired| ==> PairOk(after, scan.paired[k])
  {
    forall k | 0 <= k < |scan.paired| ensures PairOk(after, scan.paired[k]) {
      assert PairOk(before, scan.paired[k]);
    }
    forall id | id in scan.pending ensures Waits(after, id, scan.pending[id]) {
      assert Waits(before, id, scan.pending[id]);
    }
  }

  lemma {:induction false} OkQuiet(front: seq<Message>, m: Message, scan: Scan)
    requires ScanOk(front, scan) && m.toolCalls == [] && m.role != Tool
    ensures ScanOk(front + [m], scan)
  {
    IdsAppend(front, m);
    assert Ids(front + [m]) == Ids(front);
    assert Extends(front, front + [m]);
    ExtendsOk(front, front + [m], scan);
  }

  lemma {:induction false} OkResult(front: seq<Message>, m: Message, scan: Scan, id: Id)
    requires ScanOk(front, scan) && m.toolCalls == [] && m.role == Tool && id in scan.pending
    ensures ScanOk(front + [m], Scan(scan.pending - {id}, scan.seen,
                                     scan.paired + [PairOf(id, scan.pending[id], |front|, m)]))
  {
    IdsAppend(front, m);
    assert Ids(front + [m]) == Ids(front);
    assert Extends(front, front + [m]);
    ExtendsOk(front, front + [m], scan);
    assert Waits(front, id, scan.pending[id]);
    assert PairOk(front + [m], PairOf(id, scan.pending[id], |front|, m));
    PairedMore(front, front + [m], scan, PairOf(id, scan.pending[id], |front|, m));
    EndsNext(front, m, scan.paired, PairOf(id, scan.pending[id], |front|, m));
  }

  lemma {:induction false} EndsNext(front: seq<Message>, m: Message, paired: seq<Pair>, p: Pair)
    requires p.resultIndex == |front|
    requires forall i :: 0 <= i < |front| && front[i].role == Tool ==> Ends(paired, i)
    ensures forall i :: 0 <= i <= |front| && (front + [m])[i].role == Tool ==> Ends(paired + [p], i)
  {
    forall i | 0 <= i <= |front| && (front + [m])[i].role == Tool ensures Ends(paired + [p], i) {
      if i == |front| {
        assert p in paired + [p];
      } else {
        assert Ends(paired, i);
        var q :| q in paired && q.resultIndex == i;
        assert q in paired + [p];
      }
    }
  }

  lemma IdsCall(front: seq<Message>, m: Message, n: nat)
    requires n < |m.toolCalls|
    ensures Ids(front + [WithCalls(m, n + 1)]) == Ids(front + [WithCalls(m, n)]) + [m.toolCalls[n].id]
  {
    IdsAppend(front, WithCalls(m, n));
    IdsAppend(front, WithCalls(m, n + 1));
    TakeNext(m.toolCalls, n);
    assert RequestIds(m.toolCalls[..n + 1]) == RequestIds(m.toolCalls[..n]) + [m.toolCalls[n].id];
  }

  lemma {:induction false} OkCall(front: seq<Message>, m: Message, n: nat, scan: Scan)
    requires n < |m.toolCalls| && ScanOk(front + [WithCalls(m, n)], scan)
    requires ReadCall(scan, |front|, m.toolCalls[n]).Read?
    ensures ScanOk(front + [WithCalls(m, n + 1)], ReadCall(scan, |front|, m.toolCalls[n]).scan)
  {
    var (before, after, call) := (front + [WithCalls(m, n)], front + [WithCalls(m, n + 1)], m.toolCalls[n]);
    IdsCall(front, m, n);
    assert Extends(before, after);
    ExtendsOk(before, after, scan);
    assert call == m.toolCalls[..n + 1][n];
    assert Waits(after, call.id, Pending(|front|, call.tool, call.arguments));
    PairedStill(before, after, scan, ReadCall(scan, |front|, call).scan);
    EndsStill(front, WithCalls(m, n), WithCalls(m, n + 1), scan.paired);
  }

  lemma {:induction false} PairedStill(before: seq<Message>, after: seq<Message>, scan: Scan, next: Scan)
    requires PairedOk(before, scan) && forall k :: 0 <= k < |scan.paired| ==> PairOk(after, scan.paired[k])
    requires next.paired == scan.paired && scan.seen <= next.seen && next.pending.Keys <= scan.pending.Keys + (next.seen - scan.seen)
    ensures PairedOk(after, next)
  {
  }

  lemma {:induction false} EndsStill(front: seq<Message>, m: Message, more: Message, paired: seq<Pair>)
    requires m.role == more.role
    requires forall i :: 0 <= i <= |front| && (front + [m])[i].role == Tool ==> Ends(paired, i)
    ensures forall i :: 0 <= i <= |front| && (front + [more])[i].role == Tool ==> Ends(paired, i)
  {
    forall i | 0 <= i <= |front| && (front + [more])[i].role == Tool ensures Ends(paired, i) {
      assert (front + [m])[i].role == Tool;
    }
  }

  lemma {:induction false} OkCalls(front: seq<Message>, m: Message, n: nat, scan: Scan)
    requires n <= |m.toolCalls| && ScanOk(front + [WithCalls(m, 0)], scan)
    requires ReadCalls(scan, |front|, m.toolCalls[..n]).Read?
    ensures ScanOk(front + [WithCalls(m, n)], ReadCalls(scan, |front|, m.toolCalls[..n]).scan)
  {
    if n > 0 {
      assert m.toolCalls[..n][..n - 1] == m.toolCalls[..n - 1];
      OkCalls(front, m, n - 1, scan);
      OkCall(front, m, n - 1, ReadCalls(scan, |front|, m.toolCalls[..n - 1]).scan);
    }
  }

  lemma {:induction false} OkMessage(front: seq<Message>, m: Message, scan: Scan)
    requires ScanOk(front, scan) && ReadMessage(scan, |front|, m).Read?
    ensures ScanOk(front + [m], ReadMessage(scan, |front|, m).scan)
  {
    var quiet := WithCalls(m, 0);
    assert WithCalls(m, |m.toolCalls|) == m && m.toolCalls[..|m.toolCalls|] == m.toolCalls;
    if m.role != Tool {
      OkQuiet(front, quiet, scan);
      OkCalls(front, m, |m.toolCalls|, scan);
    } else {
      var id :| Answers(scan.pending, m.toolCallId, id)
        && ReadResult(scan, |front|, m)
           == Read(Scan(scan.pending - {id}, scan.seen, scan.paired + [PairOf(id, scan.pending[id], |front|, m)]));
      OkResult(front, quiet, scan, id);
      assert PairOf(id, scan.pending[id], |front|, quiet) == PairOf(id, scan.pending[id], |front|, m);
      OkCalls(front, m, |m.toolCalls|, ReadResult(scan, |front|, m).scan);
    }
  }

  /** Every accepted trace keeps it. */
  lemma {:induction false} ReadAllOk(messages: seq<Message>)
    requires ReadAll(messages).Read?
    ensures ScanOk(messages, ReadAll(messages).scan)
  {
    if messages != [] {
      var n := |messages| - 1;
      ReadAllOk(messages[..n]);
      OkMessage(messages[..n], messages[n], ReadAll(messages[..n]).scan);
      assert messages == messages[..n] + [messages[n]];
    }
  }

  /** What the calls of an accepted trace are. */
  ghost predicate CallsOk(messages: seq<Message>, calls: seq<ToolCall>) {
    && (forall k :: 0 <= k < |calls| ==> calls[k].number == k + 1 && CallOk(messages, calls[k]))
    && (forall j, k :: 0 <= j < k < |calls| ==>
          IndexOf(Ids(messages), calls[j].sourceId) < IndexOf(Ids(messages), calls[k].sourceId))
    && (forall i :: 0 <= i < |messages| && messages[i].role == Tool ==> Answered(calls, i))
  }

  /** Message i is the result of some call. */
  ghost predicate Answered(calls: seq<ToolCall>, i: nat) {
    exists c :: c in calls && c.resultIndex == i
  }

  /** The call was made, and answered later by a tool message with this result. */
  ghost predicate CallOk(messages: seq<Message>, c: ToolCall) {
    && c.callIndex < c.resultIndex < |messages|
    && Request(c.sourceId, c.tool, c.arguments) in messages[c.callIndex].toolCalls
    && messages[c.resultIndex].role == Tool
    && c.result == messages[c.resultIndex].content && c.isError == messages[c.resultIndex].isError
    && (c.pinned <==> IsPinned(c.callIndex, |messages|) || IsPinned(c.resultIndex, |messages|))
  }

  /** Collected calls are sound, and in the order they were made. */
  lemma {:induction false} CollectionOk(messages: seq<Message>)
    requires Collection(messages).Collected?
    ensures CallsOk(messages, Collection(messages).calls)
  {
    ReadAllOk(messages);
    var scan := ReadAll(messages).scan;
    SortedPairs(messages, scan);
    SortedOk(messages, scan);
    SortedEnds(messages, scan);
    NumberedOk(messages, SortBy(scan.paired, ByCall(Ids(messages))));
  }

  ghost predicate PairsOk(messages: seq<Message>, pairs: seq<Pair>) {
    forall k :: 0 <= k < |pairs| ==> PairOk(messages, pairs[k])
  }

  lemma {:induction false} SortedEnds(messages: seq<Message>, scan: Scan)
    requires forall i :: 0 <= i < |messages| && messages[i].role == Tool ==> Ends(scan.paired, i)
    ensures forall i :: 0 <= i < |messages| && messages[i].role == Tool ==>
      Ends(SortBy(scan.paired, ByCall(Ids(messages))), i)
  {
    var sorted := SortBy(scan.paired, ByCall(Ids(messages)));
    SameElements(sorted, scan.paired);
    forall i | 0 <= i < |messages| && messages[i].role == Tool ensures Ends(sorted, i) {
      assert Ends(scan.paired, i);
      var p :| p in scan.paired && p.resultIndex == i;
      assert p in sorted;
    }
  }

  lemma {:induction false} SortedOk(messages: seq<Message>, scan: Scan)
    requires PairsOk(messages, scan.paired)
    ensures PairsOk(messages, SortBy(scan.paired, ByCall(Ids(messages))))
  {
    var sorted := SortBy(scan.paired, ByCall(Ids(messages)));
    SameElements(sorted, scan.paired);
    forall k | 0 <= k < |sorted| ensures PairOk(messages, sorted[k]) {
      assert sorted[k] in scan.paired;
    }
  }

  lemma {:induction false} EndsAnswered(pairs: seq<Pair>, count: nat, i: nat)
    requires Ends(pairs, i)
    ensures Answered(Numbered(pairs, count), i)
  {
    var p :| p in pairs && p.resultIndex == i;
    var k :| 0 <= k < |pairs| && pairs[k] == p;
    assert Numbered(pairs, count)[k] in Numbered(pairs, count);
  }

  lemma {:induction false} NumberedOk(messages: seq<Message>, sorted: seq<Pair>)
    requires PairsOk(messages, sorted)
    requires InOrder(Ids(messages), sorted)
    requires forall i :: 0 <= i < |messages| && messages[i].role == Tool ==> Ends(sorted, i)
    ensures CallsOk(messages, Numbered(sorted, |messages|))
  {
    var calls := Numbered(sorted, |messages|);
    forall i | 0 <= i < |messages| && messages[i].role == Tool ensures Answered(calls, i) {
      EndsAnswered(sorted, |messages|, i);
    }
    forall k | 0 <= k < |calls| ensures calls[k].number == k + 1 && CallOk(messages, calls[k]) {
      assert PairOk(messages, sorted[k]);
    }
  }

  /** Calls in the order their ids have. */
  ghost predicate InOrder(ids: seq<Id>, pairs: seq<Pair>) {
    && (forall k :: 0 <= k < |pairs| ==> pairs[k].id in ids)
    && (forall j, k :: 0 <= j < k < |pairs| ==> IndexOf(ids, pairs[j].id) < IndexOf(ids, pairs[k].id))
  }

  /** Sorting by call gives each id its own place. */
  lemma {:induction false} SortedPairs(messages: seq<Message>, scan: Scan)
    requires ScanOk(messages, scan)
    ensures InOrder(Ids(messages), SortBy(scan.paired, ByCall(Ids(messages))))
  {
    assert forall p :: p in scan.paired ==> p.id in Ids(messages);
    assert forall j, k :: 0 <= j < k < |scan.paired| ==> scan.paired[j].id != scan.paired[k].id;
    SortedInOrder(Ids(messages), scan.paired);
  }

  lemma {:induction false} SortedInOrder(ids: seq<Id>, paired: seq<Pair>)
    requires forall p :: p in paired ==> p.id in ids
    requires forall j, k :: 0 <= j < k < |paired| ==> paired[j].id != paired[k].id
    ensures InOrder(ids, SortBy(paired, ByCall(ids)))
  {
    var sorted := SortBy(paired, ByCall(ids));
    SameElements(sorted, paired);
    forall k | 0 <= k < |sorted| ensures sorted[k].id in ids {
      assert sorted[k] in paired;
    }
    forall j, k | 0 <= j < k < |sorted| ensures IndexOf(ids, sorted[j].id) < IndexOf(ids, sorted[k].id) {
      assert KeyLe(ByCall(ids)(sorted[j]), ByCall(ids)(sorted[k]));
      assert sorted[j] in paired && sorted[k] in paired;
      SortedOnce(paired, sorted, j, k);
      assert ids[IndexOf(ids, sorted[j].id)] == sorted[j].id;
    }
  }

  lemma {:induction false} SortedOnce(paired: seq<Pair>, sorted: seq<Pair>, j: nat, k: nat)
    requires forall j, k :: 0 <= j < k < |paired| ==> paired[j].id != paired[k].id
    requires multiset(sorted) == multiset(paired) && j < k < |sorted| && sorted[j] in paired && sorted[k] in paired
    ensures sorted[j].id != sorted[k].id
  {
    if sorted[j].id == sorted[k].id {
      SamePair(paired, sorted[j], sorted[k]);
      CountedTwice(sorted, j, k);
      DistinctCount(paired, sorted[j]);
    }
  }

  lemma SamePair(paired: seq<Pair>, p: Pair, q: Pair)
    requires forall j, k :: 0 <= j < k < |paired| ==> paired[j].id != paired[k].id
    requires p in paired && q in paired && p.id == q.id
    ensures p == q && Distinct(paired)
  {
  }

  /** Find the call a tool message answers. */
  method FindAnswered(pending: map<Id, Pending>, named: Option<Id>) returns (found: Option<Id>)
    ensures found.Some? ==> Answers(pending, named, found.value)
    ensures found.None? ==> !HasAnswered(pending, named)
  {
    var source := named;
    if named == None && |pending.Keys| == 1 {
      var only := Any(pending.Keys);
      SoleMember(pending.Keys, only);
      source := Some(only);
    }
    if source.None? || source.value !in pending {
      NoneAnswered(pending, named);
      return None;
    }
    return source;
  }

  lemma NoneAnswered(pending: map<Id, Pending>, named: Option<Id>)
    requires if named == None then |pending.Keys| != 1 else named.value !in pending
    ensures !HasAnswered(pending, named)
  {
    forall id ensures pending.Keys == {id} ==> |pending.Keys| == 1 {
    }
  }

  lemma SoleMember<T>(s: set<T>, x: T)
    requires x in s && |s| == 1
    ensures s == {x}
  {
    assert |s - {x}| == 0;
    assert s == (s - {x}) + {x};
  }

  /** Read a message's calls. */
  method RegisterCalls(scan: Scan, index: nat, calls: seq<Request>) returns (r: Read)
    ensures r == ReadCalls(scan, index, calls)
  {
    var now := scan;
    for i := 0 to |calls|
      invariant ReadCalls(scan, index, calls[..i]) == Read(now)
    {
      var call := calls[i];
      assert calls[..i + 1][..i] == calls[..i];
      if call.id in now.seen || !call.arguments.isObject {
        CallsRefused(scan, index, calls, i + 1);
        return ValueError;
      }
      now := Scan(now.pending[call.id := Pending(index, call.tool, call.arguments)], now.seen + {call.id}, now.paired);
    }
    assert calls[..|calls|] == calls;
    r := Read(now);
  }

  lemma {:induction false} CallsRefused(scan: Scan, index: nat, calls: seq<Request>, n: nat)
    requires n <= |calls| && ReadCalls(scan, index, calls[..n]).ValueError?
    ensures ReadCalls(scan, index, calls).ValueError?
    decreases |calls|
  {
    if n < |calls| {
      assert calls[..|calls| - 1][..n] == calls[..n];
      CallsRefused(scan, index, calls[..|calls| - 1], n);
    } else {
      assert calls[..n] == calls;
    }
  }

  /** Read one message. */
  method ScanMessage(scan: Scan, index: nat, m: Message) returns (r: Read)
    ensures r == ReadMessage(scan, index, m)
  {
    var now := scan;
    if m.role == Tool {
      var source := FindAnswered(now.pending, m.toolCallId);
      if source.None? {
        return ValueError;
      }
      var id := source.value;
      now := Scan(now.pending - {id}, now.seen, now.paired + [PairOf(id, now.pending[id], index, m)]);
      ResultIs(scan, index, m, id);
    }
    r := RegisterCalls(now, index, m.toolCalls);
  }

  lemma ResultIs(scan: Scan, index: nat, m: Message, id: Id)
    requires Answers(scan.pending, m.toolCallId, id)
    ensures ReadResult(scan, index, m)
      == Read(Scan(scan.pending - {id}, scan.seen, scan.paired + [PairOf(id, scan.pending[id], index, m)]))
  {
    var other :| Answers(scan.pending, m.toolCallId, other)
      && ReadResult(scan, index, m)
         == Read(Scan(scan.pending - {other}, scan.seen, scan.paired + [PairOf(other, scan.pending[other], index, m)]));
    AnswersOne(scan.pending, m.toolCallId, id, other);
  }

  lemma {:induction false} TraceRefused(messages: seq<Message>, n: nat)
    requires n <= |messages| && ReadAll(messages[..n]).ValueError?
    ensures ReadAll(messages).ValueError?
    decreases |messages|
  {
    if n < |messages| {
      assert messages[..|messages| - 1][..n] == messages[..n];
      TraceRefused(messages[..|messages| - 1], n);
    } else {
      assert messages[..n] == messages;
    }
  }

  /** `collect_tool_calls`: every accepted trace's calls, each made before its result, in the order
      they were made. */
  method CollectToolCalls(messages: seq<Message>) returns (r: Collected)
    ensures r == Collection(messages)
    ensures r.Collected? ==> CallsOk(messages, r.calls)
  {
    var scan := Scan(map[], {}, []);
    for index := 0 to |messages|
      invariant ReadAll(messages[..index]) == Read(scan)
    {
      assert messages[..index + 1][..index] == messages[..index];
      var read := ScanMessage(scan, index, messages[index]);
      if read.ValueError? {
        TraceRefused(messages, index + 1);
        return Refused;
      }
      scan := read.scan;
    }
    assert messages[..|messages|] == messages;
    r := Collected(Numbered(SortBy(scan.paired, ByCall(Ids(messages))), |messages|));
    CollectionOk(messages);
  }
}
