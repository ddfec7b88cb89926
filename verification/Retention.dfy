/** What becomes of each message of a trace (`reconstruct_trace`), in terms of the answers given about its calls. */
module Retention {
  import opened Common
  import opened Sorting
  import opened TokenEstimate
  import opened TraceMessages
  import opened TraceCalls
  import opened Reconstruction

  datatype Decision = Decision(sourceId: Id, action: Action)

  datatype Reconstructed = Undecided | Reconstructed(kept: seq<Message>, decisions: seq<Decision>)

  /** The decision made for each call, in order. */
  ghost predicate Decides(decisions: seq<Decision>, calls: seq<ToolCall>, replies: Replies) {
    && |decisions| == |calls|
    && forall k :: 0 <= k < |calls| ==>
         ActionOf(calls[k], replies) == Some(decisions[k].action) && decisions[k].sourceId == calls[k].sourceId
  }

  predicate BothFalse(call: ToolCall, replies: Replies) {
    && !call.pinned && CallStays(call.number) in replies && ResultStays(call.number) in replies
    && !replies[CallStays(call.number)] && !replies[ResultStays(call.number)]
  }

  predicate CallOnly(call: ToolCall, replies: Replies) {
    && !call.pinned && CallStays(call.number) in replies && ResultStays(call.number) in replies
    && replies[CallStays(call.number)] && !replies[ResultStays(call.number)]
  }

  predicate BothAnswered(call: ToolCall, replies: Replies) {
    CallStays(call.number) in replies && ResultStays(call.number) in replies
  }

  /** The action is the one the two answers call for. */
  predicate CalledFor(call: ToolCall, action: Action, replies: Replies) {
    match action
    case Pinned => call.pinned
    case Kept => !call.pinned && BothAnswered(call, replies) && replies[ResultStays(call.number)]
    case Truncated => CallOnly(call, replies)
    case Dropped => BothFalse(call, replies)
  }

  ghost predicate DecisionsRight(decisions: seq<Decision>, calls: seq<ToolCall>, replies: Replies) {
    && |decisions| == |calls|
    && forall k :: 0 <= k < |calls| ==>
         decisions[k].sourceId == calls[k].sourceId && CalledFor(calls[k], decisions[k].action, replies)
  }

  /** The call with this id is one whose answers are both FALSE. */
  ghost predicate Goes(calls: seq<ToolCall>, replies: Replies, id: Id) {
    exists k :: 0 <= k < |calls| && calls[k].sourceId == id && BothFalse(calls[k], replies)
  }

  /** Message i is the result of a call whose answers are both FALSE. */
  ghost predicate ResultGoes(calls: seq<ToolCall>, replies: Replies, i: nat) {
    exists k :: 0 <= k < |calls| && calls[k].resultIndex == i && BothFalse(calls[k], replies)
  }

  /** Message i is the result of a call of which only the call is to stay. */
  ghost predicate ResultCut(calls: seq<ToolCall>, replies: Replies, i: nat) {
    exists k :: 0 <= k < |calls| && calls[k].resultIndex == i && CallOnly(calls[k], replies)
  }

  /** The first 300 units of a long result and a note that counts the others; a short one whole. */
  ghost predicate HeadOf(result: Text, isError: bool, text: Text) {
    if |result| <= 420 then
      text == result
    else
      |text| >= 300 && text[..300] == result[..300] && text[300..] == CutNote(|result| - 300, isError)
  }

  ghost predicate ContentLeft(m: Message, cut: bool, content: Text) {
    if cut then HeadOf(m.content, m.isError, content) else content == m.content
  }

  /** Rising places, exactly those that stay. */
  ghost predicate PlacesOf(at: seq<nat>, n: nat, stays: nat -> bool) {
    && (forall j, k :: 0 <= j < k < |at| ==> at[j] < at[k])
    && forall i: nat :: i in at <==> i < n && stays(i)
  }

  ghost function RequestStays(calls: seq<ToolCall>, replies: Replies, requests: seq<Request>): nat -> bool {
    (i: nat) => i < |requests| && !Goes(calls, replies, requests[i].id)
  }

  /** The requests whose calls do not go, in order. */
  ghost predicate RequestsLeft(calls: seq<ToolCall>, replies: Replies, requests: seq<Request>, left: seq<Request>) {
    exists at: seq<nat> :: PlacesOf(at, |requests|, RequestStays(calls, replies, requests)) && PickedBy(requests, at, left)
  }

  ghost predicate PickedBy<T>(s: seq<T>, at: seq<nat>, picked: seq<T>) {
    |picked| == |at| && forall j :: 0 <= j < |at| ==> at[j] < |s| && picked[j] == s[at[j]]
  }

  /** All calls of the message go, and it made some. */
  ghost predicate LosesCalls(calls: seq<ToolCall>, replies: Replies, m: Message) {
    m.toolCalls != [] && forall r :: r in m.toolCalls ==> Goes(calls, replies, r.id)
  }

  /** Message i goes: as a result, or because it is left without calls and content. */
  ghost predicate MessageGoes(messages: seq<Message>, calls: seq<ToolCall>, replies: Replies, i: nat)
    requires i < |messages|
  {
    || ResultGoes(calls, replies, i)
    || (LosesCalls(calls, replies, messages[i])
        && exists content :: ContentLeft(messages[i], ResultCut(calls, replies, i), content) && Blank(content))
  }

  ghost function MessageStays(messages: seq<Message>, calls: seq<ToolCall>, replies: Replies): nat -> bool {
    (i: nat) => i < |messages| && !MessageGoes(messages, calls, replies, i)
  }

  /** What message i is left as. */
  ghost predicate MessageLeft(messages: seq<Message>, calls: seq<ToolCall>, replies: Replies, i: nat, m: Message) {
    && i < |messages|
    && m.role == messages[i].role && m.toolCallId == messages[i].toolCallId && m.isError == messages[i].isError
    && ContentLeft(messages[i], ResultCut(calls, replies, i), m.content)
    && RequestsLeft(calls, replies, messages[i].toolCalls, m.toolCalls)
  }

  ghost predicate KeptAt(messages: seq<Message>, calls: seq<ToolCall>, replies: Replies, at: seq<nat>, kept: seq<Message>) {
    && PlacesOf(at, |messages|, MessageStays(messages, calls, replies)) && |kept| == |at|
    && forall j :: 0 <= j < |at| ==> MessageLeft(messages, calls, replies, at[j], kept[j])
  }

  /** The messages kept are those that do not go, in order, as the answers leave them. */
  ghost predicate KeptRight(messages: seq<Message>, calls: seq<ToolCall>, replies: Replies, kept: seq<Message>) {
    exists at: seq<nat> :: KeptAt(messages, calls, replies, at, kept)
  }

  /** The calls and results the plan names are those the answers are about. */
  lemma PlanGoes(calls: seq<ToolCall>, replies: Replies, id: Id)
    ensures id in PlanOf(calls, replies).dropped <==> Goes(calls, replies, id)
  {
    if Goes(calls, replies, id) {
      var k :| 0 <= k < |calls| && calls[k].sourceId == id && BothFalse(calls[k], replies);
      assert Drops(calls[k], replies);
    }
    if id in PlanOf(calls, replies).dropped {
      var k :| 0 <= k < |calls| && Drops(calls[k], replies) && calls[k].sourceId == id;
      assert BothFalse(calls[k], replies);
    }
  }

  lemma PlanRemoves(calls: seq<ToolCall>, replies: Replies, i: nat)
    requires Apart(calls)
    ensures i in PlanOf(calls, replies).removed <==> ResultGoes(calls, replies, i)
  {
    if ResultGoes(calls, replies, i) {
      var k :| 0 <= k < |calls| && calls[k].resultIndex == i && BothFalse(calls[k], replies);
      DroppedAt(calls, replies, k);
      assert Drops(calls[k], replies);
    }
    if i in PlanOf(calls, replies).removed {
      var k :| 0 <= k < |calls| && calls[k].sourceId in DroppedIds(calls, replies) && calls[k].resultIndex == i;
      DroppedAt(calls, replies, k);
      assert BothFalse(calls[k], replies);
    }
  }

  lemma ShortenedHead(result: Text, isError: bool)
    ensures HeadOf(result, isError, Shortened(result, isError))
  {
  }

  lemma HeadUnique(result: Text, isError: bool, a: Text, b: Text)
    requires HeadOf(result, isError, a) && HeadOf(result, isError, b)
    ensures a == b
  {
    if |result| > 420 {
      assert a == a[..300] + a[300..] && b == b[..300] + b[300..];
    }
  }

  lemma PlanReplaces(messages: seq<Message>, calls: seq<ToolCall>, replies: Replies, i: nat)
    requires Apart(calls) && CallsOk(messages, calls) && i < |messages|
    ensures i in PlanOf(calls, replies).replaced <==> ResultCut(calls, replies, i)
    ensures i in PlanOf(calls, replies).replaced ==>
      PlanOf(calls, replies).replaced[i] == Shortened(messages[i].content, messages[i].isError)
  {
    ReplacedFrom(calls, replies);
    if k :| 0 <= k < |calls| && calls[k].resultIndex == i {
      ReplacedAt(calls, replies, k);
      assert CallOk(messages, calls[k]);
      assert ActionOf(calls[k], replies) == Some(Truncated) <==> CallOnly(calls[k], replies);
    }
  }

  /** The places of the requests that stay. */
  ghost function RequestPlaces(requests: seq<Request>, dropped: set<Id>): seq<nat> {
    if requests == [] then
      []
    else
      var n := |requests| - 1;
      RequestPlaces(requests[..n], dropped) + if requests[n].id in dropped then [] else [n]
  }

  lemma {:induction false} RequestPlacesOk(requests: seq<Request>, dropped: set<Id>)
    ensures var at := RequestPlaces(requests, dropped);
      && (forall j, k :: 0 <= j < k < |at| ==> at[j] < at[k])
      && (forall i: nat :: i in at <==> i < |requests| && requests[i].id !in dropped)
      && PickedBy(requests, at, Remaining(requests, dropped))
  {
    if requests != [] {
      RequestPlacesOk(requests[..|requests| - 1], dropped);
    }
  }

  lemma RemainingLeft(calls: seq<ToolCall>, replies: Replies, requests: seq<Request>)
    ensures RequestsLeft(calls, replies, requests, Remaining(requests, PlanOf(calls, replies).dropped))
    ensures Remaining(requests, PlanOf(calls, replies).dropped) == []
      <==> forall r :: r in requests ==> Goes(calls, replies, r.id)
    ensures |Remaining(requests, PlanOf(calls, replies).dropped)| != |requests|
      <==> exists r :: r in requests && Goes(calls, replies, r.id)
  {
    var dropped := PlanOf(calls, replies).dropped;
    var at := RequestPlaces(requests, dropped);
    RequestPlacesOk(requests, dropped);
    forall r | r in requests ensures r.id in dropped <==> Goes(calls, replies, r.id) {
      PlanGoes(calls, replies, r.id);
    }
    assert PlacesOf(at, |requests|, RequestStays(calls, replies, requests));
    RemainingCount(requests, dropped);
  }

  lemma {:induction false} RemainingCount(requests: seq<Request>, dropped: set<Id>)
    ensures Remaining(requests, dropped) == [] <==> forall r :: r in requests ==> r.id in dropped
    ensures |Remaining(requests, dropped)| != |requests| <==> exists r :: r in requests && r.id in dropped
  {
    if requests != [] {
      var (front, last) := (requests[..|requests| - 1], requests[|requests| - 1]);
      RemainingCount(front, dropped);
      assert requests == front + [last];
      assert last in requests;
    }
  }

  /** What the plan makes of message i is what the answers leave of it. */
  lemma RewrittenRight(messages: seq<Message>, calls: seq<ToolCall>, replies: Replies, i: nat)
    requires Apart(calls) && CallsOk(messages, calls) && i < |messages|
    ensures var r := Rewritten(messages[i], i, PlanOf(calls, replies));
      && (r.None? <==> MessageGoes(messages, calls, replies, i))
      && (r.Some? ==> MessageLeft(messages, calls, replies, i, r.value))
  {
    var (m, plan) := (messages[i], PlanOf(calls, replies));
    PlanRemoves(calls, replies, i);
    PlanReplaces(messages, calls, replies, i);
    RemainingLeft(calls, replies, m.toolCalls);
    ShortenedHead(m.content, m.isError);
    var content := if i in plan.replaced then plan.replaced[i] else m.content;
    assert ContentLeft(m, ResultCut(calls, replies, i), content);
    if LosesCalls(calls, replies, m) {
      assert m.toolCalls[0] in m.toolCalls;
      if other :| ContentLeft(m, ResultCut(calls, replies, i), other) && Blank(other) {
        SameContent(m, ResultCut(calls, replies, i), content, other);
      }
    }
  }

  lemma SameContent(m: Message, cut: bool, a: Text, b: Text)
    requires ContentLeft(m, cut, a) && ContentLeft(m, cut, b)
    ensures a == b
  {
    if cut {
      HeadUnique(m.content, m.isError, a, b);
    }
  }

  /** The places of the messages that stay. */
  ghost function LeftPlaces(messages: seq<Message>, plan: Plan): seq<nat> {
    if messages == [] then
      []
    else
      var n := |messages| - 1;
      LeftPlaces(messages[..n], plan) + if Rewritten(messages[n], n, plan).None? then [] else [n]
  }

  lemma {:induction false} LeftPlacesOk(messages: seq<Message>, plan: Plan)
    ensures var at := LeftPlaces(messages, plan);
      && (forall j, k :: 0 <= j < k < |at| ==> at[j] < at[k])
      && (forall i: nat :: i in at <==> i < |messages| && Rewritten(messages[i], i, plan).Some?)
      && |Left(messages, plan)| == |at|
      && forall j :: 0 <= j < |at| ==>
           at[j] < |messages| && Rewritten(messages[at[j]], at[j], plan) == Some(Left(messages, plan)[j])
  {
    if messages != [] {
      LeftPlacesOk(messages[..|messages| - 1], plan);
    }
  }

  /** What the plan leaves is what the answers leave. */
  lemma LeftRight(messages: seq<Message>, calls: seq<ToolCall>, replies: Replies)
    requires Collection(messages) == Collected(calls)
    ensures KeptRight(messages, calls, replies, Left(messages, PlanOf(calls, replies)))
  {
    var plan := PlanOf(calls, replies);
    var at := LeftPlaces(messages, plan);
    CollectionOk(messages);
    CollectedApart(messages);
    LeftPlacesOk(messages, plan);
    forall i: nat | i < |messages|
      ensures Rewritten(messages[i], i, plan).None? <==> MessageGoes(messages, calls, replies, i)
      ensures Rewritten(messages[i], i, plan).Some? ==>
        MessageLeft(messages, calls, replies, i, Rewritten(messages[i], i, plan).value)
    {
      RewrittenRight(messages, calls, replies, i);
    }
    assert KeptAt(messages, calls, replies, at, Left(messages, plan));
  }

  lemma ActionsRight(decisions: seq<Decision>, calls: seq<ToolCall>, replies: Replies)
    requires Decides(decisions, calls, replies)
    ensures DecisionsRight(decisions, calls, replies)
  {
  }

  lemma DroppedNext(calls: seq<ToolCall>, replies: Replies, k: nat)
    requires k < |calls|
    ensures DroppedIds(calls[..k + 1], replies)
      == DroppedIds(calls[..k], replies) + if Drops(calls[k], replies) then {calls[k].sourceId} else {}
  {
    var (some, more) := (calls[..k], calls[..k + 1]);
    forall j | 0 <= j < k && Drops(some[j], replies) ensures some[j].sourceId in DroppedIds(more, replies) {
      assert more[j] == some[j];
    }
    if Drops(calls[k], replies) {
      assert more[k].sourceId in DroppedIds(more, replies);
    }
  }

  lemma DecidesNext(decisions: seq<Decision>, calls: seq<ToolCall>, replies: Replies, k: nat, action: Action)
    requires k < |calls| && Decides(decisions, calls[..k], replies) && ActionOf(calls[k], replies) == Some(action)
    ensures Decides(decisions + [Decision(calls[k].sourceId, action)], calls[..k + 1], replies)
  {
    TakeNext(calls, k);
  }

  lemma ReplacedNext(calls: seq<ToolCall>, replies: Replies, k: nat)
    requires k < |calls|
    ensures ReplacedResults(calls[..k + 1], replies) ==
      if ActionOf(calls[k], replies) == Some(Truncated) then
        ReplacedResults(calls[..k], replies)[calls[k].resultIndex := Shortened(calls[k].result, calls[k].isError)]
      else
        ReplacedResults(calls[..k], replies)
  {
    assert calls[..k + 1][..k] == calls[..k];
  }

  lemma Unanswered(calls: seq<ToolCall>, replies: Replies, k: nat)
    requires k < |calls| && ActionOf(calls[k], replies).None?
    ensures !AllDecided(calls, replies)
  {
  }

  /** Decide about every call. */
  method Decide(calls: seq<ToolCall>, replies: Replies)
    returns (ok: bool, dropped: set<Id>, replaced: map<nat, Text>, decisions: seq<Decision>)
    ensures ok <==> AllDecided(calls, replies)
    ensures ok ==> dropped == DroppedIds(calls, replies) && replaced == ReplacedResults(calls, replies)
    ensures ok ==> Decides(decisions, calls, replies)
  {
    ok, dropped, replaced, decisions := true, {}, map[], [];
    for k := 0 to |calls|
      invariant AllDecided(calls[..k], replies) && dropped == DroppedIds(calls[..k], replies)
      invariant replaced == ReplacedResults(calls[..k], replies) && Decides(decisions, calls[..k], replies)
    {
      var call := calls[k];
      var action := ActionOf(call, replies);
      if action.None? {
        Unanswered(calls, replies, k);
        return false, dropped, replaced, decisions;
      }
      DroppedNext(calls, replies, k);
      ReplacedNext(calls, replies, k);
      DecidesNext(decisions, calls, replies, k, action.value);
      assert AllDecided(calls[..k + 1], replies);
      decisions := decisions + [Decision(call.sourceId, action.value)];
      if action.value == Dropped {
        dropped := dropped + {call.sourceId};
      } else if action.value == Truncated {
        replaced := replaced[call.resultIndex := Shortened(call.result, call.isError)];
      }
    }
    assert calls[..|calls|] == calls;
  }

  /** `reconstruct_trace`: it refuses when a call that is not pinned lacks an answer. Otherwise each decision is the one
      the answers call for, and over a trace's own calls the messages kept are what the answers leave. */
  method ReconstructTrace(messages: seq<Message>, calls: seq<ToolCall>, replies: Replies) returns (r: Reconstructed)
    ensures r.Undecided? <==> exists k :: 0 <= k < |calls| && !calls[k].pinned && !BothAnswered(calls[k], replies)
    ensures r.Reconstructed? ==> DecisionsRight(r.decisions, calls, replies) && r.kept == Left(messages, PlanOf(calls, replies))
    ensures r.Reconstructed? && Collection(messages) == Collected(calls) ==> KeptRight(messages, calls, replies, r.kept)
  {
    var ok, dropped, replaced, decisions := Decide(calls, replies);
    if !ok {
      ghost var k :| 0 <= k < |calls| && ActionOf(calls[k], replies).None?;
      assert !BothAnswered(calls[k], replies);
      return Undecided;
    }
    var removed := RemovedResults(calls, dropped);
    var kept := [];
    for i := 0 to |messages|
      invariant kept == Left(messages[..i], PlanOf(calls, replies))
    {
      assert messages[..i + 1][..i] == messages[..i];
      if i !in removed {
        var m := if i in replaced then messages[i].(content := replaced[i]) else messages[i];
        var remaining := Remaining(m.toolCalls, dropped);
        if |remaining| != |m.toolCalls| {
          if remaining != [] || !Blank(m.content) {
            kept := kept + [m.(toolCalls := remaining)];
          }
        } else {
          RemainingAll(m.toolCalls, dropped);
          kept := kept + [m];
        }
      }
    }
    assert messages[..|messages|] == messages;
    ActionsRight(decisions, calls, replies);
    if Collection(messages) == Collected(calls) {
      LeftRight(messages, calls, replies);
    }
    r := Reconstructed(kept, decisions);
  }

  lemma {:induction false} RemainingAll(calls: seq<Request>, dropped: set<Id>)
    requires |Remaining(calls, dropped)| == |calls|
    ensures Remaining(calls, dropped) == calls
  {
    if calls != [] {
      RemainingAll(calls[..|calls| - 1], dropped);
    }
  }
}
