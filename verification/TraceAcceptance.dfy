/** Which traces `collect_tool_calls` accepts: those whose results can be matched with earlier calls. */
module TraceAcceptance {
  import opened Common
  import opened Sorting
  import opened TraceMessages
  import opened TraceCalls

  /** For each tool message, the call it ends. */
  type Ends = map<nat, Id>

  /** The call has been ended by one of the first n messages. */
  ghost predicate Ended(messages: seq<Message>, ends: Ends, n: nat, id: Id) {
    exists j: nat :: j < n && j < |messages| && messages[j].role == Tool && j in ends && ends[j] == id
  }

  /** Tool message i ends a call made before it and not ended yet: the one it names, or else the only one. */
  ghost predicate EndsRightly(messages: seq<Message>, ends: Ends, i: nat)
    requires i < |messages|
  {
    && i in ends && ends[i] in Ids(messages[..i]) && !Ended(messages, ends, i, ends[i])
    && (messages[i].toolCallId == Some(ends[i])
        || (messages[i].toolCallId == None
            && forall id :: id in Ids(messages[..i]) && id != ends[i] ==> Ended(messages, ends, i, id)))
  }

  ghost predicate AllObjects(calls: seq<Request>) {
    forall k :: 0 <= k < |calls| ==> calls[k].arguments.isObject
  }

  /** No id is used twice, arguments are objects, and every result ends its own call. */
  ghost predicate WellPaired(messages: seq<Message>, ends: Ends) {
    && Distinct(Ids(messages))
    && (forall i :: 0 <= i < |messages| ==> AllObjects(messages[i].toolCalls))
    && forall i: nat :: i < |messages| && messages[i].role == Tool ==> EndsRightly(messages, ends, i)
  }

  /** The scan holds the ids of the trace, and the calls without a result yet. */
  ghost predicate ScanIs(messages: seq<Message>, ends: Ends, scan: Scan) {
    && (forall id :: id in scan.seen <==> id in Ids(messages))
    && (forall id :: id in scan.pending <==> id in Ids(messages) && !Ended(messages, ends, |messages|, id))
  }

  /** A message's calls are accepted exactly when their ids are new and their arguments objects. */
  lemma {:induction false} CallsAccepted(scan: Scan, index: nat, calls: seq<Request>, ids: seq<Id>)
    requires Distinct(ids) && forall id :: id in scan.seen <==> id in ids
    ensures ReadCalls(scan, index, calls).Read? <==> Distinct(ids + RequestIds(calls)) && AllObjects(calls)
    ensures ReadCalls(scan, index, calls).Read? ==>
      var after := ReadCalls(scan, index, calls).scan;
      && (forall id :: id in after.seen <==> id in ids + RequestIds(calls))
      && (forall id :: id in after.pending <==> id in scan.pending || id in RequestIds(calls))
  {
    if calls == [] {
      assert RequestIds(calls) == [] && ids + RequestIds(calls) == ids;
    } else {
      var n := |calls| - 1;
      CallsAccepted(scan, index, calls[..n], ids);
      var before := ids + RequestIds(calls[..n]);
      var read := ReadCalls(scan, index, calls[..n]);
      assert RequestIds(calls) == RequestIds(calls[..n]) + [calls[n].id];
      assert ids + RequestIds(calls) == before + [calls[n].id];
      DistinctNext(before, calls[n].id);
      ObjectsNext(calls);
      if read.Read? {
        assert ReadCalls(scan, index, calls) == ReadCall(read.scan, index, calls[n]);
      }
    }
  }

  lemma DistinctNext(ids: seq<Id>, id: Id)
    ensures Distinct(ids + [id]) <==> Distinct(ids) && id !in ids
  {
    var all := ids + [id];
    if Distinct(all) {
      DistinctFront(ids, [id]);
      forall i | 0 <= i < |ids| ensures ids[i] != id {
        assert all[i] != all[|ids|];
      }
    }
  }

  lemma ObjectsNext(calls: seq<Request>)
    requires calls != []
    ensures AllObjects(calls) <==> AllObjects(calls[..|calls| - 1]) && calls[|calls| - 1].arguments.isObject
  {
    var front := calls[..|calls| - 1];
    assert forall k :: 0 <= k < |front| ==> front[k] == calls[k];
  }

  lemma DistinctFront(a: seq<Id>, b: seq<Id>)
    requires Distinct(a + b)
    ensures Distinct(a)
  {
    assert forall i :: 0 <= i < |a| ==> (a + b)[i] == a[i];
  }

  /** What was ended stays so when a message follows, and the message ends at most its own call. */
  lemma {:induction false} EndedNext(front: seq<Message>, m: Message, ends: Ends, id: Id)
    ensures Ended(front + [m], ends, |front|, id) <==> Ended(front, ends, |front|, id)
    ensures Ended(front + [m], ends, |front| + 1, id)
      <==> Ended(front, ends, |front|, id) || (m.role == Tool && |front| in ends && ends[|front|] == id)
  {
    var all := front + [m];
    assert all[|front|] == m;
    if Ended(front, ends, |front|, id) {
      var j: nat :| j < |front| && front[j].role == Tool && j in ends && ends[j] == id;
      assert all[j] == front[j];
    }
    if Ended(all, ends, |front|, id) {
      var j: nat :| j < |front| && all[j].role == Tool && j in ends && ends[j] == id;
      assert all[j] == front[j];
    }
  }

  lemma {:induction false} EndedPrefix(front: seq<Message>, m: Message, ends: Ends, i: nat, id: Id)
    requires i <= |front|
    ensures Ended(front + [m], ends, i, id) <==> Ended(front, ends, i, id)
  {
    assert forall j: nat :: j < |front| ==> (front + [m])[j] == front[j];
  }

  /** A result ends its call the same way in a longer trace. */
  lemma {:induction false} RightlyPrefix(front: seq<Message>, m: Message, ends: Ends, i: nat)
    requires i < |front|
    ensures EndsRightly(front + [m], ends, i) <==> EndsRightly(front, ends, i)
  {
    assert (front + [m])[..i] == front[..i] && (front + [m])[i] == front[i];
    forall id ensures Ended(front + [m], ends, i, id) <==> Ended(front, ends, i, id) {
      EndedPrefix(front, m, ends, i, id);
    }
  }

  lemma {:induction false} PairedPrefix(front: seq<Message>, m: Message, ends: Ends)
    ensures WellPaired(front + [m], ends) <==>
      && WellPaired(front, ends) && Distinct(Ids(front) + RequestIds(m.toolCalls)) && AllObjects(m.toolCalls)
      && (m.role == Tool ==> EndsRightly(front + [m], ends, |front|))
  {
    var all := front + [m];
    IdsAppend(front, m);
    forall i: nat | i < |front| ensures EndsRightly(all, ends, i) <==> EndsRightly(front, ends, i) {
      RightlyPrefix(front, m, ends, i);
    }
    assert forall i :: 0 <= i < |front| ==> all[i] == front[i];
    assert all[|front|] == m;
    if Distinct(Ids(front) + RequestIds(m.toolCalls)) {
      DistinctFront(Ids(front), RequestIds(m.toolCalls));
    }
  }

  /** The result of a message ends its call rightly exactly when a scan of the messages before finds it. */
  lemma {:induction false} AnswersRightly(front: seq<Message>, m: Message, ends: Ends, scan: Scan, id: Id)
    requires ScanIs(front, ends, scan) && |front| in ends && ends[|front|] == id
    ensures Answers(scan.pending, m.toolCallId, id) <==> EndsRightly(front + [m], ends, |front|)
  {
    var all := front + [m];
    assert all[..|front|] == front && all[|front|] == m;
    forall x ensures Ended(all, ends, |front|, x) <==> Ended(front, ends, |front|, x) {
      EndedNext(front, m, ends, x);
    }
    if id in scan.pending {
      OnlyPending(front, ends, scan, id);
    }
  }

  lemma {:induction false} OnlyPending(front: seq<Message>, ends: Ends, scan: Scan, id: Id)
    requires ScanIs(front, ends, scan) && id in scan.pending
    ensures scan.pending.Keys == {id}
      <==> forall x :: x in Ids(front) && x != id ==> Ended(front, ends, |front|, x)
  {
    if scan.pending.Keys == {id} {
      forall x | x in Ids(front) && x != id ensures Ended(front, ends, |front|, x) {
        assert x !in scan.pending.Keys;
      }
    }
  }

  /** One message of a well-paired trace is read. */
  lemma {:induction false} MessageRead(front: seq<Message>, m: Message, ends: Ends, scan: Scan)
    requires ScanIs(front, ends, scan) && WellPaired(front, ends)
    requires Distinct(Ids(front) + RequestIds(m.toolCalls)) && AllObjects(m.toolCalls)
    requires m.role == Tool ==> EndsRightly(front + [m], ends, |front|)
    ensures ReadMessage(scan, |front|, m).Read? && ScanIs(front + [m], ends, ReadMessage(scan, |front|, m).scan)
  {
    IdsAppend(front, m);
    EndsMade(front, ends);
    var now := scan;
    if m.role == Tool {
      assert (front + [m])[..|front|] == front;
      AnswersRightly(front, m, ends, scan, ends[|front|]);
      ResultIs(scan, |front|, m, ends[|front|]);
      now := ReadResult(scan, |front|, m).scan;
    }
    CallsAccepted(now, |front|, m.toolCalls, Ids(front));
    ScanNext(front, m, ends, scan, now, ReadMessage(scan, |front|, m).scan);
  }

  /** The scan after a message, when its result was taken and its calls were added. */
  lemma {:induction false} ScanNext(front: seq<Message>, m: Message, ends: Ends, scan: Scan, now: Scan, after: Scan)
    requires ScanIs(front, ends, scan) && Distinct(Ids(front) + RequestIds(m.toolCalls))
    requires m.role == Tool ==> |front| in ends && now.pending.Keys == scan.pending.Keys - {ends[|front|]}
    requires m.role == Tool ==> ends[|front|] in Ids(front)
    requires m.role != Tool ==> now.pending == scan.pending
    requires forall id :: id in after.seen <==> id in Ids(front) + RequestIds(m.toolCalls)
    requires forall id :: id in after.pending <==> id in now.pending || id in RequestIds(m.toolCalls)
    requires forall j: nat :: j < |front| && front[j].role == Tool && j in ends ==> ends[j] in Ids(front)
    ensures ScanIs(front + [m], ends, after)
  {
    IdsAppend(front, m);
    forall id ensures id in after.pending <==> id in Ids(front + [m]) && !Ended(front + [m], ends, |front| + 1, id) {
      EndedNext(front, m, ends, id);
      assert m.role == Tool ==> (id in now.pending.Keys <==> id in scan.pending.Keys && id != ends[|front|]);
      if id in RequestIds(m.toolCalls) {
        NotBoth(Ids(front), RequestIds(m.toolCalls), id);
      }
    }
  }

  lemma NotBoth(a: seq<Id>, b: seq<Id>, id: Id)
    requires Distinct(a + b) && id in b
    ensures id !in a
  {
    var j :| 0 <= j < |b| && b[j] == id;
    forall i | 0 <= i < |a| ensures a[i] != id {
      assert (a + b)[i] != (a + b)[|a| + j];
    }
  }

  /** A result ends a call that was made. */
  lemma {:induction false} EndsMade(messages: seq<Message>, ends: Ends)
    requires WellPaired(messages, ends)
    ensures forall j: nat :: j < |messages| && messages[j].role == Tool && j in ends ==> ends[j] in Ids(messages)
  {
    forall j: nat | j < |messages| && messages[j].role == Tool && j in ends ensures ends[j] in Ids(messages) {
      assert EndsRightly(messages, ends, j);
      IdsPrefix(messages, j, ends[j]);
    }
  }

  lemma {:induction false} IdsPrefix(messages: seq<Message>, n: nat, id: Id)
    requires n <= |messages| && id in Ids(messages[..n])
    ensures id in Ids(messages)
    decreases |messages|
  {
    if n < |messages| {
      assert messages[..|messages| - 1][..n] == messages[..n];
      IdsPrefix(messages[..|messages| - 1], n, id);
    } else {
      assert messages[..n] == messages;
    }
  }

  /** A well-paired trace is read. */
  lemma {:induction false} WellPairedRead(messages: seq<Message>, ends: Ends)
    requires WellPaired(messages, ends)
    ensures ReadAll(messages).Read? && ScanIs(messages, ends, ReadAll(messages).scan)
  {
    if messages != [] {
      var n := |messages| - 1;
      var front := messages[..n];
      assert messages == front + [messages[n]];
      PairedPrefix(front, messages[n], ends);
      WellPairedRead(front, ends);
      MessageRead(front, messages[n], ends, ReadAll(front).scan);
    }
  }

  /** The ends of the messages before n do not depend on the end of message n. */
  lemma {:induction false} EndsKept(front: seq<Message>, ends: Ends, id: Id)
    requires WellPaired(front, ends)
    ensures WellPaired(front, ends[|front| := id])
    ensures forall n: nat, x :: n <= |front| ==> (Ended(front, ends[|front| := id], n, x) <==> Ended(front, ends, n, x))
  {
    var more := ends[|front| := id];
    forall n: nat, x | n <= |front| ensures Ended(front, more, n, x) <==> Ended(front, ends, n, x) {
      if Ended(front, ends, n, x) {
        var j: nat :| j < n && j < |front| && front[j].role == Tool && j in ends && ends[j] == x;
        assert j in more && more[j] == x;
      }
    }
    forall i: nat | i < |front| && front[i].role == Tool ensures EndsRightly(front, more, i) {
      assert EndsRightly(front, ends, i);
    }
  }

  /** A trace that is read is well paired. */
  lemma {:induction false} ReadWellPaired(messages: seq<Message>) returns (ends: Ends)
    requires ReadAll(messages).Read?
    ensures WellPaired(messages, ends)
  {
    ends := map[];
    if messages != [] {
      var n := |messages| - 1;
      var (front, m) := (messages[..n], messages[n]);
      assert messages == front + [m];
      ends := ReadWellPaired(front);
      var scan := ReadAll(front).scan;
      var now := scan;
      if m.role == Tool {
        var id :| Answers(scan.pending, m.toolCallId, id)
          && ReadResult(scan, n, m)
             == Read(Scan(scan.pending - {id}, scan.seen, scan.paired + [PairOf(id, scan.pending[id], n, m)]));
        EndsKept(front, ends, id);
        ends := ends[n := id];
        now := ReadResult(scan, n, m).scan;
      }
      WellPairedRead(front, ends);
      if m.role == Tool {
        AnswersRightly(front, m, ends, scan, ends[n]);
      }
      CallsAccepted(now, n, m.toolCalls, Ids(front));
      PairedPrefix(front, m, ends);
    }
  }

  /** `collect_tool_calls` accepts a trace exactly when no call id is used twice, all arguments are
      objects, and each tool message ends a call of its own that was made before it: the one it names,
      or, when it names none, the only one not ended yet. */
  lemma AcceptedIff(messages: seq<Message>)
    ensures Collection(messages).Collected? <==> exists ends :: WellPaired(messages, ends)
  {
    if ReadAll(messages).Read? {
      var ends := ReadWellPaired(messages);
    }
    if exists ends :: WellPaired(messages, ends) {
      var ends :| WellPaired(messages, ends);
      WellPairedRead(messages, ends);
    }
  }
}
