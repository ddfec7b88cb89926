/** Fitting the decision context of a compaction into its token budget (`build_state`). */
module StateBudget {
  import opened Common
  import opened Sorting
  import opened Permutations
  import opened TokenEstimate
  import opened TraceMessages
  import opened StateHistory
  import opened StateTexts

  /** One entry per message that says something, and its size. */
  method BuildHistory(messages: seq<Message>, calls: seq<ToolCall>, writer: Writer, cap: nat)
    returns (history: seq<Entry>, sizes: seq<nat>)
    requires cap > 0
    ensures history == Entries(messages, calls, cap, |messages|) && sizes == writer.Sizes(history)
  {
    history := [];
    for i := 0 to |messages|
      invariant history == Entries(messages, calls, cap, i)
    {
      var own := OwnCalls(calls, i);
      if messages[i].role != Tool && (!Blank(messages[i].content) || own != []) {
        history := history + [Entry(i, messages[i].role, messages[i].content, Notes(own, cap))];
      }
    }
    sizes := writer.Sizes(history);
  }

  /** A stage that stops at its first form within budget, or goes through all entries. */
  ghost predicate Staged(writer: Writer, stage: Stage, change: Change, history: seq<Entry>, order: seq<int>,
                         done: bool, after: seq<Entry>)
    requires Within(order, |history|)
  {
    FirstFitting(writer, Forms(stage, Along(change, history, order)))
      == if done then Built(after, Tokens(writer, after), stage) else OverBudget
  }

  lemma FormsAppend(stage: Stage, a: seq<seq<Entry>>, b: seq<seq<Entry>>)
    ensures Forms(stage, a + b) == Forms(stage, a) + Forms(stage, b)
  {
  }

  lemma {:induction false} AlongPrefix(change: Change, history: seq<Entry>, order: seq<int>, k: nat)
    requires Within(order, |history|) && k <= |order|
    ensures Along(change, history, order[..k]) <= Along(change, history, order)
  {
    if k < |order| {
      var n := |order| - 1;
      AlongPrefix(change, history, order[..n], k);
      assert order[..n][..k] == order[..k];
    } else {
      assert order[..k] == order;
    }
  }

  /** A form within budget stays the first when more forms follow. */
  lemma FirstStays(writer: Writer, stage: Stage, some: seq<seq<Entry>>, all: seq<seq<Entry>>)
    requires some <= all && FirstFitting(writer, Forms(stage, some)).Built?
    ensures FirstFitting(writer, Forms(stage, all)) == FirstFitting(writer, Forms(stage, some))
  {
    var more := all[|some|..];
    assert all == some + more;
    FormsAppend(stage, some, more);
    FirstOfBoth(writer, Forms(stage, some), Forms(stage, more));
  }

  lemma OneMoreForm(writer: Writer, stage: Stage, some: seq<seq<Entry>>, h: seq<Entry>)
    requires FirstFitting(writer, Forms(stage, some)).OverBudget?
    ensures FirstFitting(writer, Forms(stage, some + [h]))
      == if InBudget(writer, h) then Built(h, Tokens(writer, h), stage) else OverBudget
  {
    FormsAppend(stage, some, [h]);
    FirstOfBoth(writer, Forms(stage, some), Forms(stage, [h]));
    assert Forms(stage, [h]) == [Form(stage, h)];
    FirstOfOne(writer, Form(stage, h));
  }

  /** One more form that is tried, or none: it fits, or nothing has fitted yet. */
  lemma StepForms(writer: Writer, stage: Stage, some: seq<seq<Entry>>, more: seq<seq<Entry>>, all: seq<seq<Entry>>,
                  h: seq<Entry>, changed: bool)
    requires FirstFitting(writer, Forms(stage, some)).OverBudget?
    requires more == some + (if changed then [h] else []) && more <= all
    ensures if changed && InBudget(writer, h) then
              FirstFitting(writer, Forms(stage, all)) == Built(h, Tokens(writer, h), stage)
            else
              FirstFitting(writer, Forms(stage, more)).OverBudget?
  {
    if changed {
      OneMoreForm(writer, stage, some, h);
      if InBudget(writer, h) {
        FirstStays(writer, stage, more, all);
      }
    } else {
      assert more == some;
    }
  }

  /** The stage changes the k-th of the entries it goes through. */
  predicate Changes(change: Change, history: seq<Entry>, order: seq<int>, k: nat)
    requires Within(order, |history|) && k < |order|
  {
    change(After(change, history, order[..k])[order[k]]).Some?
  }

  lemma AlongNext(change: Change, history: seq<Entry>, order: seq<int>, k: nat)
    requires Within(order, |history|) && k < |order|
    ensures After(change, history, order[..k + 1]) == Changed(change, After(change, history, order[..k]), order[k])
    ensures Along(change, history, order[..k + 1]) == Along(change, history, order[..k])
      + (if Changes(change, history, order, k) then [After(change, history, order[..k + 1])] else [])
  {
    assert order[..k + 1][..k] == order[..k];
  }

  /** One more entry of a stage: unchanged, or changed and perhaps within budget. */
  lemma StageStep(writer: Writer, stage: Stage, change: Change, history: seq<Entry>, order: seq<int>, k: nat)
    requires Within(order, |history|) && k < |order|
    requires Staged(writer, stage, change, history, order[..k], false, [])
    ensures After(change, history, order[..k + 1]) == Changed(change, After(change, history, order[..k]), order[k])
    ensures if Changes(change, history, order, k) && InBudget(writer, After(change, history, order[..k + 1])) then
              Staged(writer, stage, change, history, order, true, After(change, history, order[..k + 1]))
            else
              Staged(writer, stage, change, history, order[..k + 1], false, [])
  {
    AlongNext(change, history, order, k);
    AlongPrefix(change, history, order, k + 1);
    StepForms(writer, stage, Along(change, history, order[..k]), Along(change, history, order[..k + 1]),
              Along(change, history, order), After(change, history, order[..k + 1]), Changes(change, history, order, k));
  }

  /** Where a stage stopped: after some of the entries, or all of them. */
  ghost predicate Stopped(change: Change, history: seq<Entry>, order: seq<int>, steps: nat, done: bool, after: seq<Entry>)
    requires Within(order, |history|)
  {
    steps <= |order| && after == After(change, history, order[..steps]) && (!done ==> steps == |order|)
  }

  /** Long texts are cut to their head and tail. */
  method AbridgeTexts(writer: Writer, base: nat, order: seq<int>, history: seq<Entry>, sizes: seq<nat>)
    returns (done: bool, history': seq<Entry>, sizes': seq<nat>, ghost steps: nat)
    requires base == writer.BaseTokens() && sizes == writer.Sizes(history) && Within(order, |history|)
    ensures sizes' == writer.Sizes(history') && (done ==> InBudget(writer, history'))
    ensures Stopped(Abridging(), history, order, steps, done, history')
    ensures Staged(writer, TextsAbridged, Abridging(), history, order, done, history')
  {
    done, history', sizes', steps := false, history, sizes, |order|;
    for k := 0 to |order|
      invariant history' == After(Abridging(), history, order[..k]) && sizes' == writer.Sizes(history')
      invariant Staged(writer, TextsAbridged, Abridging(), history, order[..k], false, [])
    {
      var i := order[k];
      StageStep(writer, TextsAbridged, Abridging(), history, order, k);
      var text := history'[i].text;
      if |text| > 590 {
        var entry := history'[i].(text := Abridged(text));
        SizesUpdate(writer, history', i, entry);
        history' := history'[i := entry];
        sizes' := sizes'[i := writer.Size(entry)];
        if base + Sum(sizes') <= MAX_STATE_TOKENS {
          return true, history', sizes', k + 1;
        }
      }
    }
    assert order[..|order|] == order;
  }

  /** The texts of messages that are not pinned are replaced by a note of their length. */
  method CollapseMessages(writer: Writer, base: nat, order: seq<int>, messages: seq<Message>, history: seq<Entry>,
                          sizes: seq<nat>)
    returns (done: bool, history': seq<Entry>, sizes': seq<nat>, ghost steps: nat)
    requires base == writer.BaseTokens() && sizes == writer.Sizes(history) && Within(order, |history|)
    requires forall i :: 0 <= i < |history| ==> history[i].i < |messages|
    ensures sizes' == writer.Sizes(history') && (done ==> InBudget(writer, history'))
    ensures Stopped(Collapsing(messages), history, order, steps, done, history')
    ensures Staged(writer, MessagesCollapsed, Collapsing(messages), history, order, done, history')
  {
    done, history', sizes', steps := false, history, sizes, |order|;
    for k := 0 to |order|
      invariant history' == After(Collapsing(messages), history, order[..k]) && sizes' == writer.Sizes(history')
      invariant Staged(writer, MessagesCollapsed, Collapsing(messages), history, order[..k], false, [])
      invariant forall i :: 0 <= i < |history'| ==> history'[i].i < |messages|
    {
      var i := order[k];
      StageStep(writer, MessagesCollapsed, Collapsing(messages), history, order, k);
      var entry := history'[i];
      if !IsPinned(entry.i, |messages|) && entry.text != [] {
        entry := entry.(text := Collapsed(|messages[entry.i].content|));
        SizesUpdate(writer, history', i, entry);
        history' := history'[i := entry];
        sizes' := sizes'[i := writer.Size(entry)];
        if base + Sum(sizes') <= MAX_STATE_TOKENS {
          return true, history', sizes', k + 1;
        }
      }
    }
    assert order[..|order|] == order;
  }

  /** The calls of messages that are not pinned are put on one line each. */
  method CompactCalls(writer: Writer, base: nat, order: seq<int>, count: nat, calls: seq<ToolCall>, history: seq<Entry>,
                      sizes: seq<nat>)
    returns (done: bool, history': seq<Entry>, sizes': seq<nat>, ghost steps: nat)
    requires base == writer.BaseTokens() && sizes == writer.Sizes(history) && Within(order, |history|)
    ensures sizes' == writer.Sizes(history') && (done ==> InBudget(writer, history'))
    ensures Stopped(Compacting(writer, calls, count), history, order, steps, done, history')
    ensures Staged(writer, CallsCompacted, Compacting(writer, calls, count), history, order, done, history')
  {
    done, history', sizes', steps := false, history, sizes, |order|;
    for k := 0 to |order|
      invariant history' == After(Compacting(writer, calls, count), history, order[..k]) && sizes' == writer.Sizes(history')
      invariant Staged(writer, CallsCompacted, Compacting(writer, calls, count), history, order[..k], false, [])
    {
      var i := order[k];
      StageStep(writer, CallsCompacted, Compacting(writer, calls, count), history, order, k);
      var entry := history'[i];
      var own := OwnCalls(calls, entry.i);
      if !IsPinned(entry.i, count) && own != [] {
        entry := entry.(calls := Compacted(Lines(writer, own)));
        SizesUpdate(writer, history', i, entry);
        history' := history'[i := entry];
        sizes' := sizes'[i := writer.Size(entry)];
        if base + Sum(sizes') <= MAX_STATE_TOKENS {
          return true, history', sizes', k + 1;
        }
      }
    }
    assert order[..|order|] == order;
  }

  /** Every entry with calls is of a message that made some. */
  ghost predicate CallsOwned(calls: seq<ToolCall>, history: seq<Entry>) {
    forall i :: 0 <= i < |history| ==> (history[i].calls == NoCalls <==> OwnCalls(calls, history[i].i) == [])
  }

  /** Abridging changes each entry at most once. */
  lemma {:induction false} AbridgedReduced(count: nat, history: seq<Entry>, order: seq<int>)
    requires Within(order, |history|) && Distinct(order)
    ensures ReducedAll(count, history, After(Abridging(), history, order))
    ensures forall i :: 0 <= i < |history| && i !in order ==> After(Abridging(), history, order)[i] == history[i]
  {
    if order != [] {
      var n := |order| - 1;
      AbridgedReduced(count, history, order[..n]);
      assert order[n] !in order[..n];
    }
  }

  /** A stage that leaves pinned entries alone, and calls where there were calls, keeps entries reduced. */
  ghost predicate Spares(change: Change, count: nat, original: seq<Entry>) {
    forall i, e {:trigger change(e), original[i]} ::
      0 <= i < |original| && Reduced(count, original[i], e) && change(e).Some? ==>
        Reduced(count, original[i], change(e).value)
  }

  lemma {:induction false} SparedReduced(change: Change, count: nat, original: seq<Entry>, history: seq<Entry>, order: seq<int>)
    requires Spares(change, count, original) && ReducedAll(count, original, history) && Within(order, |history|)
    ensures ReducedAll(count, original, After(change, history, order))
  {
    if order != [] {
      var n := |order| - 1;
      SparedReduced(change, count, original, history, order[..n]);
      var before := After(change, history, order[..n]);
      assert Reduced(count, original[order[n]], before[order[n]]);
    }
  }

  lemma CollapsingSpares(messages: seq<Message>, original: seq<Entry>)
    ensures Spares(Collapsing(messages), |messages|, original)
  {
  }

  lemma CompactingSpares(writer: Writer, calls: seq<ToolCall>, count: nat, original: seq<Entry>)
    requires CallsOwned(calls, original)
    ensures Spares(Compacting(writer, calls, count), count, original)
  {
  }

  /** Sizes with those of the removed entries set to nothing. */
  ghost predicate SizedBut(writer: Writer, history: seq<Entry>, sizes: seq<nat>, removed: set<int>) {
    && |sizes| == |history|
    && forall i :: 0 <= i < |history| ==> sizes[i] == if i in removed then 0 else writer.Size(history[i])
  }

  lemma {:induction false} RemainingSize(writer: Writer, history: seq<Entry>, sizes: seq<nat>, removed: set<int>)
    requires SizedBut(writer, history, sizes, removed)
    ensures Sum(sizes) == Sum(writer.Sizes(Remaining(history, removed)))
  {
    if history == [] {
      assert writer.Sizes(Remaining(history, removed)) == [];
    } else {
      var n := |history| - 1;
      var before := Remaining(history[..n], removed);
      RemainingSize(writer, history[..n], sizes[..n], removed);
      if n in removed {
        assert Remaining(history, removed) == before;
      } else {
        assert Remaining(history, removed) == before + [history[n]];
        SizesSnoc(writer, before, history[n]);
      }
    }
  }

  lemma SizesSnoc(writer: Writer, history: seq<Entry>, e: Entry)
    ensures Sum(writer.Sizes(history + [e])) == Sum(writer.Sizes(history)) + writer.Size(e)
  {
    assert writer.Sizes(history + [e])[..|history|] == writer.Sizes(history);
  }

  lemma {:induction false} DroppingPrefix(history: seq<Entry>, order: seq<int>, count: nat, k: nat)
    requires Within(order, |history|) && k <= |order|
    ensures Dropping(history, order[..k], count) <= Dropping(history, order, count)
  {
    if k < |order| {
      var n := |order| - 1;
      DroppingPrefix(history, order[..n], count, k);
      assert order[..n][..k] == order[..k];
    } else {
      assert order[..k] == order;
    }
  }

  lemma DroppedNext(history: seq<Entry>, order: seq<int>, count: nat, k: nat)
    requires Within(order, |history|) && k < |order|
    ensures Dropped(history, order[..k + 1], count)
      == Dropped(history, order[..k], count) + if Droppable(history[order[k]], count) then {order[k]} else {}
  {
    var (some, more) := (order[..k], order[..k + 1]);
    forall j | 0 <= j < k && Droppable(history[some[j]], count) ensures some[j] in Dropped(history, more, count) {
      assert more[j] == some[j];
    }
    if Droppable(history[order[k]], count) {
      assert more[k] in Dropped(history, more, count);
    }
  }

  /** Leaving out so far has not brought the history within budget, or just has. */
  ghost predicate LeftOut(writer: Writer, history: seq<Entry>, order: seq<int>, count: nat, done: bool, after: seq<Entry>)
    requires Within(order, |history|)
  {
    FirstFitting(writer, Forms(MessagesLeftOut, Dropping(history, order, count)))
      == if done then Built(after, Tokens(writer, after), MessagesLeftOut) else OverBudget
  }

  lemma DroppingNext(history: seq<Entry>, order: seq<int>, count: nat, k: nat)
    requires Within(order, |history|) && k < |order|
    ensures Dropping(history, order[..k + 1], count) == Dropping(history, order[..k], count)
      + (if Droppable(history[order[k]], count) then [Remaining(history, Dropped(history, order[..k + 1], count))] else [])
  {
    assert order[..k + 1][..k] == order[..k];
  }

  lemma DropStep(writer: Writer, history: seq<Entry>, order: seq<int>, count: nat, k: nat)
    requires Within(order, |history|) && k < |order| && LeftOut(writer, history, order[..k], count, false, [])
    ensures var after := Remaining(history, Dropped(history, order[..k + 1], count));
      if Droppable(history[order[k]], count) && InBudget(writer, after) then
        LeftOut(writer, history, order, count, true, after)
      else
        LeftOut(writer, history, order[..k + 1], count, false, [])
  {
    DroppingNext(history, order, count, k);
    DroppingPrefix(history, order, count, k + 1);
    StepForms(writer, MessagesLeftOut, Dropping(history, order[..k], count), Dropping(history, order[..k + 1], count),
              Dropping(history, order, count), Remaining(history, Dropped(history, order[..k + 1], count)),
              Droppable(history[order[k]], count));
  }

  /** Messages without calls that are not pinned are left out. */
  method LeaveOut(writer: Writer, base: nat, order: seq<int>, count: nat, history: seq<Entry>, sizes: seq<nat>)
    returns (done: bool, removed: set<int>)
    requires base == writer.BaseTokens() && sizes == writer.Sizes(history) && Within(order, |history|)
    ensures forall i :: i in removed ==> 0 <= i < |history| && !IsPinned(history[i].i, count)
    ensures LeftOut(writer, history, order, count, done, Remaining(history, removed))
    ensures done ==> Fits(writer, Remaining(history, removed), Tokens(writer, Remaining(history, removed)))
    ensures !done ==> removed == Dropped(history, order, count)
  {
    removed := {};
    var left := sizes;
    for k := 0 to |order|
      invariant removed == Dropped(history, order[..k], count)
      invariant SizedBut(writer, history, left, removed)
      invariant LeftOut(writer, history, order[..k], count, false, [])
    {
      var i := order[k];
      DroppedNext(history, order, count, k);
      DropStep(writer, history, order, count, k);
      if !IsPinned(history[i].i, count) && history[i].calls == NoCalls {
        removed := removed + {i};
        left := left[i := 0];
        RemainingSize(writer, history, left, removed);
        if base + Sum(left) <= MAX_STATE_TOKENS {
          return true, removed;
        }
      }
    }
    assert order[..|order|] == order;
    done := false;
  }

  /** Adjacent entries that only hold compacted calls of one role are merged. */
  method MergeCalls(history: seq<Entry>, removed: set<int>, count: nat) returns (merged: seq<Entry>)
    ensures merged == Merged(Remaining(history, removed), count)
  {
    merged := [];
    for i := 0 to |history|
      invariant merged == Merged(Remaining(history[..i], removed), count)
    {
      RemainingNext(history, removed, i);
      if i !in removed {
        MergedNext(Remaining(history[..i], removed), history[i], count);
        var n := |merged| - 1;
        if Foldable(history[i], count) && merged != [] && Foldable(merged[n], count) && merged[n].role == history[i].role {
          merged := merged[n := merged[n].(calls := Compacted(merged[n].calls.lines + history[i].calls.lines))];
        } else {
          merged := merged + [history[i]];
        }
      }
    }
    assert history[..|history|] == history;
  }

  /** Merging keeps every pinned entry. */
  lemma {:induction false} MergedPinned(history: seq<Entry>, count: nat)
    ensures forall e :: e in history && IsPinned(e.i, count) ==> e in Merged(history, count)
  {
    if history != [] {
      var n := |history| - 1;
      MergedPinned(history[..n], count);
      PinnedOn(Merged(history[..n], count), history[n], count);
      assert history == history[..n] + [history[n]];
    }
  }

  lemma RemainingNext(history: seq<Entry>, removed: set<int>, i: nat)
    requires i < |history|
    ensures Remaining(history[..i + 1], removed)
      == if i in removed then Remaining(history[..i], removed) else Remaining(history[..i], removed) + [history[i]]
  {
    assert history[..i + 1][..i] == history[..i];
  }

  lemma MergedNext(history: seq<Entry>, e: Entry, count: nat)
    ensures Merged(history + [e], count) == MergedOn(Merged(history, count), e, count)
  {
    assert (history + [e])[..|history|] == history;
  }

  lemma PinnedKept(merged: seq<Entry>, n: nat, e: Entry, count: nat)
    requires n < |merged| && !IsPinned(merged[n].i, count)
    ensures forall x :: x in merged && IsPinned(x.i, count) ==> x in merged[n := e]
  {
    forall x | x in merged && IsPinned(x.i, count) ensures x in merged[n := e] {
      var j :| 0 <= j < |merged| && merged[j] == x;
      assert merged[n := e][j] == x;
    }
  }

  lemma PinnedOn(merged: seq<Entry>, e: Entry, count: nat)
    ensures forall x :: x in merged && IsPinned(x.i, count) ==> x in MergedOn(merged, e, count)
    ensures IsPinned(e.i, count) ==> e in MergedOn(merged, e, count)
  {
    var n := |merged| - 1;
    if Foldable(e, count) && merged != [] && Foldable(merged[n], count) && merged[n].role == e.role {
      PinnedKept(merged, n, merged[n].(calls := Compacted(merged[n].calls.lines + e.calls.lines)), count);
    } else {
      assert (merged + [e])[|merged|] == e;
    }
  }

  /** Every pinned message that says something is in the history, with its calls listed and its text
      whole or abridged. */
  ghost predicate PinnedStay(messages: seq<Message>, calls: seq<ToolCall>, history: seq<Entry>) {
    forall i :: 0 <= i < |messages| && IsPinned(i, |messages|) && HasEntry(messages, calls, i) ==>
      Stays(messages, calls, history, i)
  }

  ghost predicate Stays(messages: seq<Message>, calls: seq<ToolCall>, history: seq<Entry>, i: nat)
    requires i < |messages|
  {
    exists e, cap :: e in history && cap in {1000, 200, 60} && Reduced(|messages|, EntryOf(messages, calls, cap, i), e)
  }

  lemma {:induction false} EntriesOwned(messages: seq<Message>, calls: seq<ToolCall>, cap: nat, n: nat)
    requires n <= |messages| && cap > 0
    ensures CallsOwned(calls, Entries(messages, calls, cap, n))
  {
    if n > 0 {
      EntriesOwned(messages, calls, cap, n - 1);
    }
  }

  lemma ReducedStay(messages: seq<Message>, calls: seq<ToolCall>, cap: nat, history: seq<Entry>)
    requires cap in {1000, 200, 60}
    requires ReducedAll(|messages|, Entries(messages, calls, cap, |messages|), history)
    ensures PinnedStay(messages, calls, history)
  {
    var original := Entries(messages, calls, cap, |messages|);
    forall i | 0 <= i < |messages| && IsPinned(i, |messages|) && HasEntry(messages, calls, i)
      ensures Stays(messages, calls, history, i)
    {
      EntryIn(messages, calls, cap, |messages|, i);
      var k :| 0 <= k < |original| && original[k] == EntryOf(messages, calls, cap, i);
      assert Reduced(|messages|, original[k], history[k]) && history[k] in history;
    }
  }

  /** Keeping every pinned entry keeps the pinned messages. */
  lemma StayKept(messages: seq<Message>, calls: seq<ToolCall>, history: seq<Entry>, fewer: seq<Entry>)
    requires PinnedStay(messages, calls, history)
    requires forall e :: e in history && IsPinned(e.i, |messages|) ==> e in fewer
    ensures PinnedStay(messages, calls, fewer)
  {
    forall i | 0 <= i < |messages| && IsPinned(i, |messages|) && HasEntry(messages, calls, i)
      ensures Stays(messages, calls, fewer, i)
    {
      assert Stays(messages, calls, history, i);
      var e, cap :| e in history && cap in {1000, 200, 60} && Reduced(|messages|, EntryOf(messages, calls, cap, i), e);
      assert e in fewer;
    }
  }

  lemma RemovedStay(messages: seq<Message>, calls: seq<ToolCall>, history: seq<Entry>, removed: set<int>, fewer: seq<Entry>)
    requires PinnedStay(messages, calls, history)
    requires forall i :: i in removed ==> 0 <= i < |history| && !IsPinned(history[i].i, |messages|)
    requires forall i :: 0 <= i < |history| && i !in removed && IsPinned(history[i].i, |messages|) ==> history[i] in fewer
    ensures PinnedStay(messages, calls, fewer)
  {
    forall e | e in history && IsPinned(e.i, |messages|) ensures e in fewer {
      var i :| 0 <= i < |history| && history[i] == e;
      assert i !in removed;
    }
    StayKept(messages, calls, history, fewer);
  }

  /** A state that may be returned. */
  ghost predicate Good(messages: seq<Message>, calls: seq<ToolCall>, writer: Writer, history: seq<Entry>, tokens: nat) {
    && Fits(writer, history, tokens)
    && Ceiling(Cost(writer.StateText(history))) <= tokens
    && PinnedStay(messages, calls, history)
  }

  lemma FitsGood(messages: seq<Message>, calls: seq<ToolCall>, writer: Writer, history: seq<Entry>, tokens: nat)
    requires writer.Valid() && Fits(writer, history, tokens) && PinnedStay(messages, calls, history)
    ensures Good(messages, calls, writer, history, tokens)
  {
    writer.StateBound(history);
  }

  lemma ReducedSelf(count: nat, history: seq<Entry>)
    ensures ReducedAll(count, history, history)
  {
  }

  /** The whole history under one cap on inputs, if it fits. */
  method TryCap(messages: seq<Message>, calls: seq<ToolCall>, writer: Writer, base: nat, cap: nat)
    returns (done: bool, history: seq<Entry>, sizes: seq<nat>)
    requires writer.Valid() && base == writer.BaseTokens() && cap in {1000, 200, 60}
    ensures history == Entries(messages, calls, cap, |messages|) && sizes == writer.Sizes(history)
    ensures done == InBudget(writer, history)
    ensures done ==> Good(messages, calls, writer, history, base + Sum(sizes))
  {
    history, sizes := BuildHistory(messages, calls, writer, cap);
    done := base + Sum(sizes) <= MAX_STATE_TOKENS;
    if done {
      ReducedSelf(|messages|, history);
      ReducedStay(messages, calls, cap, history);
      FitsGood(messages, calls, writer, history, base + Sum(sizes));
    }
  }

  lemma CollapsedReduced(messages: seq<Message>, original: seq<Entry>, history: seq<Entry>, order: seq<int>, steps: nat)
    requires ReducedAll(|messages|, original, history) && Within(order, |history|) && steps <= |order|
    ensures ReducedAll(|messages|, original, After(Collapsing(messages), history, order[..steps]))
  {
    CollapsingSpares(messages, original);
    SparedReduced(Collapsing(messages), |messages|, original, history, order[..steps]);
  }

  lemma CompactedReduced(writer: Writer, calls: seq<ToolCall>, count: nat, original: seq<Entry>, history: seq<Entry>,
                         order: seq<int>, steps: nat)
    requires CallsOwned(calls, original) && ReducedAll(count, original, history)
    requires Within(order, |history|) && steps <= |order|
    ensures ReducedAll(count, original, After(Compacting(writer, calls, count), history, order[..steps]))
  {
    CompactingSpares(writer, calls, count, original);
    SparedReduced(Compacting(writer, calls, count), count, original, history, order[..steps]);
  }

  /** What collapsing, then compacting, leads to. */
  function CollapsedForms(messages: seq<Message>, calls: seq<ToolCall>, writer: Writer, abridged: seq<Entry>,
                          order: seq<int>): seq<Form>
    requires Within(order, |abridged|)
  {
    Forms(MessagesCollapsed, Along(Collapsing(messages), abridged, order))
    + Forms(CallsCompacted, Along(Compacting(writer, calls, |messages|), After(Collapsing(messages), abridged, order), order))
  }

  lemma ChangedInTwo(messages: seq<Message>, calls: seq<ToolCall>, writer: Writer, history: seq<Entry>)
    ensures var order := ReductionOrder(history, |messages|);
      var first := FirstFitting(writer, Forms(TextsAbridged, Along(Abridging(), history, order)));
      FirstFitting(writer, ChangedForms(messages, calls, writer, history))
        == if first.Built? then first
           else FirstFitting(writer, CollapsedForms(messages, calls, writer, After(Abridging(), history, order), order))
  {
    var order := ReductionOrder(history, |messages|);
    var (a, rest) := (Forms(TextsAbridged, Along(Abridging(), history, order)),
                      CollapsedForms(messages, calls, writer, After(Abridging(), history, order), order));
    FirstOfBoth(writer, a, rest);
    assert ChangedForms(messages, calls, writer, history) == a + rest;
  }

  /** The stages that change the entries of messages that are not pinned. */
  method CollapseEntries(messages: seq<Message>, calls: seq<ToolCall>, writer: Writer, base: nat, order: seq<int>,
                         ghost original: seq<Entry>, history: seq<Entry>, sizes: seq<nat>)
    returns (r: Built, history': seq<Entry>)
    requires base == writer.BaseTokens() && sizes == writer.Sizes(history) && Within(order, |history|)
    requires CallsOwned(calls, original) && ReducedAll(|messages|, original, history)
    requires forall i :: 0 <= i < |history| ==> history[i].i < |messages|
    ensures r == FirstFitting(writer, CollapsedForms(messages, calls, writer, history, order))
    ensures r.Built? ==> r.history == history' && r.tokens == Tokens(writer, history') && InBudget(writer, history')
    ensures r.OverBudget? ==>
      history' == After(Compacting(writer, calls, |messages|), After(Collapsing(messages), history, order), order)
    ensures ReducedAll(|messages|, original, history')
  {
    FirstOfBoth(writer, Forms(MessagesCollapsed, Along(Collapsing(messages), history, order)),
                Forms(CallsCompacted, Along(Compacting(writer, calls, |messages|),
                                            After(Collapsing(messages), history, order), order)));
    assert order[..|order|] == order;
    var done, sizes';
    ghost var steps;
    done, history', sizes', steps := CollapseMessages(writer, base, order, messages, history, sizes);
    CollapsedReduced(messages, original, history, order, steps);
    if done {
      return Built(history', base + Sum(sizes'), MessagesCollapsed), history';
    }
    ghost var collapsed := history';
    done, history', sizes', steps := CompactCalls(writer, base, order, |messages|, calls, history', sizes');
    CompactedReduced(writer, calls, |messages|, original, collapsed, order, steps);
    r := if done then Built(history', base + Sum(sizes'), CallsCompacted) else OverBudget;
  }

  lemma StoppedReduced(count: nat, history: seq<Entry>, order: seq<int>, steps: nat, done: bool, after: seq<Entry>)
    requires Within(order, |history|) && Distinct(order) && Stopped(Abridging(), history, order, steps, done, after)
    ensures ReducedAll(count, history, after)
    ensures forall i :: 0 <= i < |after| ==> after[i].i == history[i].i
    ensures !done ==> after == After(Abridging(), history, order)
  {
    AbridgedReduced(count, history, order[..steps]);
    assert order[..|order|] == order;
    assert forall i :: 0 <= i < |history| ==> Reduced(count, history[i], after[i]);
  }

  /** The stages that change entries in place. */
  method ReduceEntries(messages: seq<Message>, calls: seq<ToolCall>, writer: Writer, base: nat, history: seq<Entry>,
                       sizes: seq<nat>)
    returns (r: Built, history': seq<Entry>)
    requires writer.Valid() && base == writer.BaseTokens() && sizes == writer.Sizes(history)
    requires history == Entries(messages, calls, 60, |messages|)
    ensures r == FirstFitting(writer, ChangedForms(messages, calls, writer, history))
    ensures r.Built? ==> r.history == history' && r.tokens == Tokens(writer, history') && InBudget(writer, history')
    ensures r.OverBudget? ==> history' == AllChanged(messages, calls, writer, history)
    ensures ReducedAll(|messages|, history, history')
  {
    var order := ReductionOrder(history, |messages|);
    EntriesOwned(messages, calls, 60, |messages|);
    ChangedInTwo(messages, calls, writer, history);
    var done, sizes';
    ghost var steps;
    done, history', sizes', steps := AbridgeTexts(writer, base, order, history, sizes);
    StoppedReduced(|messages|, history, order, steps, done, history');
    if done {
      return Built(history', base + Sum(sizes'), TextsAbridged), history';
    }
    r, history' := CollapseEntries(messages, calls, writer, base, order, history, history', sizes');
  }

  /** The stages that give up or merge entries. */
  method RemoveEntries(messages: seq<Message>, calls: seq<ToolCall>, writer: Writer, base: nat, order: seq<int>,
                       history: seq<Entry>)
    returns (r: Built)
    requires writer.Valid() && base == writer.BaseTokens() && PinnedStay(messages, calls, history)
    requires Within(order, |history|)
    ensures r == FirstFitting(writer, FewerForms(history, order, |messages|))
    ensures r.Built? ==> Good(messages, calls, writer, r.history, r.tokens)
  {
    var done, removed := LeaveOut(writer, base, order, |messages|, history, writer.Sizes(history));
    FirstOfBoth(writer, Forms(MessagesLeftOut, Dropping(history, order, |messages|)),
                Forms(CallsMerged, [Merged(Remaining(history, Dropped(history, order, |messages|)), |messages|)]));
    if done {
      var left := Remaining(history, removed);
      RemovedStay(messages, calls, history, removed, left);
      FitsGood(messages, calls, writer, left, base + Sum(writer.Sizes(left)));
      return Built(left, base + Sum(writer.Sizes(left)), MessagesLeftOut);
    }
    var merged := MergeCalls(history, removed, |messages|);
    OneForm(writer, CallsMerged, merged);
    if base + Sum(writer.Sizes(merged)) <= MAX_STATE_TOKENS {
      MergedPinned(Remaining(history, removed), |messages|);
      RemovedStay(messages, calls, history, removed, merged);
      FitsGood(messages, calls, writer, merged, base + Sum(writer.Sizes(merged)));
      return Built(merged, base + Sum(writer.Sizes(merged)), CallsMerged);
    }
    r := OverBudget;
  }

  lemma OneForm(writer: Writer, stage: Stage, h: seq<Entry>)
    ensures FirstFitting(writer, Forms(stage, [h]))
      == if InBudget(writer, h) then Built(h, Tokens(writer, h), stage) else OverBudget
  {
    assert Forms(stage, [h]) == [Form(stage, h)];
    FirstOfOne(writer, Form(stage, h));
  }

  /** The first of several forms is the first one, if it fits. */
  lemma FirstOrLater(writer: Writer, form: Form, later: seq<Form>)
    ensures FirstFitting(writer, [form] + later)
      == if InBudget(writer, form.history) then BuiltOf(writer, form) else FirstFitting(writer, later)
  {
    FirstOfBoth(writer, [form], later);
    FirstOfOne(writer, form);
  }

  /** `build_state`: it returns the first form of the history within budget, the least reduced first,
      and refuses exactly when no form fits.  What it returns is within budget, its count bounds the
      estimate of the whole state, no stage gives up a pinned message, and its entries say what the stage
      lets them, reduced in turn. */
  method BuildState(messages: seq<Message>, calls: seq<ToolCall>, writer: Writer) returns (r: Built)
    requires writer.Valid()
    ensures r == FirstFitting(writer, AllForms(messages, calls, writer))
    ensures r.Built? ==> Good(messages, calls, writer, r.history, r.tokens)
    ensures r.Built? ==> Right(messages, calls, writer, r.stage, r.history)
  {
    BuiltRight(messages, calls, writer);
    FirstOrLater(writer, WholeForm(messages, calls, FullState, 1000), CutForms(messages, calls, writer));
    var base := EstimateTokens(writer.StateText([]));
    var done, history, sizes := TryCap(messages, calls, writer, base, 1000);
    if done {
      return Built(history, base + Sum(sizes), FullState);
    }
    r := CutInputs(messages, calls, writer, base);
  }

  /** The whole history with shorter inputs, or the stages beyond. */
  method CutInputs(messages: seq<Message>, calls: seq<ToolCall>, writer: Writer, base: nat) returns (r: Built)
    requires writer.Valid() && base == writer.BaseTokens()
    ensures r == FirstFitting(writer, CutForms(messages, calls, writer))
    ensures r.Built? ==> Good(messages, calls, writer, r.history, r.tokens)
  {
    FirstOrLater(writer, WholeForm(messages, calls, InputsCut(200), 200),
                 [WholeForm(messages, calls, InputsCut(60), 60)] + LaterForms(messages, calls, writer));
    FirstOrLater(writer, WholeForm(messages, calls, InputsCut(60), 60), LaterForms(messages, calls, writer));
    var done, history, sizes := TryCap(messages, calls, writer, base, 200);
    if done {
      return Built(history, base + Sum(sizes), InputsCut(200));
    }
    done, history, sizes := TryCap(messages, calls, writer, base, 60);
    if done {
      return Built(history, base + Sum(sizes), InputsCut(60));
    }
    r := ReduceHistory(messages, calls, writer, base, history, sizes);
  }

  /** The stages beyond the whole history. */
  method ReduceHistory(messages: seq<Message>, calls: seq<ToolCall>, writer: Writer, base: nat, history: seq<Entry>,
                       sizes: seq<nat>)
    returns (r: Built)
    requires writer.Valid() && base == writer.BaseTokens() && sizes == writer.Sizes(history)
    requires history == Entries(messages, calls, 60, |messages|)
    ensures r == FirstFitting(writer, LaterForms(messages, calls, writer))
    ensures r.Built? ==> Good(messages, calls, writer, r.history, r.tokens)
  {
    var reduced;
    r, reduced := ReduceEntries(messages, calls, writer, base, history, sizes);
    LaterStages(messages, calls, writer);
    ReducedStay(messages, calls, 60, reduced);
    if r.Built? {
      FitsGood(messages, calls, writer, reduced, r.tokens);
      return;
    }
    r := RemoveEntries(messages, calls, writer, base, ReductionOrder(history, |messages|), reduced);
  }

  /** The whole history is returned exactly when it fits; otherwise the first form that fits is, and
      nothing exactly when no form fits, not even the last. */
  lemma LeastReduced(messages: seq<Message>, calls: seq<ToolCall>, writer: Writer, forms: seq<Form>, r: Built)
    requires forms == AllForms(messages, calls, writer) && r == FirstFitting(writer, forms)
    ensures r.Built? && r.stage == FullState <==> InBudget(writer, Entries(messages, calls, 1000, |messages|))
    ensures r.OverBudget? <==> forall k :: 0 <= k < |forms| ==> !InBudget(writer, forms[k].history)
    ensures r.Built? ==> exists k: nat :: FitsFirst(writer, forms, k) && r == BuiltOf(writer, forms[k])
  {
    NothingFits(writer, forms);
    FullStateFirst(messages, calls, writer);
  }

  lemma FullStateFirst(messages: seq<Message>, calls: seq<ToolCall>, writer: Writer)
    ensures var r := FirstFitting(writer, AllForms(messages, calls, writer));
      r.Built? && r.stage == FullState <==> InBudget(writer, Entries(messages, calls, 1000, |messages|))
  {
    FirstOrLater(writer, WholeForm(messages, calls, FullState, 1000), CutForms(messages, calls, writer));
    CutReduced(messages, calls, writer);
    NotFull(writer, CutForms(messages, calls, writer));
  }

  ghost predicate AllReduced(forms: seq<Form>) {
    forall k :: 0 <= k < |forms| ==> forms[k].stage != FullState
  }

  lemma BothReduced(a: seq<Form>, b: seq<Form>)
    requires AllReduced(a) && AllReduced(b)
    ensures AllReduced(a + b)
  {
  }

  lemma CutReduced(messages: seq<Message>, calls: seq<ToolCall>, writer: Writer)
    ensures AllReduced(CutForms(messages, calls, writer))
  {
    LaterReduced(messages, calls, writer);
    BothReduced([WholeForm(messages, calls, InputsCut(60), 60)], LaterForms(messages, calls, writer));
    BothReduced([WholeForm(messages, calls, InputsCut(200), 200)],
                [WholeForm(messages, calls, InputsCut(60), 60)] + LaterForms(messages, calls, writer));
  }

  lemma FormsReduced(stage: Stage, histories: seq<seq<Entry>>)
    requires stage != FullState
    ensures AllReduced(Forms(stage, histories))
  {
  }

  lemma ChangedReduced(messages: seq<Message>, calls: seq<ToolCall>, writer: Writer, history: seq<Entry>)
    ensures AllReduced(ChangedForms(messages, calls, writer, history))
  {
    var order := ReductionOrder(history, |messages|);
    var abridged := After(Abridging(), history, order);
    var collapsed := After(Collapsing(messages), abridged, order);
    var (a, b, c) := (Along(Abridging(), history, order), Along(Collapsing(messages), abridged, order),
                      Along(Compacting(writer, calls, |messages|), collapsed, order));
    FormsReduced(TextsAbridged, a);
    FormsReduced(MessagesCollapsed, b);
    FormsReduced(CallsCompacted, c);
    BothReduced(Forms(TextsAbridged, a), Forms(MessagesCollapsed, b));
    BothReduced(Forms(TextsAbridged, a) + Forms(MessagesCollapsed, b), Forms(CallsCompacted, c));
  }

  lemma FewerReduced(history: seq<Entry>, order: seq<int>, count: nat)
    requires Within(order, |history|)
    ensures AllReduced(FewerForms(history, order, count))
  {
    var merged := [Merged(Remaining(history, Dropped(history, order, count)), count)];
    FormsReduced(MessagesLeftOut, Dropping(history, order, count));
    FormsReduced(CallsMerged, merged);
    BothReduced(Forms(MessagesLeftOut, Dropping(history, order, count)), Forms(CallsMerged, merged));
  }

  lemma LaterReduced(messages: seq<Message>, calls: seq<ToolCall>, writer: Writer)
    ensures AllReduced(LaterForms(messages, calls, writer))
  {
    var last := Entries(messages, calls, 60, |messages|);
    var (order, after) := (ReductionOrder(last, |messages|), AllChanged(messages, calls, writer, last));
    ChangedReduced(messages, calls, writer, last);
    FewerReduced(after, order, |messages|);
    BothReduced(ChangedForms(messages, calls, writer, last), FewerForms(after, order, |messages|));
  }

  lemma NotFull(writer: Writer, forms: seq<Form>)
    requires AllReduced(forms)
    ensures FirstFitting(writer, forms).Built? ==> FirstFitting(writer, forms).stage != FullState
  {
    if SomeFits(writer, forms) {
      var k: nat :| FitsFirst(writer, forms, k);
      FitsAt(writer, forms, k);
    }
  }

  lemma LaterStages(messages: seq<Message>, calls: seq<ToolCall>, writer: Writer)
    ensures var last := Entries(messages, calls, 60, |messages|);
      var changed := FirstFitting(writer, ChangedForms(messages, calls, writer, last));
      FirstFitting(writer, LaterForms(messages, calls, writer))
        == if changed.Built? then changed
           else FirstFitting(writer, FewerForms(AllChanged(messages, calls, writer, last),
                                                ReductionOrder(last, |messages|), |messages|))
  {
    var last := Entries(messages, calls, 60, |messages|);
    FirstOfBoth(writer, ChangedForms(messages, calls, writer, last),
                FewerForms(AllChanged(messages, calls, writer, last), ReductionOrder(last, |messages|), |messages|));
  }

  /** The lines of compacted calls, entry by entry. */
  function AllLines(history: seq<Entry>): seq<Text> {
    if history == [] then
      []
    else
      var n := |history| - 1;
      AllLines(history[..n]) + (if history[n].calls.Compacted? then history[n].calls.lines else [])
  }

  /** Merging gives up no line, and keeps them in order. */
  lemma {:induction false} MergedLines(history: seq<Entry>, count: nat)
    ensures AllLines(Merged(history, count)) == AllLines(history)
  {
    if history != [] {
      var n := |history| - 1;
      MergedLines(history[..n], count);
      LinesOn(Merged(history[..n], count), history[n], count);
    }
  }

  lemma LinesOn(merged: seq<Entry>, e: Entry, count: nat)
    ensures AllLines(MergedOn(merged, e, count))
      == AllLines(merged) + if e.calls.Compacted? then e.calls.lines else []
  {
    var n := |merged| - 1;
    if Foldable(e, count) && merged != [] && Foldable(merged[n], count) && merged[n].role == e.role {
      var joined := merged[n].(calls := Compacted(merged[n].calls.lines + e.calls.lines));
      assert merged[n := joined][..n] == merged[..n];
    } else {
      assert (merged + [e])[..|merged|] == merged;
    }
  }
}
