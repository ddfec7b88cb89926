/** What the entries of a reduced decision context show, and which of them are reduced first. */
module StateTexts {
  import opened Common
  import opened Sorting
  import opened Permutations
  import opened TokenEstimate
  import opened TraceMessages
  import opened StateHistory

  /** Message a is reduced before message b: those not pinned first, the older first. */
  predicate Before(count: nat, a: int, b: int) {
    if IsPinned(a, count) == IsPinned(b, count) then a < b else IsPinned(b, count)
  }

  /** A text keeps the first 400 and the last 150 units of the message, around a note of how many it leaves out. */
  predicate KeepsEnds(text: Text, content: Text) {
    && |content| > 590 && |text| >= 550
    && text[..400] == content[..400] && text[|text| - 150..] == content[|content| - 150..]
    && text[400..|text| - 150] == Units("\n[") + [0x2026, ' ' as int] + Decimal(|content| - 550) + OMITTED + [0x2026] + Units("]\n")
  }

  /** A text is a note of how many units the message holds. */
  predicate NotesLength(text: Text, content: Text) {
    text == ['[' as int, 0x2026, ' ' as int] + Decimal(|content|) + OMITTED + [0x2026, ']' as int]
  }

  /** A text is the message, or its ends when it is long. */
  predicate IsBrief(text: Text, content: Text) {
    if |content| > 590 then KeepsEnds(text, content) else text == content
  }

  /** Before any text is reduced. */
  predicate Untouched(stage: Stage) {
    stage.FullState? || stage.InputsCut?
  }

  /** What an entry's text may be when a stage ends. */
  ghost predicate TextRight(messages: seq<Message>, stage: Stage, e: Entry)
    requires e.i < |messages|
  {
    var content := messages[e.i].content;
    if Untouched(stage) then
      e.text == content
    else if stage.TextsAbridged? then
      e.text == content || KeepsEnds(e.text, content)
    else if IsPinned(e.i, |messages|) || content == [] then
      IsBrief(e.text, content)
    else
      NotesLength(e.text, content) || (stage.MessagesCollapsed? && IsBrief(e.text, content))
  }

  /** How far an entry's call inputs are cut before its calls are compacted. */
  function CapOf(stage: Stage): nat {
    if stage.FullState? then 1000 else if stage.InputsCut? then stage.cap else 60
  }

  /** A text is the whole one, or its first units and an ellipsis. */
  predicate CutAt(text: Text, whole: Text, cap: nat) {
    if |whole| <= cap then
      text == whole
    else
      |text| == cap > 0 && text[..cap - 1] == whole[..cap - 1] && text[cap - 1] == 0x2026
  }

  /** A call's note: its number, tool, input cut at the cap, outcome, and the length of its result. */
  predicate NotesCall(note: CallNote, call: ToolCall, cap: nat) {
    && note.number == call.number && note.tool == call.tool && CutAt(note.input, call.arguments.json, cap)
    && note.isError == call.isError && note.chars == |call.result|
  }

  /** Calls are listed by one note each, in order. */
  ghost predicate ListsCalls(shown: Calls, own: seq<ToolCall>, cap: nat) {
    shown.Listed? && |shown.notes| == |own| && forall k :: 0 <= k < |own| ==> NotesCall(shown.notes[k], own[k], cap)
  }

  lemma NotesList(own: seq<ToolCall>, cap: nat)
    requires cap > 0 && own != []
    ensures ListsCalls(Notes(own, cap), own, cap)
  {
  }

  /** What an entry's calls may be when a stage ends: merging may add lines. */
  ghost predicate CallsRight(messages: seq<Message>, calls: seq<ToolCall>, writer: Writer, stage: Stage, e: Entry) {
    var own := OwnCalls(calls, e.i);
    if own == [] then
      e.calls == NoCalls
    else if IsPinned(e.i, |messages|) || Untouched(stage) || stage.TextsAbridged? || stage.MessagesCollapsed? then
      ListsCalls(e.calls, own, CapOf(stage))
    else if stage.CallsMerged? then
      e.calls.Compacted? && Lines(writer, own) <= e.calls.lines
    else
      e.calls == Compacted(Lines(writer, own)) || (stage.CallsCompacted? && ListsCalls(e.calls, own, 60))
  }

  ghost predicate EntryRight(messages: seq<Message>, calls: seq<ToolCall>, writer: Writer, stage: Stage, e: Entry) {
    && e.i < |messages| && HasEntry(messages, calls, e.i) && e.role == messages[e.i].role
    && TextRight(messages, stage, e) && CallsRight(messages, calls, writer, stage, e)
  }

  /** In the stage's own reductions, an entry that is reached after another is reduced only once that one has been. */
  ghost predicate OrderRight(messages: seq<Message>, stage: Stage, a: Entry, b: Entry)
    requires a.i < |messages| && b.i < |messages|
  {
    var (before, first, second) := (Before(|messages|, a.i, b.i), messages[a.i].content, messages[b.i].content);
    && (stage.TextsAbridged? && before && |first| > 590 && b.text != second ==> KeepsEnds(a.text, first))
    && (before && !IsPinned(b.i, |messages|) ==>
          && (stage.MessagesCollapsed? && first != [] && !IsBrief(b.text, second) ==> NotesLength(a.text, first))
          && (stage.CallsCompacted? && a.calls != NoCalls && b.calls.Compacted? ==> a.calls.Compacted?))
  }

  /** The history shows message i. */
  ghost predicate Shows(history: seq<Entry>, i: nat) {
    exists e :: e in history && e.i == i
  }

  /** A message that may be left out: not pinned, without calls. */
  predicate Spare(messages: seq<Message>, calls: seq<ToolCall>, i: nat) {
    !IsPinned(i, |messages|) && OwnCalls(calls, i) == []
  }

  /** Which messages are shown when a stage ends: all that say something, but for the oldest spare ones once some are
      left out, and for those whose calls are merged into another's. */
  ghost predicate ShownRight(messages: seq<Message>, calls: seq<ToolCall>, stage: Stage, history: seq<Entry>, i: nat)
    requires i < |messages|
  {
    if !HasEntry(messages, calls, i) then
      !Shows(history, i)
    else if stage.CallsMerged? then
      (IsPinned(i, |messages|) ==> Shows(history, i)) && (Spare(messages, calls, i) ==> !Shows(history, i))
    else if stage.MessagesLeftOut? && Spare(messages, calls, i) then
      Shows(history, i) ==> forall j :: i < j < |messages| && HasEntry(messages, calls, j) ==> Shows(history, j)
    else
      Shows(history, i)
  }

  ghost predicate Rising(history: seq<Entry>) {
    forall j, k :: 0 <= j < k < |history| ==> history[j].i < history[k].i
  }

  /** The history a stage may end with. */
  ghost predicate Right(messages: seq<Message>, calls: seq<ToolCall>, writer: Writer, stage: Stage, history: seq<Entry>) {
    && Rising(history)
    && (forall e :: e in history ==> EntryRight(messages, calls, writer, stage, e))
    && (forall a, b :: a in history && b in history ==> OrderRight(messages, stage, a, b))
    && (forall i :: 0 <= i < |messages| ==> ShownRight(messages, calls, stage, history, i))
  }

  /** Whatever the stage, the text of a pinned message is reduced only when no long text of another is whole. */
  lemma PinnedLast(messages: seq<Message>, calls: seq<ToolCall>, writer: Writer, stage: Stage, history: seq<Entry>,
                   pinned: Entry, other: Entry)
    requires Right(messages, calls, writer, stage, history) && pinned in history && other in history
    requires IsPinned(pinned.i, |messages|) && pinned.text != messages[pinned.i].content
    requires !IsPinned(other.i, |messages|) && |messages[other.i].content| > 590
    ensures var content := messages[other.i].content;
      KeepsEnds(other.text, content) || NotesLength(other.text, content)
  {
    assert EntryRight(messages, calls, writer, stage, pinned) && EntryRight(messages, calls, writer, stage, other);
    assert OrderRight(messages, stage, other, pinned);
  }

  /** The entries of a history, before any is reduced. */
  ghost predicate Original(messages: seq<Message>, calls: seq<ToolCall>, cap: nat, history: seq<Entry>) {
    && cap > 0
    && Rising(history)
    && (forall j :: 0 <= j < |history| ==> OriginalAt(messages, calls, cap, history[j]))
    && (forall i :: 0 <= i < |messages| && HasEntry(messages, calls, i) ==> EntryOf(messages, calls, cap, i) in history)
  }

  ghost predicate OriginalAt(messages: seq<Message>, calls: seq<ToolCall>, cap: nat, e: Entry)
    requires cap > 0
  {
    e.i < |messages| && HasEntry(messages, calls, e.i) && e == EntryOf(messages, calls, cap, e.i)
  }

  lemma {:induction false} EntryIn(messages: seq<Message>, calls: seq<ToolCall>, cap: nat, n: nat, i: nat)
    requires n <= |messages| && cap > 0 && i < n && HasEntry(messages, calls, i)
    ensures EntryOf(messages, calls, cap, i) in Entries(messages, calls, cap, n)
  {
    var (front, r) := (Entries(messages, calls, cap, n - 1), Entries(messages, calls, cap, n));
    if i < n - 1 {
      EntryIn(messages, calls, cap, n - 1, i);
      assert front <= r;
    } else {
      assert r == front + [EntryOf(messages, calls, cap, i)];
    }
  }

  lemma {:induction false} EntriesOriginalAt(messages: seq<Message>, calls: seq<ToolCall>, cap: nat, n: nat)
    requires n <= |messages| && cap > 0
    ensures forall j :: 0 <= j < |Entries(messages, calls, cap, n)| ==>
      OriginalAt(messages, calls, cap, Entries(messages, calls, cap, n)[j])
    ensures Rising(Entries(messages, calls, cap, n))
  {
    if n > 0 {
      EntriesOriginalAt(messages, calls, cap, n - 1);
    }
  }

  lemma EntriesOriginal(messages: seq<Message>, calls: seq<ToolCall>, cap: nat)
    requires cap > 0
    ensures Original(messages, calls, cap, Entries(messages, calls, cap, |messages|))
  {
    EntriesOriginalAt(messages, calls, cap, |messages|);
    forall i | 0 <= i < |messages| && HasEntry(messages, calls, i)
      ensures EntryOf(messages, calls, cap, i) in Entries(messages, calls, cap, |messages|)
    {
      EntryIn(messages, calls, cap, |messages|, i);
    }
  }

  /** A history with the entries of another, reduced or not. */
  ghost predicate Aligned(original: seq<Entry>, history: seq<Entry>) {
    && |history| == |original|
    && forall j :: 0 <= j < |history| ==> history[j].i == original[j].i
  }

  lemma AlignedShows(messages: seq<Message>, calls: seq<ToolCall>, cap: nat, original: seq<Entry>, history: seq<Entry>, i: nat)
    requires Original(messages, calls, cap, original) && Aligned(original, history) && i < |messages|
    ensures Shows(history, i) <==> HasEntry(messages, calls, i)
  {
    if HasEntry(messages, calls, i) {
      var j :| 0 <= j < |original| && original[j] == EntryOf(messages, calls, cap, i);
      assert history[j] in history && history[j].i == i;
    }
    if Shows(history, i) {
      var e :| e in history && e.i == i;
      var j :| 0 <= j < |history| && history[j] == e;
      assert OriginalAt(messages, calls, cap, original[j]);
    }
  }

  lemma AlignedRight(messages: seq<Message>, calls: seq<ToolCall>, writer: Writer, stage: Stage, cap: nat,
                     original: seq<Entry>, history: seq<Entry>)
    requires Original(messages, calls, cap, original) && Aligned(original, history)
    requires !stage.MessagesLeftOut? && !stage.CallsMerged?
    requires forall j :: 0 <= j < |history| ==> EntryRight(messages, calls, writer, stage, history[j])
    requires forall j, k :: 0 <= j < |history| && 0 <= k < |history| ==> OrderRight(messages, stage, history[j], history[k])
    ensures Right(messages, calls, writer, stage, history)
  {
    forall i | 0 <= i < |messages| ensures ShownRight(messages, calls, stage, history, i) {
      AlignedShows(messages, calls, cap, original, history, i);
    }
    assert Rising(history);
  }

  /** The whole history, its inputs cut. */
  lemma WholeRight(messages: seq<Message>, calls: seq<ToolCall>, writer: Writer, stage: Stage, cap: nat)
    requires cap > 0 && Untouched(stage) && CapOf(stage) == cap
    ensures Right(messages, calls, writer, stage, Entries(messages, calls, cap, |messages|))
  {
    var history := Entries(messages, calls, cap, |messages|);
    EntriesOriginal(messages, calls, cap);
    forall j | 0 <= j < |history| ensures EntryRight(messages, calls, writer, stage, history[j]) {
      assert OriginalAt(messages, calls, cap, history[j]);
    }
    AlignedRight(messages, calls, writer, stage, cap, history, history);
  }

  /** Positions with equal keys come in order. */
  ghost predicate TiesRise(s: seq<int>, key: int -> SortKey) {
    forall i, j :: 0 <= i < j < |s| && key(s[i]) == key(s[j]) ==> s[i] < s[j]
  }

  ghost predicate AllBelow(s: seq<int>, x: int) {
    forall i :: 0 <= i < |s| ==> s[i] < x
  }

  lemma {:induction false} PlaceRises(s: seq<int>, x: int, key: int -> SortKey)
    requires SortedBy(s, key) && TiesRise(s, key) && AllBelow(s, x)
    ensures TiesRise(Place(s, x, key), key)
  {
    if s != [] && !KeyLe(key(s[|s| - 1]), key(x)) {
      var (front, last) := (s[..|s| - 1], s[|s| - 1]);
      PlaceRises(front, x, key);
      var placed := Place(front, x, key);
      forall i | 0 <= i < |placed| && key(placed[i]) == key(last) ensures placed[i] < last {
        assert placed[i] in placed;
        var j :| 0 <= j < |front| && front[j] == placed[i];
        assert s[j] == placed[i];
      }
    }
  }

  lemma SortedBelow(s: seq<int>, x: int, key: int -> SortKey)
    requires AllBelow(s, x)
    ensures AllBelow(SortBy(s, key), x)
  {
    var r := SortBy(s, key);
    SameElements(r, s);
    forall i | 0 <= i < |r| ensures r[i] < x {
      assert r[i] in r;
    }
  }

  lemma {:induction false} SortRises(s: seq<int>, key: int -> SortKey)
    requires Increasing(s)
    ensures TiesRise(SortBy(s, key), key)
  {
    if s != [] {
      var n := |s| - 1;
      var front := SortBy(s[..n], key);
      SortRises(s[..n], key);
      SortedBelow(s[..n], s[n], key);
      PlaceRises(front, s[n], key);
    }
  }

  /** Entries are gone through in the order of `Before`. */
  lemma OrderBefore(history: seq<Entry>, count: nat, p: nat, q: nat)
    requires Rising(history)
    requires p < q < |history|
    ensures var order := ReductionOrder(history, count); Before(count, history[order[p]].i, history[order[q]].i)
  {
    var (order, key) := (ReductionOrder(history, count), PinnedKey(history, count));
    SortRises(Iota(|history|), key);
    assert KeyLe(key(order[p]), key(order[q]));
    if key(order[p]) == key(order[q]) {
      assert order[p] < order[q];
    }
  }

  /** What has been reached is closed under `Before`. */
  lemma ReachedFirst(history: seq<Entry>, count: nat, k: nat, a: nat, b: nat)
    requires Rising(history)
    requires a < |history| && b < |history| && k <= |history|
    requires Before(count, history[a].i, history[b].i) && b in ReductionOrder(history, count)[..k]
    ensures a in ReductionOrder(history, count)[..k]
  {
    var order := ReductionOrder(history, count);
    assert a in order;
    var p :| 0 <= p < |order| && order[p] == a;
    var q :| 0 <= q < k && order[q] == b;
    if q < p {
      OrderBefore(history, count, q, p);
    }
    assert p < k;
    assert order[..k][p] == a;
  }

  function Applied(change: Change, e: Entry): Entry {
    match change(e)
    case None => e
    case Some(changed) => changed
  }

  /** A stage changes each entry it has reached, by itself. */
  lemma {:induction false} AfterAt(change: Change, history: seq<Entry>, order: seq<int>, i: nat)
    requires Within(order, |history|) && Distinct(order) && i < |history|
    ensures After(change, history, order)[i] == if i in order then Applied(change, history[i]) else history[i]
  {
    if order != [] {
      var n := |order| - 1;
      AfterAt(change, history, order[..n], i);
      assert order == order[..n] + [order[n]];
      assert order[n] !in order[..n];
    }
  }

  /** Each form of a stage is the history after some of the entries. */
  lemma {:induction false} AlongIs(change: Change, history: seq<Entry>, order: seq<int>, h: seq<Entry>) returns (k: nat)
    requires Within(order, |history|) && h in Along(change, history, order)
    ensures k <= |order| && h == After(change, history, order[..k])
  {
    var n := |order| - 1;
    if h in Along(change, history, order[..n]) {
      k := AlongIs(change, history, order[..n], h);
      assert order[..n][..k] == order[..k];
    } else {
      k := |order|;
      assert order[..k] == order;
    }
  }

  lemma AbridgedKeeps(content: Text)
    requires |content| > 590
    ensures KeepsEnds(Abridged(content), content)
  {
    var note := Units("\n[") + [0x2026, ' ' as int] + Decimal(|content| - 550) + OMITTED + [0x2026] + Units("]\n");
    assert Abridged(content) == content[..400] + note + content[|content| - 150..];
  }

  /** The entries that the three stages in place leave, by how many each has reached. */
  ghost predicate ReducedTo(messages: seq<Message>, calls: seq<ToolCall>, writer: Writer, e: Entry, abridged: bool,
                            collapsed: bool, compacted: bool, r: Entry) {
    r == (
      var a := if abridged then Applied(Abridging(), e) else e;
      var b := if collapsed then Applied(Collapsing(messages), a) else a;
      if compacted then Applied(Compacting(writer, calls, |messages|), b) else b)
  }

  /** What becomes of one entry. */
  lemma ReducedEntry(messages: seq<Message>, calls: seq<ToolCall>, writer: Writer, e: Entry, abridged: bool, collapsed: bool,
                     compacted: bool, r: Entry)
    requires OriginalAt(messages, calls, 60, e)
    requires ReducedTo(messages, calls, writer, e, abridged, collapsed, compacted, r)
    requires (collapsed ==> abridged) && (compacted ==> collapsed)
    ensures r.i == e.i && r.role == e.role
    ensures !abridged ==> r.text == e.text
    ensures abridged && (!collapsed || IsPinned(e.i, |messages|) || e.text == []) ==> IsBrief(r.text, e.text)
    ensures collapsed && !IsPinned(e.i, |messages|) && e.text != [] ==> NotesLength(r.text, e.text)
    ensures r.calls == if compacted && !IsPinned(e.i, |messages|) && OwnCalls(calls, e.i) != []
      then Compacted(Lines(writer, OwnCalls(calls, e.i))) else e.calls
  {
    if |e.text| > 590 {
      AbridgedKeeps(e.text);
    }
  }

  /** Which of the stages in place have reached an entry when a stage ends. */
  predicate ReachedBy(stage: Stage, abridged: bool, collapsed: bool, compacted: bool) {
    && (stage.TextsAbridged? ==> !collapsed && !compacted)
    && (stage.MessagesCollapsed? ==> abridged && !compacted)
    && (stage.CallsCompacted? ==> abridged && collapsed)
    && (stage.MessagesLeftOut? ==> abridged && collapsed && compacted)
    && !Untouched(stage) && !stage.CallsMerged?
  }

  lemma ReducedRight(messages: seq<Message>, calls: seq<ToolCall>, writer: Writer, stage: Stage, e: Entry, abridged: bool,
                     collapsed: bool, compacted: bool, r: Entry)
    requires OriginalAt(messages, calls, 60, e) && ReachedBy(stage, abridged, collapsed, compacted)
    requires ReducedTo(messages, calls, writer, e, abridged, collapsed, compacted, r)
    ensures EntryRight(messages, calls, writer, stage, r) && r.i == e.i
  {
    ReducedEntry(messages, calls, writer, e, abridged, collapsed, compacted, r);
    if OwnCalls(calls, e.i) != [] {
      NotesList(OwnCalls(calls, e.i), 60);
    }
  }

  /** How many entries each of the stages in place has reached. */
  datatype Reach = Reach(abridged: nat, collapsed: nat, compacted: nat)

  /** The stages in place come one after the other. */
  predicate InTurn(stage: Stage, n: nat, reach: Reach) {
    && reach.abridged <= n && reach.collapsed <= n && reach.compacted <= n
    && (stage.TextsAbridged? ==> reach.collapsed == reach.compacted == 0)
    && (stage.MessagesCollapsed? ==> reach.abridged == n && reach.compacted == 0)
    && (stage.CallsCompacted? ==> reach.abridged == reach.collapsed == n)
    && (stage.TextsAbridged? || stage.MessagesCollapsed? || stage.CallsCompacted?)
  }

  ghost predicate InPlaceAt(messages: seq<Message>, calls: seq<ToolCall>, writer: Writer, original: seq<Entry>, order: seq<int>,
                            reach: Reach, j: nat, e: Entry)
    requires reach.abridged <= |order| && reach.collapsed <= |order| && reach.compacted <= |order| && j < |original|
  {
    ReducedTo(messages, calls, writer, original[j], j in order[..reach.abridged], j in order[..reach.collapsed],
              j in order[..reach.compacted], e)
  }

  ghost predicate InPlace(messages: seq<Message>, calls: seq<ToolCall>, writer: Writer, original: seq<Entry>, order: seq<int>,
                          reach: Reach, history: seq<Entry>)
    requires reach.abridged <= |order| && reach.collapsed <= |order| && reach.compacted <= |order|
  {
    && |history| == |original|
    && forall j :: 0 <= j < |original| ==> InPlaceAt(messages, calls, writer, original, order, reach, j, history[j])
  }

  lemma AbridgedInPlace(messages: seq<Message>, calls: seq<ToolCall>, writer: Writer, original: seq<Entry>, order: seq<int>, k: nat)
    requires Permutes(order, |original|) && k <= |order|
    ensures InPlace(messages, calls, writer, original, order, Reach(k, 0, 0), After(Abridging(), original, order[..k]))
  {
    var history := After(Abridging(), original, order[..k]);
    forall j | 0 <= j < |original|
      ensures InPlaceAt(messages, calls, writer, original, order, Reach(k, 0, 0), j, history[j])
    {
      AfterAt(Abridging(), original, order[..k], j);
    }
  }

  lemma CollapsedInPlace(messages: seq<Message>, calls: seq<ToolCall>, writer: Writer, original: seq<Entry>, order: seq<int>, k: nat)
    requires Permutes(order, |original|) && k <= |order|
    ensures InPlace(messages, calls, writer, original, order, Reach(|order|, k, 0),
                    After(Collapsing(messages), After(Abridging(), original, order), order[..k]))
  {
    var abridged := After(Abridging(), original, order);
    var history := After(Collapsing(messages), abridged, order[..k]);
    forall j | 0 <= j < |original|
      ensures InPlaceAt(messages, calls, writer, original, order, Reach(|order|, k, 0), j, history[j])
    {
      AfterAt(Abridging(), original, order, j);
      AfterAt(Collapsing(messages), abridged, order[..k], j);
      assert order[..|order|] == order;
    }
  }

  lemma CompactedInPlace(messages: seq<Message>, calls: seq<ToolCall>, writer: Writer, original: seq<Entry>, order: seq<int>, k: nat)
    requires Permutes(order, |original|) && k <= |order|
    ensures InPlace(messages, calls, writer, original, order, Reach(|order|, |order|, k),
                    After(Compacting(writer, calls, |messages|),
                          After(Collapsing(messages), After(Abridging(), original, order), order), order[..k]))
  {
    var (abridged, change) := (After(Abridging(), original, order), Compacting(writer, calls, |messages|));
    var collapsed := After(Collapsing(messages), abridged, order);
    var history := After(change, collapsed, order[..k]);
    forall j | 0 <= j < |original|
      ensures InPlaceAt(messages, calls, writer, original, order, Reach(|order|, |order|, k), j, history[j])
    {
      AfterAt(Abridging(), original, order, j);
      AfterAt(Collapsing(messages), abridged, order, j);
      AfterAt(change, collapsed, order[..k], j);
      assert order[..|order|] == order;
    }
  }

  /** An entry of a stage in place. */
  lemma InPlaceEntry(messages: seq<Message>, calls: seq<ToolCall>, writer: Writer, stage: Stage, original: seq<Entry>,
                     order: seq<int>, reach: Reach, j: nat, e: Entry)
    requires Original(messages, calls, 60, original) && Permutes(order, |original|) && InTurn(stage, |order|, reach)
    requires j < |original| && InPlaceAt(messages, calls, writer, original, order, reach, j, e)
    ensures EntryRight(messages, calls, writer, stage, e) && e.i == original[j].i
  {
    assert OriginalAt(messages, calls, 60, original[j]);
    assert order[..|order|] == order && j in order;
    ReducedRight(messages, calls, writer, stage, original[j], j in order[..reach.abridged], j in order[..reach.collapsed],
                 j in order[..reach.compacted], e);
  }

  /** Two entries of a stage in place. */
  lemma InPlaceOrder(messages: seq<Message>, calls: seq<ToolCall>, writer: Writer, stage: Stage, original: seq<Entry>,
                     order: seq<int>, reach: Reach, j: nat, k: nat, a: Entry, b: Entry)
    requires Original(messages, calls, 60, original) && order == ReductionOrder(original, |messages|)
    requires InTurn(stage, |order|, reach) && j < |original| && k < |original|
    requires InPlaceAt(messages, calls, writer, original, order, reach, j, a)
    requires InPlaceAt(messages, calls, writer, original, order, reach, k, b)
    ensures OriginalAt(messages, calls, 60, original[j]) && OriginalAt(messages, calls, 60, original[k])
    ensures a.i == original[j].i && b.i == original[k].i
    ensures OrderRight(messages, stage, a, b)
  {
    assert OriginalAt(messages, calls, 60, original[j]) && OriginalAt(messages, calls, 60, original[k]);
    assert order[..|order|] == order && j in order && k in order;
    ReducedEntry(messages, calls, writer, original[j], j in order[..reach.abridged], j in order[..reach.collapsed],
                 j in order[..reach.compacted], a);
    ReducedEntry(messages, calls, writer, original[k], k in order[..reach.abridged], k in order[..reach.collapsed],
                 k in order[..reach.compacted], b);
    if Before(|messages|, a.i, b.i) {
      ReachedTogether(original, |messages|, order, reach.abridged, j, k);
      ReachedTogether(original, |messages|, order, reach.collapsed, j, k);
      ReachedTogether(original, |messages|, order, reach.compacted, j, k);
    }
  }

  lemma ReachedTogether(original: seq<Entry>, count: nat, order: seq<int>, n: nat, j: nat, k: nat)
    requires Rising(original) && order == ReductionOrder(original, count) && n <= |order|
    requires j < |original| && k < |original| && Before(count, original[j].i, original[k].i)
    ensures k in order[..n] ==> j in order[..n]
  {
    if k in order[..n] {
      ReachedFirst(original, count, n, j, k);
    }
  }

  /** A form of a stage in place. */
  lemma InPlaceRight(messages: seq<Message>, calls: seq<ToolCall>, writer: Writer, stage: Stage, original: seq<Entry>,
                     order: seq<int>, reach: Reach, history: seq<Entry>)
    requires Original(messages, calls, 60, original) && order == ReductionOrder(original, |messages|)
    requires InTurn(stage, |order|, reach) && InPlace(messages, calls, writer, original, order, reach, history)
    ensures Right(messages, calls, writer, stage, history)
  {
    forall j | 0 <= j < |history|
      ensures EntryRight(messages, calls, writer, stage, history[j]) && history[j].i == original[j].i
    {
      InPlaceEntry(messages, calls, writer, stage, original, order, reach, j, history[j]);
    }
    forall j, k | 0 <= j < |history| && 0 <= k < |history| ensures OrderRight(messages, stage, history[j], history[k]) {
      InPlaceOrder(messages, calls, writer, stage, original, order, reach, j, k, history[j], history[k]);
    }
    AlignedRight(messages, calls, writer, stage, 60, original, history);
  }

  /** A history whose entries have been through every stage in place. */
  ghost predicate AllReached(messages: seq<Message>, calls: seq<ToolCall>, writer: Writer, original: seq<Entry>,
                             history: seq<Entry>) {
    && Original(messages, calls, 60, original) && Aligned(original, history)
    && forall j :: 0 <= j < |history| ==> EntryRight(messages, calls, writer, MessagesLeftOut, history[j])
  }

  lemma ChangedReached(messages: seq<Message>, calls: seq<ToolCall>, writer: Writer, original: seq<Entry>)
    requires Original(messages, calls, 60, original)
    ensures AllReached(messages, calls, writer, original, AllChanged(messages, calls, writer, original))
  {
    var order := ReductionOrder(original, |messages|);
    var (n, history) := (|order|, AllChanged(messages, calls, writer, original));
    assert order[..n] == order;
    CompactedInPlace(messages, calls, writer, original, order, n);
    forall j | 0 <= j < |history|
      ensures EntryRight(messages, calls, writer, MessagesLeftOut, history[j]) && history[j].i == original[j].i
    {
      assert InPlaceAt(messages, calls, writer, original, order, Reach(n, n, n), j, history[j]);
      assert OriginalAt(messages, calls, 60, original[j]) && j in order;
      ReducedRight(messages, calls, writer, MessagesLeftOut, original[j], true, true, true, history[j]);
    }
  }

  lemma RisingNext(front: seq<Entry>, e: Entry)
    requires Rising(front) && forall f :: f in front ==> f.i < e.i
    ensures Rising(front + [e])
  {
  }

  lemma {:induction false} RemainingRises(history: seq<Entry>, removed: set<int>)
    requires Rising(history)
    ensures Rising(Remaining(history, removed))
  {
    if history != [] {
      var n := |history| - 1;
      RemainingRises(history[..n], removed);
      if n !in removed {
        forall f | f in Remaining(history[..n], removed) ensures f.i < history[n].i {
          var j :| 0 <= j < n && history[..n][j] == f;
        }
        RisingNext(Remaining(history[..n], removed), history[n]);
      }
    }
  }

  lemma {:induction false} RemainingNot(history: seq<Entry>, removed: set<int>, j: nat)
    requires Rising(history) && j < |history| && j in removed
    ensures history[j] !in Remaining(history, removed)
  {
    var n := |history| - 1;
    var front := Remaining(history[..n], removed);
    if j < n {
      RemainingNot(history[..n], removed, j);
    } else {
      assert forall e :: e in front ==> e.i < history[n].i;
    }
  }

  lemma DroppedIs(history: seq<Entry>, order: seq<int>, count: nat, p: int)
    requires Within(order, |history|)
    ensures p in Dropped(history, order, count) <==> p in order && Droppable(history[p], count)
  {
    if p in order {
      var k :| 0 <= k < |order| && order[k] == p;
      assert Droppable(history[order[k]], count) ==> order[k] in Dropped(history, order, count);
    }
  }

  lemma {:induction false} DroppingIs(history: seq<Entry>, order: seq<int>, count: nat, h: seq<Entry>) returns (k: nat)
    requires Within(order, |history|) && h in Dropping(history, order, count)
    ensures k <= |order| && h == Remaining(history, Dropped(history, order[..k], count))
  {
    var n := |order| - 1;
    if h in Dropping(history, order[..n], count) {
      k := DroppingIs(history, order[..n], count, h);
      assert order[..n][..k] == order[..k];
    } else {
      k := |order|;
      assert order[..k] == order;
    }
  }

  /** Where a message's entry is. */
  lemma PositionOf(messages: seq<Message>, calls: seq<ToolCall>, writer: Writer, original: seq<Entry>, history: seq<Entry>, i: nat)
    returns (p: nat)
    requires AllReached(messages, calls, writer, original, history) && i < |messages| && HasEntry(messages, calls, i)
    ensures p < |history| && history[p].i == i && original[p].i == i
    ensures Droppable(history[p], |messages|) <==> Spare(messages, calls, i)
  {
    p :| 0 <= p < |original| && original[p] == EntryOf(messages, calls, 60, i);
    assert EntryRight(messages, calls, writer, MessagesLeftOut, history[p]);
  }

  /** What is left shows the messages whose entries were not left out. */
  lemma LeftShows(messages: seq<Message>, calls: seq<ToolCall>, writer: Writer, original: seq<Entry>, history: seq<Entry>,
                  order: seq<int>, i: nat)
    returns (p: nat)
    requires AllReached(messages, calls, writer, original, history) && Within(order, |history|)
    requires i < |messages| && HasEntry(messages, calls, i)
    ensures p < |original| && original[p].i == i
    ensures Shows(Remaining(history, Dropped(history, order, |messages|)), i) <==> !(p in order && Spare(messages, calls, i))
  {
    var removed := Dropped(history, order, |messages|);
    p := PositionOf(messages, calls, writer, original, history, i);
    assert Rising(history);
    DroppedIs(history, order, |messages|, p);
    if p in removed {
      RemainingNot(history, removed, p);
    } else {
      assert history[p] in Remaining(history, removed);
    }
    if Shows(Remaining(history, removed), i) {
      var e :| e in Remaining(history, removed) && e.i == i;
      var q :| 0 <= q < |history| && history[q] == e;
      assert q == p;
    }
  }

  /** Nothing is shown that was not. */
  lemma ShownSpeaks(messages: seq<Message>, calls: seq<ToolCall>, writer: Writer, original: seq<Entry>, history: seq<Entry>,
                    fewer: seq<Entry>, i: nat)
    requires AllReached(messages, calls, writer, original, history) && i < |messages|
    requires forall e :: e in fewer ==> Shows(history, e.i)
    ensures Shows(fewer, i) ==> HasEntry(messages, calls, i)
  {
    AlignedShows(messages, calls, 60, original, history, i);
  }

  lemma LeftOutShown(messages: seq<Message>, calls: seq<ToolCall>, writer: Writer, original: seq<Entry>, history: seq<Entry>,
                     k: nat, i: nat)
    requires AllReached(messages, calls, writer, original, history) && k <= |history| && i < |messages|
    ensures var order := ReductionOrder(original, |messages|)[..k];
      ShownRight(messages, calls, MessagesLeftOut, Remaining(history, Dropped(history, order, |messages|)), i)
  {
    var order := ReductionOrder(original, |messages|)[..k];
    var left := Remaining(history, Dropped(history, order, |messages|));
    ShownSpeaks(messages, calls, writer, original, history, left, i);
    if HasEntry(messages, calls, i) {
      var p := LeftShows(messages, calls, writer, original, history, order, i);
      if Spare(messages, calls, i) && Shows(left, i) {
        forall j | i < j < |messages| && HasEntry(messages, calls, j) ensures Shows(left, j) {
          var q := LeftShows(messages, calls, writer, original, history, order, j);
          if q in order && Spare(messages, calls, j) {
            ReachedFirst(original, |messages|, k, p, q);
          }
        }
      }
    }
  }

  lemma ShortenedRight(messages: seq<Message>, calls: seq<ToolCall>, writer: Writer, stage: Stage, history: seq<Entry>)
    requires (stage.MessagesLeftOut? || stage.CallsMerged?) && Rising(history)
    requires forall e :: e in history ==> EntryRight(messages, calls, writer, stage, e)
    requires forall i :: 0 <= i < |messages| ==> ShownRight(messages, calls, stage, history, i)
    ensures Right(messages, calls, writer, stage, history)
  {
  }

  /** A form with entries left out. */
  lemma LeftOutRight(messages: seq<Message>, calls: seq<ToolCall>, writer: Writer, original: seq<Entry>, history: seq<Entry>, k: nat)
    requires AllReached(messages, calls, writer, original, history) && k <= |history|
    ensures var order := ReductionOrder(original, |messages|)[..k];
      Right(messages, calls, writer, MessagesLeftOut, Remaining(history, Dropped(history, order, |messages|)))
  {
    var order := ReductionOrder(original, |messages|)[..k];
    var left := Remaining(history, Dropped(history, order, |messages|));
    RemainingRises(history, Dropped(history, order, |messages|));
    forall i | 0 <= i < |messages| ensures ShownRight(messages, calls, MessagesLeftOut, left, i) {
      LeftOutShown(messages, calls, writer, original, history, k, i);
    }
    ShortenedRight(messages, calls, writer, MessagesLeftOut, left);
  }

  /** What merging leaves. */
  ghost predicate MergedFrom(messages: seq<Message>, calls: seq<ToolCall>, writer: Writer, history: seq<Entry>,
                             merged: seq<Entry>) {
    && Rising(merged)
    && (merged != [] ==> history != [] && merged[|merged| - 1].i <= history[|history| - 1].i)
    && (forall e :: e in merged ==> EntryRight(messages, calls, writer, CallsMerged, e) && Shows(history, e.i))
    && (forall e :: e in history && IsPinned(e.i, |messages|) ==> Shows(merged, e.i))
  }

  /** Entries that may be merged. */
  ghost predicate Mergeable(messages: seq<Message>, calls: seq<ToolCall>, writer: Writer, history: seq<Entry>) {
    Rising(history) && forall e :: e in history ==> EntryRight(messages, calls, writer, CallsMerged, e)
  }

  lemma {:induction false} MergedIs(messages: seq<Message>, calls: seq<ToolCall>, writer: Writer, history: seq<Entry>)
    requires Mergeable(messages, calls, writer, history)
    ensures MergedFrom(messages, calls, writer, history, Merged(history, |messages|))
  {
    if history != [] {
      var n := |history| - 1;
      assert Mergeable(messages, calls, writer, history[..n]);
      MergedIs(messages, calls, writer, history[..n]);
      assert history == history[..n] + [history[n]];
      MergedMore(messages, calls, writer, history[..n], Merged(history[..n], |messages|), history[n]);
    }
  }

  lemma ShowsMore(history: seq<Entry>, e: Entry, i: nat)
    ensures Shows(history + [e], i) <==> Shows(history, i) || e.i == i
  {
    if Shows(history, i) {
      var f :| f in history && f.i == i;
      assert f in history + [e];
    }
    assert e in history + [e];
  }

  lemma ShowsPut(history: seq<Entry>, n: nat, e: Entry, i: nat)
    requires n < |history| && e.i == history[n].i
    ensures Shows(history[n := e], i) <==> Shows(history, i)
  {
    if Shows(history, i) {
      var j :| 0 <= j < |history| && history[j].i == i;
      assert history[n := e][j].i == i && history[n := e][j] in history[n := e];
    }
    if Shows(history[n := e], i) {
      var j :| 0 <= j < |history| && history[n := e][j].i == i;
      assert history[j] in history;
    }
  }

  lemma MergedMore(messages: seq<Message>, calls: seq<ToolCall>, writer: Writer, history: seq<Entry>, merged: seq<Entry>, e: Entry)
    requires MergedFrom(messages, calls, writer, history, merged) && Rising(history + [e])
    requires EntryRight(messages, calls, writer, CallsMerged, e)
    ensures MergedFrom(messages, calls, writer, history + [e], MergedOn(merged, e, |messages|))
  {
    var n := |merged| - 1;
    assert history != [] ==> (history + [e])[|history| - 1].i < e.i;
    forall i: nat ensures Shows(history + [e], i) <==> Shows(history, i) || e.i == i {
      ShowsMore(history, e, i);
    }
    if Foldable(e, |messages|) && merged != [] && Foldable(merged[n], |messages|) && merged[n].role == e.role {
      FoldedMore(messages, calls, writer, history, merged, e);
    } else {
      forall i: nat ensures Shows(merged + [e], i) <==> Shows(merged, i) || e.i == i {
        ShowsMore(merged, e, i);
      }
      LastLargest(merged);
      RisingNext(merged, e);
    }
  }

  lemma LastLargest(history: seq<Entry>)
    requires Rising(history)
    ensures forall e :: e in history ==> e.i <= history[|history| - 1].i
  {
  }

  lemma FoldedEntry(messages: seq<Message>, calls: seq<ToolCall>, writer: Writer, before: Entry, e: Entry)
    requires EntryRight(messages, calls, writer, CallsMerged, before) && before.calls.Compacted? && e.calls.Compacted?
    requires !IsPinned(before.i, |messages|)
    ensures EntryRight(messages, calls, writer, CallsMerged,
                       before.(calls := Compacted(before.calls.lines + e.calls.lines)))
  {
  }

  lemma PutRises(history: seq<Entry>, n: nat, e: Entry)
    requires Rising(history) && n < |history| && e.i == history[n].i
    ensures Rising(history[n := e])
  {
  }

  lemma FoldedMore(messages: seq<Message>, calls: seq<ToolCall>, writer: Writer, history: seq<Entry>, merged: seq<Entry>, e: Entry)
    requires MergedFrom(messages, calls, writer, history, merged) && Rising(history + [e]) && merged != []
    requires Foldable(e, |messages|) && Foldable(merged[|merged| - 1], |messages|) && merged[|merged| - 1].role == e.role
    requires forall i: nat :: Shows(history + [e], i) <==> Shows(history, i) || e.i == i
    ensures MergedFrom(messages, calls, writer, history + [e], MergedOn(merged, e, |messages|))
  {
    var n := |merged| - 1;
    var folded := merged[n].(calls := Compacted(merged[n].calls.lines + e.calls.lines));
    assert merged[n] in merged;
    FoldedEntry(messages, calls, writer, merged[n], e);
    PutRises(merged, n, folded);
    assert forall x :: x in merged[n := folded] ==> x == folded || x in merged;
    forall i: nat ensures Shows(merged[n := folded], i) <==> Shows(merged, i) {
      ShowsPut(merged, n, folded, i);
    }
  }

  /** The form with calls merged. */
  lemma MergedRight(messages: seq<Message>, calls: seq<ToolCall>, writer: Writer, original: seq<Entry>, history: seq<Entry>)
    requires AllReached(messages, calls, writer, original, history)
    ensures var order := ReductionOrder(original, |messages|);
      Right(messages, calls, writer, CallsMerged, Merged(Remaining(history, Dropped(history, order, |messages|)), |messages|))
  {
    var order := ReductionOrder(original, |messages|);
    var left := Remaining(history, Dropped(history, order, |messages|));
    var merged := Merged(left, |messages|);
    LeftMergeable(messages, calls, writer, original, history, order);
    MergedIs(messages, calls, writer, left);
    forall i | 0 <= i < |messages| ensures ShownRight(messages, calls, CallsMerged, merged, i) {
      MergedShown(messages, calls, writer, original, history, i);
    }
    ShortenedRight(messages, calls, writer, CallsMerged, merged);
  }

  lemma EntryMerges(messages: seq<Message>, calls: seq<ToolCall>, writer: Writer, e: Entry)
    requires EntryRight(messages, calls, writer, MessagesLeftOut, e)
    ensures EntryRight(messages, calls, writer, CallsMerged, e)
  {
  }

  lemma LeftMergeable(messages: seq<Message>, calls: seq<ToolCall>, writer: Writer, original: seq<Entry>, history: seq<Entry>,
                      order: seq<int>)
    requires AllReached(messages, calls, writer, original, history) && Within(order, |history|)
    ensures Mergeable(messages, calls, writer, Remaining(history, Dropped(history, order, |messages|)))
  {
    var left := Remaining(history, Dropped(history, order, |messages|));
    assert Rising(history);
    RemainingRises(history, Dropped(history, order, |messages|));
    forall e | e in left ensures EntryRight(messages, calls, writer, CallsMerged, e) {
      assert e in history;
      EntryMerges(messages, calls, writer, e);
    }
  }

  lemma MergedShown(messages: seq<Message>, calls: seq<ToolCall>, writer: Writer, original: seq<Entry>, history: seq<Entry>,
                    i: nat)
    requires AllReached(messages, calls, writer, original, history) && i < |messages|
    ensures var order := ReductionOrder(original, |messages|);
      ShownRight(messages, calls, CallsMerged, Merged(Remaining(history, Dropped(history, order, |messages|)), |messages|), i)
  {
    var order := ReductionOrder(original, |messages|);
    var left := Remaining(history, Dropped(history, order, |messages|));
    LeftMergeable(messages, calls, writer, original, history, order);
    MergedIs(messages, calls, writer, left);
    ShownSpeaks(messages, calls, writer, original, history, left, i);
    if HasEntry(messages, calls, i) {
      var p := LeftShows(messages, calls, writer, original, history, order, i);
      assert p in order;
      if IsPinned(i, |messages|) {
        var e :| e in left && e.i == i;
        assert Shows(Merged(left, |messages|), e.i);
      }
    }
  }

  /** Every form is one that may be returned. */
  ghost predicate AllRight(messages: seq<Message>, calls: seq<ToolCall>, writer: Writer, forms: seq<Form>) {
    forall k :: 0 <= k < |forms| ==> Right(messages, calls, writer, forms[k].stage, forms[k].history)
  }

  lemma FormsRight(messages: seq<Message>, calls: seq<ToolCall>, writer: Writer, stage: Stage, histories: seq<seq<Entry>>)
    requires forall k :: 0 <= k < |histories| ==> Right(messages, calls, writer, stage, histories[k])
    ensures AllRight(messages, calls, writer, Forms(stage, histories))
  {
  }

  lemma BothRight(messages: seq<Message>, calls: seq<ToolCall>, writer: Writer, a: seq<Form>, b: seq<Form>)
    requires AllRight(messages, calls, writer, a) && AllRight(messages, calls, writer, b)
    ensures AllRight(messages, calls, writer, a + b)
  {
  }

  lemma OneRight(messages: seq<Message>, calls: seq<ToolCall>, writer: Writer, form: Form)
    requires Right(messages, calls, writer, form.stage, form.history)
    ensures AllRight(messages, calls, writer, [form])
  {
  }

  lemma AbridgedAllRight(messages: seq<Message>, calls: seq<ToolCall>, writer: Writer, original: seq<Entry>, order: seq<int>)
    requires Original(messages, calls, 60, original) && order == ReductionOrder(original, |messages|)
    ensures AllRight(messages, calls, writer, Forms(TextsAbridged, Along(Abridging(), original, order)))
  {
    var histories := Along(Abridging(), original, order);
    forall t | 0 <= t < |histories| ensures Right(messages, calls, writer, TextsAbridged, histories[t]) {
      var k := AlongIs(Abridging(), original, order, histories[t]);
      AbridgedInPlace(messages, calls, writer, original, order, k);
      InPlaceRight(messages, calls, writer, TextsAbridged, original, order, Reach(k, 0, 0), histories[t]);
    }
    FormsRight(messages, calls, writer, TextsAbridged, histories);
  }

  lemma CollapsedAllRight(messages: seq<Message>, calls: seq<ToolCall>, writer: Writer, original: seq<Entry>, order: seq<int>)
    requires Original(messages, calls, 60, original) && order == ReductionOrder(original, |messages|)
    ensures AllRight(messages, calls, writer,
                     Forms(MessagesCollapsed, Along(Collapsing(messages), After(Abridging(), original, order), order)))
  {
    var abridged := After(Abridging(), original, order);
    var histories := Along(Collapsing(messages), abridged, order);
    forall t | 0 <= t < |histories| ensures Right(messages, calls, writer, MessagesCollapsed, histories[t]) {
      var k := AlongIs(Collapsing(messages), abridged, order, histories[t]);
      CollapsedInPlace(messages, calls, writer, original, order, k);
      InPlaceRight(messages, calls, writer, MessagesCollapsed, original, order, Reach(|order|, k, 0), histories[t]);
    }
    FormsRight(messages, calls, writer, MessagesCollapsed, histories);
  }

  lemma CompactedAllRight(messages: seq<Message>, calls: seq<ToolCall>, writer: Writer, original: seq<Entry>, order: seq<int>)
    requires Original(messages, calls, 60, original) && order == ReductionOrder(original, |messages|)
    ensures AllRight(messages, calls, writer,
                     Forms(CallsCompacted,
                           Along(Compacting(writer, calls, |messages|),
                                 After(Collapsing(messages), After(Abridging(), original, order), order), order)))
  {
    var change := Compacting(writer, calls, |messages|);
    var collapsed := After(Collapsing(messages), After(Abridging(), original, order), order);
    var histories := Along(change, collapsed, order);
    forall t | 0 <= t < |histories| ensures Right(messages, calls, writer, CallsCompacted, histories[t]) {
      var k := AlongIs(change, collapsed, order, histories[t]);
      CompactedInPlace(messages, calls, writer, original, order, k);
      InPlaceRight(messages, calls, writer, CallsCompacted, original, order, Reach(|order|, |order|, k), histories[t]);
    }
    FormsRight(messages, calls, writer, CallsCompacted, histories);
  }

  lemma ChangedAllRight(messages: seq<Message>, calls: seq<ToolCall>, writer: Writer, original: seq<Entry>)
    requires Original(messages, calls, 60, original)
    ensures AllRight(messages, calls, writer, ChangedForms(messages, calls, writer, original))
  {
    var order := ReductionOrder(original, |messages|);
    var abridged := After(Abridging(), original, order);
    var (a, b, c) := (Forms(TextsAbridged, Along(Abridging(), original, order)),
                      Forms(MessagesCollapsed, Along(Collapsing(messages), abridged, order)),
                      Forms(CallsCompacted, Along(Compacting(writer, calls, |messages|),
                                                  After(Collapsing(messages), abridged, order), order)));
    AbridgedAllRight(messages, calls, writer, original, order);
    CollapsedAllRight(messages, calls, writer, original, order);
    CompactedAllRight(messages, calls, writer, original, order);
    BothRight(messages, calls, writer, a, b);
    BothRight(messages, calls, writer, a + b, c);
  }

  lemma FewerAllRight(messages: seq<Message>, calls: seq<ToolCall>, writer: Writer, original: seq<Entry>, history: seq<Entry>)
    requires AllReached(messages, calls, writer, original, history)
    ensures AllRight(messages, calls, writer, FewerForms(history, ReductionOrder(original, |messages|), |messages|))
  {
    var order := ReductionOrder(original, |messages|);
    var histories := Dropping(history, order, |messages|);
    forall t | 0 <= t < |histories| ensures Right(messages, calls, writer, MessagesLeftOut, histories[t]) {
      var k := DroppingIs(history, order, |messages|, histories[t]);
      LeftOutRight(messages, calls, writer, original, history, k);
    }
    FormsRight(messages, calls, writer, MessagesLeftOut, histories);
    MergedRight(messages, calls, writer, original, history);
    var merged := [Merged(Remaining(history, Dropped(history, order, |messages|)), |messages|)];
    FormsRight(messages, calls, writer, CallsMerged, merged);
    BothRight(messages, calls, writer, Forms(MessagesLeftOut, histories), Forms(CallsMerged, merged));
  }

  lemma AllFormsRight(messages: seq<Message>, calls: seq<ToolCall>, writer: Writer)
    ensures AllRight(messages, calls, writer, AllForms(messages, calls, writer))
  {
    var last := Entries(messages, calls, 60, |messages|);
    EntriesOriginal(messages, calls, 60);
    ChangedReached(messages, calls, writer, last);
    ChangedAllRight(messages, calls, writer, last);
    FewerAllRight(messages, calls, writer, last, AllChanged(messages, calls, writer, last));
    BothRight(messages, calls, writer, ChangedForms(messages, calls, writer, last),
              FewerForms(AllChanged(messages, calls, writer, last), ReductionOrder(last, |messages|), |messages|));
    WholeAllRight(messages, calls, writer, InputsCut(60), 60, LaterForms(messages, calls, writer));
    WholeAllRight(messages, calls, writer, InputsCut(200), 200,
                  [WholeForm(messages, calls, InputsCut(60), 60)] + LaterForms(messages, calls, writer));
    WholeAllRight(messages, calls, writer, FullState, 1000, CutForms(messages, calls, writer));
  }

  lemma WholeAllRight(messages: seq<Message>, calls: seq<ToolCall>, writer: Writer, stage: Stage, cap: nat, later: seq<Form>)
    requires cap > 0 && Untouched(stage) && CapOf(stage) == cap && AllRight(messages, calls, writer, later)
    ensures AllRight(messages, calls, writer, [WholeForm(messages, calls, stage, cap)] + later)
  {
    WholeRight(messages, calls, writer, stage, cap);
    OneRight(messages, calls, writer, WholeForm(messages, calls, stage, cap));
    BothRight(messages, calls, writer, [WholeForm(messages, calls, stage, cap)], later);
  }

  /** Whatever form is returned, it is right for its stage. */
  lemma BuiltRight(messages: seq<Message>, calls: seq<ToolCall>, writer: Writer)
    ensures var r := FirstFitting(writer, AllForms(messages, calls, writer));
      r.Built? ==> Right(messages, calls, writer, r.stage, r.history)
  {
    var forms := AllForms(messages, calls, writer);
    AllFormsRight(messages, calls, writer);
    if SomeFits(writer, forms) {
      var k: nat :| FitsFirst(writer, forms, k);
      FitsAt(writer, forms, k);
    }
  }
}
