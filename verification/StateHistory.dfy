/** The entries of a compaction's decision context, and every shorter form `build_state` tries. */
module StateHistory {
  import opened Common
  import opened Sorting
  import opened Permutations
  import opened TokenEstimate
  import opened TraceMessages

  const MAX_STATE_TOKENS := 25000

  /** How an entry shows its tool calls. */
  datatype Calls = NoCalls | Listed(notes: seq<CallNote>) | Compacted(lines: seq<Text>)

  datatype CallNote = CallNote(number: nat, tool: Text, input: Text, isError: bool, chars: nat)

  datatype Entry = Entry(i: nat, role: Role, text: Text, calls: Calls)

  datatype Stage =
    | FullState | InputsCut(cap: nat) | TextsAbridged | MessagesCollapsed | CallsCompacted | MessagesLeftOut | CallsMerged

  datatype Built = OverBudget | Built(history: seq<Entry>, tokens: nat, stage: Stage)

  /** How the parts of a state read as JSON: `header` runs up to the bracket that opens the history,
      and the texts of entries and of compacted calls are left open. */
  datatype Writer = Writer(header: Text, entry: Entry -> Text, line: ToolCall -> Text) {
    ghost predicate Valid() {
      header != [] && header[|header| - 1] == '[' as int
    }

    /** What an entry counts toward the budget. */
    function Size(e: Entry): nat {
      Ceiling(Cost(entry(e))) + 1
    }

    function Sizes(history: seq<Entry>): (r: seq<nat>)
      ensures |r| == |history|
    {
      seq(|history|, i requires 0 <= i < |history| => Size(history[i]))
    }

    /** Entries with commas between them. */
    function Joined(history: seq<Entry>): Text {
      if history == [] then
        []
      else
        var n := |history| - 1;
        (if n == 0 then [] else Joined(history[..n]) + [',' as int]) + entry(history[n])
    }

    function Closing(): Text {
      [']' as int, '}' as int]
    }

    /** The whole serialized state. */
    function StateText(history: seq<Entry>): Text {
      header + Joined(history) + Closing()
    }

    function BaseTokens(): nat {
      Ceiling(Cost(StateText([])))
    }

    lemma {:induction false} JoinedCost(history: seq<Entry>)
      ensures Cost(Joined(history)) <= 10 * Sum(Sizes(history))
    {
      if history != [] {
        var n := |history| - 1;
        JoinedCost(history[..n]);
        assert Sizes(history)[..n] == Sizes(history[..n]);
        if n == 0 {
          assert Joined(history) == entry(history[0]);
        } else {
          AfterComma(Joined(history[..n]), entry(history[n]));
        }
      }
    }

    /** The sizes of the entries, with the base, bound the estimate of the whole state. */
    lemma StateBound(history: seq<Entry>)
      requires Valid()
      ensures Ceiling(Cost(StateText(history))) <= BaseTokens() + Sum(Sizes(history))
    {
      var closing := Closing();
      assert TailLetters(header) == 0;
      CostSeparate(header, closing);
      assert StateText([]) == header + closing;
      CostSubadditive(header + Joined(history), closing);
      CostSubadditive(header, Joined(history));
      JoinedCost(history);
    }
  }

  /** The calls made by one message. */
  function OwnCalls(calls: seq<ToolCall>, i: nat): seq<ToolCall> {
    if calls == [] then
      []
    else
      var n := |calls| - 1;
      OwnCalls(calls[..n], i) + (if calls[n].callIndex == i then [calls[n]] else [])
  }

  function Note(call: ToolCall, cap: nat): CallNote
    requires cap > 0
  {
    CallNote(call.number, call.tool, Truncate(call.arguments.json, cap), call.isError, |call.result|)
  }

  function Notes(own: seq<ToolCall>, cap: nat): Calls
    requires cap > 0
  {
    if own == [] then NoCalls
    else Listed(seq(|own|, k requires 0 <= k < |own| => Note(own[k], cap)))
  }

  /** Whether a message has an entry. */
  predicate HasEntry(messages: seq<Message>, calls: seq<ToolCall>, i: nat)
    requires i < |messages|
  {
    messages[i].role != Tool && (!Blank(messages[i].content) || OwnCalls(calls, i) != [])
  }

  function EntryOf(messages: seq<Message>, calls: seq<ToolCall>, cap: nat, i: nat): Entry
    requires i < |messages| && cap > 0
  {
    Entry(i, messages[i].role, messages[i].content, Notes(OwnCalls(calls, i), cap))
  }

  /** The entries of the first n messages. */
  function Entries(messages: seq<Message>, calls: seq<ToolCall>, cap: nat, n: nat): (r: seq<Entry>)
    requires n <= |messages| && cap > 0
    ensures forall k :: 0 <= k < |r| ==> r[k].i < n
  {
    if n == 0 then
      []
    else
      Entries(messages, calls, cap, n - 1)
        + (if HasEntry(messages, calls, n - 1) then [EntryOf(messages, calls, cap, n - 1)] else [])
  }

  const OMITTED := Units(" chars omitted ")

  /** `text[:400]`, a note of what is left out, and `text[-150:]`. */
  function Abridged(text: Text): Text
    requires |text| > 590
  {
    text[..400] + Units("\n[") + [0x2026, ' ' as int] + Decimal(|text| - 550) + OMITTED + [0x2026] + Units("]\n")
      + text[|text| - 150..]
  }

  function Collapsed(length: nat): Text {
    ['[' as int, 0x2026, ' ' as int] + Decimal(length) + OMITTED + [0x2026, ']' as int]
  }

  /** What a stage may do to an entry: a pinned one keeps its calls, and its text whole or abridged. */
  ghost predicate Reduced(count: nat, before: Entry, after: Entry) {
    && after.i == before.i && after.role == before.role
    && (after.calls == NoCalls <==> before.calls == NoCalls)
    && (IsPinned(before.i, count) ==>
          && after.calls == before.calls
          && (after.text == before.text || (|before.text| > 590 && after.text == Abridged(before.text))))
  }

  ghost predicate ReducedAll(count: nat, before: seq<Entry>, after: seq<Entry>) {
    |after| == |before| && forall i :: 0 <= i < |before| ==> Reduced(count, before[i], after[i])
  }

  function PinnedKey(history: seq<Entry>, count: int): int -> SortKey {
    i => (if 0 <= i < |history| && IsPinned(history[i].i, count) then 1 else 0, 0)
  }

  /** The entries in the order they are reduced: those not pinned first. */
  function ReductionOrder(history: seq<Entry>, count: nat): (r: seq<int>)
    ensures Permutes(r, |history|)
  {
    var r := SortBy(Iota(|history|), PinnedKey(history, count));
    OrderPermutes(r, |history|);
    r
  }

  lemma SizesUpdate(writer: Writer, history: seq<Entry>, i: nat, e: Entry)
    requires i < |history|
    ensures writer.Sizes(history[i := e]) == writer.Sizes(history)[i := writer.Size(e)]
  {
  }

  /** A state within budget: its count is the base plus every entry's current size. */
  ghost predicate Fits(writer: Writer, history: seq<Entry>, tokens: nat) {
    tokens == writer.BaseTokens() + Sum(writer.Sizes(history)) <= MAX_STATE_TOKENS
  }

  /** Tokens counted for a history. */
  function Tokens(writer: Writer, history: seq<Entry>): nat {
    writer.BaseTokens() + Sum(writer.Sizes(history))
  }

  predicate InBudget(writer: Writer, history: seq<Entry>) {
    Tokens(writer, history) <= MAX_STATE_TOKENS
  }

  function Lines(writer: Writer, own: seq<ToolCall>): seq<Text> {
    seq(|own|, k requires 0 <= k < |own| => writer.line(own[k]))
  }

  /** What a stage makes of one entry, if it changes it. */
  type Change = Entry -> Option<Entry>

  /** A long text becomes its head and tail. */
  function Abridging(): Change {
    (e: Entry) => if |e.text| > 590 then Some(e.(text := Abridged(e.text))) else None
  }

  /** The text of a message that is not pinned becomes a note of its length. */
  function Collapsing(messages: seq<Message>): Change {
    (e: Entry) =>
      if e.i < |messages| && !IsPinned(e.i, |messages|) && e.text != [] then
        Some(e.(text := Collapsed(|messages[e.i].content|)))
      else
        None
  }

  /** The calls of a message that is not pinned become one line each. */
  function Compacting(writer: Writer, calls: seq<ToolCall>, count: nat): Change {
    (e: Entry) =>
      if !IsPinned(e.i, count) && OwnCalls(calls, e.i) != [] then
        Some(e.(calls := Compacted(Lines(writer, OwnCalls(calls, e.i)))))
      else
        None
  }

  function Changed(change: Change, history: seq<Entry>, i: int): seq<Entry>
    requires 0 <= i < |history|
  {
    match change(history[i])
    case None => history
    case Some(e) => history[i := e]
  }

  /** The history after a stage has gone through some of the entries. */
  function After(change: Change, history: seq<Entry>, order: seq<int>): (r: seq<Entry>)
    requires Within(order, |history|)
    ensures |r| == |history|
  {
    if order == [] then
      history
    else
      var n := |order| - 1;
      Changed(change, After(change, history, order[..n]), order[n])
  }

  /** The history after every change the stage makes on the way. */
  function Along(change: Change, history: seq<Entry>, order: seq<int>): seq<seq<Entry>>
    requires Within(order, |history|)
  {
    if order == [] then
      []
    else
      var n := |order| - 1;
      Along(change, history, order[..n])
      + (if change(After(change, history, order[..n])[order[n]]).Some? then [After(change, history, order)] else [])
  }

  /** The entries not in `removed`. */
  function Remaining(history: seq<Entry>, removed: set<int>): (r: seq<Entry>)
    ensures forall e :: e in r ==> e in history
    ensures forall i :: 0 <= i < |history| && i !in removed ==> history[i] in r
  {
    if history == [] then
      []
    else
      var n := |history| - 1;
      var r := Remaining(history[..n], removed) + (if n in removed then [] else [history[n]]);
      assert forall i :: 0 <= i < n ==> history[..n][i] == history[i];
      r
  }

  predicate Droppable(e: Entry, count: nat) {
    !IsPinned(e.i, count) && e.calls == NoCalls
  }

  /** The entries left out on the way through some of the entries. */
  function Dropped(history: seq<Entry>, order: seq<int>, count: nat): set<int>
    requires Within(order, |history|)
  {
    set k | 0 <= k < |order| && Droppable(history[order[k]], count) :: order[k]
  }

  /** The history after each entry that is left out. */
  function Dropping(history: seq<Entry>, order: seq<int>, count: nat): seq<seq<Entry>>
    requires Within(order, |history|)
  {
    if order == [] then
      []
    else
      var n := |order| - 1;
      Dropping(history, order[..n], count)
      + (if Droppable(history[order[n]], count) then [Remaining(history, Dropped(history, order, count))] else [])
  }

  predicate Foldable(e: Entry, count: nat) {
    !IsPinned(e.i, count) && e.text == [] && e.calls.Compacted?
  }

  /** An entry at the end of merged ones: its lines join the last entry's, or it stands alone. */
  function MergedOn(merged: seq<Entry>, e: Entry, count: nat): seq<Entry> {
    var n := |merged| - 1;
    if Foldable(e, count) && merged != [] && Foldable(merged[n], count) && merged[n].role == e.role then
      merged[n := merged[n].(calls := Compacted(merged[n].calls.lines + e.calls.lines))]
    else
      merged + [e]
  }

  /** Adjacent entries that only hold compacted calls of one role are merged. */
  function Merged(history: seq<Entry>, count: nat): seq<Entry> {
    if history == [] then
      []
    else
      var n := |history| - 1;
      MergedOn(Merged(history[..n], count), history[n], count)
  }

  /** A form of the history, and the stage it belongs to. */
  datatype Form = Form(stage: Stage, history: seq<Entry>)

  function Forms(stage: Stage, histories: seq<seq<Entry>>): (r: seq<Form>)
    ensures |r| == |histories|
    ensures forall k :: 0 <= k < |r| ==> r[k] == Form(stage, histories[k])
  {
    seq(|histories|, k requires 0 <= k < |histories| => Form(stage, histories[k]))
  }

  /** Form k fits, and no form before it does. */
  ghost predicate FitsFirst(writer: Writer, forms: seq<Form>, k: nat) {
    k < |forms| && InBudget(writer, forms[k].history) && forall j :: 0 <= j < k ==> !InBudget(writer, forms[j].history)
  }

  ghost predicate SomeFits(writer: Writer, forms: seq<Form>) {
    exists k: nat :: FitsFirst(writer, forms, k)
  }

  function BuiltOf(writer: Writer, form: Form): Built {
    Built(form.history, Tokens(writer, form.history), form.stage)
  }

  /** The first form within budget. */
  ghost function FirstFitting(writer: Writer, forms: seq<Form>): Built {
    if SomeFits(writer, forms) then
      var k: nat :| FitsFirst(writer, forms, k);
      BuiltOf(writer, forms[k])
    else
      OverBudget
  }

  lemma FitsAt(writer: Writer, forms: seq<Form>, k: nat)
    requires FitsFirst(writer, forms, k)
    ensures FirstFitting(writer, forms) == BuiltOf(writer, forms[k])
  {
    assert SomeFits(writer, forms);
    var j: nat :| FitsFirst(writer, forms, j) && FirstFitting(writer, forms) == BuiltOf(writer, forms[j]);
    assert j == k;
  }

  /** Nothing is returned exactly when no form fits. */
  lemma {:induction false} NothingFits(writer: Writer, forms: seq<Form>)
    ensures FirstFitting(writer, forms).OverBudget? <==> forall k :: 0 <= k < |forms| ==> !InBudget(writer, forms[k].history)
  {
    var k := 0;
    while k < |forms| && !InBudget(writer, forms[k].history)
      invariant 0 <= k <= |forms| && forall j :: 0 <= j < k ==> !InBudget(writer, forms[j].history)
    {
      k := k + 1;
    }
    if k < |forms| {
      FitsAt(writer, forms, k);
    }
  }

  lemma FirstOfBoth(writer: Writer, a: seq<Form>, b: seq<Form>)
    ensures FirstFitting(writer, a + b)
      == if FirstFitting(writer, a).Built? then FirstFitting(writer, a) else FirstFitting(writer, b)
  {
    if SomeFits(writer, a) {
      var k: nat :| FitsFirst(writer, a, k);
      FitsAt(writer, a, k);
      assert FitsFirst(writer, a + b, k);
      FitsAt(writer, a + b, k);
    } else {
      NothingFits(writer, a);
      if SomeFits(writer, b) {
        var k: nat :| FitsFirst(writer, b, k);
        FitsAt(writer, b, k);
        assert (a + b)[|a| + k] == b[k];
        FitsAt(writer, a + b, |a| + k);
      } else {
        NothingFits(writer, b);
        NothingFits(writer, a + b);
      }
    }
  }

  lemma FirstOfOne(writer: Writer, form: Form)
    ensures FirstFitting(writer, [form]) == if InBudget(writer, form.history) then BuiltOf(writer, form) else OverBudget
  {
    if InBudget(writer, form.history) {
      FitsAt(writer, [form], 0);
    } else {
      NothingFits(writer, [form]);
    }
  }

  /** The forms the stages in place go through. */
  function ChangedForms(messages: seq<Message>, calls: seq<ToolCall>, writer: Writer, history: seq<Entry>): seq<Form> {
    var order := ReductionOrder(history, |messages|);
    var abridged := After(Abridging(), history, order);
    var collapsed := After(Collapsing(messages), abridged, order);
    Forms(TextsAbridged, Along(Abridging(), history, order))
    + Forms(MessagesCollapsed, Along(Collapsing(messages), abridged, order))
    + Forms(CallsCompacted, Along(Compacting(writer, calls, |messages|), collapsed, order))
  }

  /** The history once those stages are through. */
  function AllChanged(messages: seq<Message>, calls: seq<ToolCall>, writer: Writer, history: seq<Entry>): (r: seq<Entry>)
    ensures |r| == |history|
  {
    var order := ReductionOrder(history, |messages|);
    After(Compacting(writer, calls, |messages|),
          After(Collapsing(messages), After(Abridging(), history, order), order), order)
  }

  /** The forms with entries left out, and the one with calls merged. */
  function FewerForms(history: seq<Entry>, order: seq<int>, count: nat): seq<Form>
    requires Within(order, |history|)
  {
    Forms(MessagesLeftOut, Dropping(history, order, count))
    + Forms(CallsMerged, [Merged(Remaining(history, Dropped(history, order, count)), count)])
  }

  /** The forms beyond the whole history. */
  function LaterForms(messages: seq<Message>, calls: seq<ToolCall>, writer: Writer): seq<Form> {
    var last := Entries(messages, calls, 60, |messages|);
    ChangedForms(messages, calls, writer, last)
    + FewerForms(AllChanged(messages, calls, writer, last), ReductionOrder(last, |messages|), |messages|)
  }

  /** The whole history, its calls' inputs cut at `cap`. */
  function WholeForm(messages: seq<Message>, calls: seq<ToolCall>, stage: Stage, cap: nat): Form
    requires cap > 0
  {
    Form(stage, Entries(messages, calls, cap, |messages|))
  }

  /** The forms with shorter inputs, or beyond. */
  function CutForms(messages: seq<Message>, calls: seq<ToolCall>, writer: Writer): seq<Form> {
    [WholeForm(messages, calls, InputsCut(200), 200)]
    + ([WholeForm(messages, calls, InputsCut(60), 60)] + LaterForms(messages, calls, writer))
  }

  /** Every form of the history that may be tried, the least reduced first. */
  function AllForms(messages: seq<Message>, calls: seq<ToolCall>, writer: Writer): seq<Form> {
    [WholeForm(messages, calls, FullState, 1000)] + CutForms(messages, calls, writer)
  }
}
