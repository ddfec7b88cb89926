/** The stack of open events of a sorted trace. */
module Nesting {
  import opened Sorting
  import opened CallTree

  /** An open event: where it ends, and its node. */
  datatype Entry = Entry(end: int, path: Path)

  /** The path of the innermost open event that lasts past a tick. */
  function PathAt(stack: seq<Entry>, t: int): Path {
    if stack == [] then []
    else if stack[|stack| - 1].end > t then stack[|stack| - 1].path
    else PathAt(stack[..|stack| - 1], t)
  }

  function TopPath(stack: seq<Entry>): Path {
    if stack == [] then [] else stack[|stack| - 1].path
  }

  /** The open events have nodes, and each ends within the one it is in. */
  ghost predicate StackOk(stack: seq<Entry>, nodes: set<Path>, duration: nat) {
    && (forall i :: 0 <= i < |stack| ==> stack[i].path in nodes && stack[i].end <= duration)
    && (forall i, j :: 0 <= i < j < |stack| ==> stack[j].end <= stack[i].end)
  }

  /** From `now` on, the events read so far are open as the stack says. */
  ghost predicate Agrees(stack: seq<Entry>, events: seq<Event>, now: int, duration: nat) {
    && (forall t :: now <= t < duration ==> ActiveAt(events, t) == PathAt(stack, t))
    && (forall i :: 0 <= i < |events| ==> events[i].start <= now && Open(stack, events[i], now))
  }

  ghost predicate Open(stack: seq<Entry>, e: Event, now: int) {
    e.end > now ==> exists i :: 0 <= i < |stack| && stack[i].end == e.end
  }

  /** Closing an event that ended by `start`. */
  lemma PopAgrees(stack: seq<Entry>, events: seq<Event>, now: int, start: int, duration: nat)
    requires stack != [] && now <= start && stack[|stack| - 1].end <= start && Agrees(stack, events, now, duration)
    ensures Agrees(stack[..|stack| - 1], events, start, duration)
  {
    var rest := stack[..|stack| - 1];
    forall i | 0 <= i < |events| ensures Open(rest, events[i], start) {
      assert Open(stack, events[i], now);
      if events[i].end > start {
        var j :| 0 <= j < |stack| && stack[j].end == events[i].end;
        assert rest[j].end == events[i].end;
      }
    }
  }

  lemma LaterAgrees(stack: seq<Entry>, events: seq<Event>, now: int, start: int, duration: nat)
    requires now <= start && Agrees(stack, events, now, duration)
    ensures Agrees(stack, events, start, duration)
  {
    forall i | 0 <= i < |events| ensures Open(stack, events[i], start) {
      assert Open(stack, events[i], now);
    }
  }

  /** Opening an event inside the innermost open one. */
  lemma PushAgrees(stack: seq<Entry>, events: seq<Event>, e: Event, duration: nat)
    requires Agrees(stack, events, e.start, duration) && 0 <= e.start < e.end <= duration
    requires stack != [] ==> e.end <= stack[|stack| - 1].end
    ensures Agrees(stack + [Entry(e.end, TopPath(stack) + [e.name])], events + [e], e.start, duration)
    ensures Pushes(Active(events, duration), Active(events + [e], duration), TopPath(stack), e.name, e.start, e.end)
  {
    var (more, all) := (stack + [Entry(e.end, TopPath(stack) + [e.name])], events + [e]);
    assert more[..|stack|] == stack && all[..|events|] == events;
    forall t | e.start <= t < e.end ensures PathAt(stack, t) == TopPath(stack) {
    }
    forall i | 0 <= i < |all| ensures all[i].start <= e.start && Open(more, all[i], e.start) {
      if i == |events| {
        assert more[|stack|].end == e.end;
      } else {
        assert Open(stack, events[i], e.start);
        if events[i].end > e.start {
          var j :| 0 <= j < |stack| && stack[j].end == events[i].end;
          assert more[j].end == events[i].end;
        }
      }
    }
  }

  /** No event outlasts one that was open when it started. */
  ghost predicate Laminar(events: seq<Event>) {
    forall i, j :: 0 <= i < j < |events| ==> Nests(events[i], events[j])
  }

  ghost predicate Nests(a: Event, b: Event) {
    a.start <= b.start && (b.start < a.end ==> b.end <= a.end)
  }

  lemma PushLaminar(stack: seq<Entry>, events: seq<Event>, e: Event, duration: nat)
    requires Laminar(events) && Agrees(stack, events, e.start, duration)
    requires forall i :: 0 <= i < |stack| ==> e.end <= stack[i].end
    ensures Laminar(events + [e])
  {
    forall i | 0 <= i < |events| ensures Nests(events[i], e) {
      assert Open(stack, events[i], e.start);
    }
  }

  /** The events that last, in order. */
  function Lasting(events: seq<Event>): (r: seq<Event>)
    ensures forall e :: e in r <==> e in events && e.start < e.end
  {
    if events == [] then
      []
    else
      var last := events[|events| - 1];
      Lasting(events[..|events| - 1]) + (if last.start < last.end then [last] else [])
  }

  /** An event cut short at the end of the one it is in, by no more than the tolerance. */
  ghost predicate Clips(e: Event, clipped: Event, tolerance: nat) {
    && clipped.start == e.start && clipped.name == e.name
    && clipped.start < clipped.end <= e.end <= clipped.end + tolerance
  }

  ghost predicate ClipsAll(events: seq<Event>, clipped: seq<Event>, tolerance: nat) {
    |clipped| == |Lasting(events)| && forall i :: 0 <= i < |clipped| ==> Clips(Lasting(events)[i], clipped[i], tolerance)
  }

  lemma ClipsNext(events: seq<Event>, clipped: seq<Event>, tolerance: nat, e: Event, cut: Event)
    requires ClipsAll(events, clipped, tolerance) && e.start < e.end && Clips(e, cut, tolerance)
    ensures ClipsAll(events + [e], clipped + [cut], tolerance)
  {
    assert (events + [e])[..|events|] == events;
  }

  /** Two events that overlap by more than the tolerance without nesting. */
  ghost predicate Cross(a: Event, b: Event, tolerance: nat) {
    a.start < b.start < a.end && b.end > a.end + tolerance
  }

  ghost predicate SomeCross(events: seq<Event>, tolerance: nat) {
    exists a, b :: a in events && b in events && Cross(a, b, tolerance)
  }

  /** Where an event is cut that starts at `start`: at the first end of an event it starts inside, if that is before its
      own. */
  function CutEnd(cuts: seq<Event>, start: int, end: int): (r: int)
    ensures r <= end
  {
    if cuts == [] then
      end
    else
      var (r, c) := (CutEnd(cuts[..|cuts| - 1], start, end), cuts[|cuts| - 1]);
      if start < c.end < r then c.end else r
  }

  /** It is the least of these ends. */
  lemma {:induction false} CutEndLeast(cuts: seq<Event>, start: int, end: int)
    ensures forall i :: 0 <= i < |cuts| && start < cuts[i].end ==> CutEnd(cuts, start, end) <= cuts[i].end
    ensures CutEnd(cuts, start, end) == end
      || exists i :: 0 <= i < |cuts| && start < cuts[i].end && cuts[i].end == CutEnd(cuts, start, end)
  {
    if cuts != [] {
      var front := cuts[..|cuts| - 1];
      CutEndLeast(front, start, end);
      assert forall i :: 0 <= i < |front| ==> cuts[i] == front[i];
    }
  }

  /** The events that last, each cut where those before it, cut themselves, end. */
  function Cuts(events: seq<Event>): seq<Event> {
    if events == [] then
      []
    else
      var (before, e) := (Cuts(events[..|events| - 1]), events[|events| - 1]);
      before + if e.start < e.end then [Event(e.start, CutEnd(before, e.start, e.end), e.name)] else []
  }

  lemma CutsNext(events: seq<Event>, e: Event)
    ensures Cuts(events + [e]) == Cuts(events)
      + if e.start < e.end then [Event(e.start, CutEnd(Cuts(events), e.start, e.end), e.name)] else []
  {
    assert (events + [e])[..|events|] == events;
  }

  /** The event would be cut by more than the tolerance. */
  predicate Overruns(cuts: seq<Event>, e: Event, tolerance: nat) {
    e.start < e.end && e.end > CutEnd(cuts, e.start, e.end) + tolerance
  }

  ghost predicate SomeOverruns(events: seq<Event>, tolerance: nat) {
    exists i :: 0 <= i < |events| && Overruns(Cuts(events[..i]), events[i], tolerance)
  }

  /** This entry ends where some of the events does. */
  ghost predicate EndsAt(clipped: seq<Event>, stack: seq<Entry>, i: nat, now: int) {
    i < |stack| && EndsWith(clipped, stack[i].end, now)
  }

  ghost predicate AllEnd(clipped: seq<Event>, stack: seq<Entry>, now: int) {
    forall i: nat :: i < |stack| ==> EndsAt(clipped, stack, i, now)
  }

  lemma AllEndLater(clipped: seq<Event>, stack: seq<Entry>, now: int, start: int)
    requires now <= start && AllEnd(clipped, stack, now)
    ensures AllEnd(clipped, stack, start)
  {
    forall i: nat | i < |stack| ensures EndsAt(clipped, stack, i, start) {
      assert EndsAt(clipped, stack, i, now);
    }
  }

  lemma AllEndPop(clipped: seq<Event>, stack: seq<Entry>, now: int)
    requires stack != [] && AllEnd(clipped, stack, now)
    ensures AllEnd(clipped, stack[..|stack| - 1], now)
  {
    var rest := stack[..|stack| - 1];
    forall i: nat | i < |rest| ensures EndsAt(clipped, rest, i, now) {
      assert EndsAt(clipped, stack, i, now);
    }
  }

  lemma AllEndMore(clipped: seq<Event>, stack: seq<Entry>, e: Event, now: int)
    requires AllEnd(clipped, stack, now)
    ensures AllEnd(clipped + [e], stack, now)
  {
    forall i: nat | i < |stack| ensures EndsAt(clipped + [e], stack, i, now) {
      assert EndsAt(clipped, stack, i, now);
      EndsKept(clipped, e, stack[i].end, now);
    }
  }

  lemma AllEndPush(clipped: seq<Event>, stack: seq<Entry>, entry: Entry, now: int)
    requires AllEnd(clipped, stack, now) && EndsWith(clipped, entry.end, now)
    ensures AllEnd(clipped, stack + [entry], now)
  {
    var more := stack + [entry];
    forall i: nat | i < |more| ensures EndsAt(clipped, more, i, now) {
      if i < |stack| {
        assert EndsAt(clipped, stack, i, now);
      }
    }
  }

  /** The innermost open event is the one that cuts. */
  lemma CutEndIs(stack: seq<Entry>, clipped: seq<Event>, duration: nat, e: Event, cut: Event)
    requires Agrees(stack, clipped, e.start, duration) && e.start < cut.end <= e.end && CutsAt(stack, e, cut)
    requires forall i, j :: 0 <= i < j < |stack| ==> stack[j].end <= stack[i].end
    requires AllEnd(clipped, stack, e.start)
    ensures CutEnd(clipped, e.start, e.end) == cut.end
  {
    var r := CutEnd(clipped, e.start, e.end);
    CutEndLeast(clipped, e.start, e.end);
    if r != e.end {
      var i :| 0 <= i < |clipped| && e.start < clipped[i].end && clipped[i].end == r;
      assert Open(stack, clipped[i], e.start);
      var j :| 0 <= j < |stack| && stack[j].end == r;
      assert stack[|stack| - 1].end <= stack[j].end;
    }
    if cut.end != e.end {
      assert EndsAt(clipped, stack, |stack| - 1, e.start);
      var c :| c in clipped && c.end == cut.end;
      var i :| 0 <= i < |clipped| && clipped[i] == c;
    }
  }

  /** Some event read by now ends when this entry does. */
  ghost predicate EndsWith(events: seq<Event>, end: int, now: int) {
    exists a :: a in events && a.end == end && a.start <= now
  }

  const BY_NESTING: Event -> SortKey := (e: Event) => (e.start, -e.end)

  /** The open events agree with the events read so far. */
  ghost predicate OpenOk(read: seq<Event>, stack: seq<Entry>, clipped: seq<Event>, now: int, duration: nat, tolerance: nat) {
    && Agrees(stack, clipped, now, duration) && Laminar(clipped) && ClipsAll(read, clipped, tolerance)
    && AllEnd(read, stack, now) && CutOk(read, stack, clipped, now)
  }

  /** The events were cut as they are to be, and the open ones end where some of them do. */
  ghost predicate CutOk(read: seq<Event>, stack: seq<Entry>, clipped: seq<Event>, now: int) {
    clipped == Cuts(read) && AllEnd(clipped, stack, now)
  }

  lemma CutPush(read: seq<Event>, stack: seq<Entry>, clipped: seq<Event>, duration: nat, e: Event, cut: Event, path: Path)
    requires CutOk(read, stack, clipped, e.start) && Agrees(stack, clipped, e.start, duration)
    requires forall i, j :: 0 <= i < j < |stack| ==> stack[j].end <= stack[i].end
    requires cut.start == e.start < cut.end <= e.end && cut.name == e.name && CutsAt(stack, e, cut)
    ensures CutOk(read + [e], stack + [Entry(cut.end, path)], clipped + [cut], e.start)
  {
    CutEndIs(stack, clipped, duration, e, cut);
    CutsNext(read, e);
    AllEndMore(clipped, stack, cut, e.start);
    assert cut in clipped + [cut];
    AllEndPush(clipped + [cut], stack, Entry(cut.end, path), e.start);
  }

  lemma OpenPop(read: seq<Event>, stack: seq<Entry>, clipped: seq<Event>, start: int, duration: nat, tolerance: nat)
    requires OpenOk(read, stack, clipped, start, duration, tolerance)
    requires stack != [] && stack[|stack| - 1].end <= start
    ensures OpenOk(read, stack[..|stack| - 1], clipped, start, duration, tolerance)
  {
    PopAgrees(stack, clipped, start, start, duration);
    AllEndPop(read, stack, start);
    AllEndPop(clipped, stack, start);
  }

  lemma OpenLater(read: seq<Event>, stack: seq<Entry>, clipped: seq<Event>, now: int, start: int, duration: nat, tolerance: nat)
    requires OpenOk(read, stack, clipped, now, duration, tolerance) && now <= start
    ensures OpenOk(read, stack, clipped, start, duration, tolerance)
  {
    LaterAgrees(stack, clipped, now, start, duration);
    AllEndLater(read, stack, now, start);
    AllEndLater(clipped, stack, now, start);
  }

  /** Reading an event that does not last changes nothing. */
  lemma OpenSkip(read: seq<Event>, stack: seq<Entry>, clipped: seq<Event>, now: int, duration: nat, tolerance: nat, e: Event)
    requires OpenOk(read, stack, clipped, now, duration, tolerance) && e.end <= e.start
    ensures OpenOk(read + [e], stack, clipped, now, duration, tolerance)
  {
    assert (read + [e])[..|read|] == read;
    CutsNext(read, e);
    AllEndMore(read, stack, e, now);
  }

  lemma EndsKept(read: seq<Event>, e: Event, end: int, now: int)
    requires EndsWith(read, end, now)
    ensures EndsWith(read + [e], end, now)
  {
    var a :| a in read && a.end == end && a.start <= now;
    assert a in read + [e];
  }

  /** An event is cut at its own end, or at the end of the innermost open one. */
  ghost predicate CutsAt(stack: seq<Entry>, e: Event, cut: Event) {
    if stack == [] then
      cut.end == e.end
    else
      cut.end <= stack[|stack| - 1].end && (cut.end == e.end || cut.end == stack[|stack| - 1].end)
  }

  lemma OpenPush(read: seq<Event>, stack: seq<Entry>, clipped: seq<Event>, duration: nat, tolerance: nat, e: Event, cut: Event)
    requires OpenOk(read, stack, clipped, e.start, duration, tolerance)
    requires forall i, j :: 0 <= i < j < |stack| ==> stack[j].end <= stack[i].end
    requires 0 <= e.start && Clips(e, cut, tolerance) && cut.end <= duration && CutsAt(stack, e, cut)
    ensures OpenOk(read + [e], stack + [Entry(cut.end, TopPath(stack) + [e.name])], clipped + [cut], e.start, duration, tolerance)
    ensures Pushes(Active(clipped, duration), Active(clipped + [cut], duration), TopPath(stack), e.name, e.start, cut.end)
  {
    PushAgrees(stack, clipped, cut, duration);
    PushLaminar(stack, clipped, cut, duration);
    ClipsNext(read, clipped, tolerance, e, cut);
    AllEndMore(read, stack, e, e.start);
    CutEnds(read, stack, e, cut);
    AllEndPush(read + [e], stack, Entry(cut.end, TopPath(stack) + [e.name]), e.start);
    CutPush(read, stack, clipped, duration, e, cut, TopPath(stack) + [e.name]);
  }

  lemma CutEnds(read: seq<Event>, stack: seq<Entry>, e: Event, cut: Event)
    requires CutsAt(stack, e, cut) && AllEnd(read + [e], stack, e.start)
    ensures EndsWith(read + [e], cut.end, e.start)
  {
    if cut.end == e.end {
      assert e in read + [e];
    } else {
      assert EndsAt(read + [e], stack, |stack| - 1, e.start);
    }
  }

  lemma StackPush(stack: seq<Entry>, nodes: set<Path>, grown: set<Path>, duration: nat, entry: Entry)
    requires StackOk(stack, nodes, duration) && nodes <= grown && entry.path in grown && entry.end <= duration
    requires stack != [] ==> entry.end <= stack[|stack| - 1].end
    ensures StackOk(stack + [entry], grown, duration)
  {
  }

  /** Events sorted as the source sorts them: by start, and of those that start together the longest first. */
  ghost predicate SortedByNesting(events: seq<Event>) {
    forall i, j :: 0 <= i < j < |events| ==> KeyLe(BY_NESTING(events[i]), BY_NESTING(events[j]))
  }

  /** The event outlasts one read before it that it starts inside. */
  ghost predicate Outlasts(read: seq<Event>, e: Event, tolerance: nat) {
    exists a :: a in read && a.start <= e.start < a.end && e.end > a.end + tolerance
  }

  /** An event that outlasts an open one that started no later crosses it. */
  lemma CrossFound(events: seq<Event>, i: nat, tolerance: nat)
    requires SortedByNesting(events) && i < |events| && Outlasts(events[..i], events[i], tolerance)
    ensures SomeCross(events, tolerance)
  {
    var a :| a in events[..i] && a.start <= events[i].start < a.end && events[i].end > a.end + tolerance;
    var j :| 0 <= j < i && events[j] == a;
    assert KeyLe(BY_NESTING(events[j]), BY_NESTING(events[i]));
    assert a in events && events[i] in events && Cross(a, events[i], tolerance);
  }

  /** Without tolerance nothing is cut, and then nothing crosses. */
  lemma NoCross(events: seq<Event>, clipped: seq<Event>)
    requires SortedByNesting(events) && ClipsAll(events, clipped, 0) && Laminar(clipped)
    ensures !SomeCross(events, 0)
  {
    var lasting := Lasting(events);
    forall i | 0 <= i < |lasting| ensures clipped[i] == lasting[i] {
      assert Clips(lasting[i], clipped[i], 0);
    }
    assert lasting == clipped;
    forall a, b | a in events && b in events ensures !Cross(a, b, 0) {
      if a.start < a.end && b.start < b.end {
        assert a in lasting && b in lasting;
        var i :| 0 <= i < |lasting| && lasting[i] == a;
        var j :| 0 <= j < |lasting| && lasting[j] == b;
        LaminarNoCross(lasting, i, j);
      }
    }
  }

  lemma LaminarNoCross(events: seq<Event>, i: nat, j: nat)
    requires Laminar(events) && i < |events| && j < |events|
    ensures !Cross(events[i], events[j], 0)
  {
    if i < j {
      assert Nests(events[i], events[j]);
    } else if j < i {
      assert Nests(events[j], events[i]);
    }
  }
}
