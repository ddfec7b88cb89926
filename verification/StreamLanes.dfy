/** Lanes for the overlapping GPU events of a profile, stream by stream (`_kernel_lanes`). */
module StreamLanes {
  import opened Common
  import opened KernelLanes
  import opened Sorting

  datatype Stream = Stream(pid: int, tid: int)

  /** A profile event: one of the GPU on its stream, or any other. */
  datatype ProfileEvent = OnGpu(stream: Stream, slice: Slice) | Elsewhere

  /** A lane that was added to a stream, and is named after it. */
  type Added = (Stream, nat)

  predicate IsOn(e: ProfileEvent, s: Stream) {
    e.OnGpu? && e.stream == s
  }

  /** `by_stream[s]`: where the stream's events are, in order. */
  function Places(events: seq<ProfileEvent>, s: Stream): (r: seq<nat>)
    ensures forall k :: 0 <= k < |r| ==> r[k] < |events| && IsOn(events[r[k]], s)
    ensures forall j, k :: 0 <= j < k < |r| ==> r[j] < r[k]
    ensures forall i :: 0 <= i < |events| && IsOn(events[i], s) ==> i in r
  {
    if events == [] then
      []
    else
      var n := |events| - 1;
      Places(events[..n], s) + if IsOn(events[n], s) then [n] else []
  }

  function SlicesAt(events: seq<ProfileEvent>, at: seq<nat>): (r: seq<Slice>)
    requires forall k :: 0 <= k < |at| ==> at[k] < |events| && events[at[k]].OnGpu?
    ensures |r| == |at| && forall k :: 0 <= k < |r| ==> r[k] == events[at[k]].slice
  {
    seq(|at|, k requires 0 <= k < |at| => events[at[k]].slice)
  }

  function SlicesOn(events: seq<ProfileEvent>, s: Stream): seq<Slice> {
    SlicesAt(events, Places(events, s))
  }

  /** The keys of `by_stream`, in order of first appearance. */
  method StreamsOf(events: seq<ProfileEvent>) returns (streams: seq<Stream>)
    ensures Distinct(streams)
    ensures forall i :: 0 <= i < |events| && events[i].OnGpu? ==> events[i].stream in streams
    ensures forall s :: s in streams ==> Places(events, s) != []
  {
    streams := [];
    for i := 0 to |events|
      invariant Distinct(streams)
      invariant forall j :: 0 <= j < i && events[j].OnGpu? ==> events[j].stream in streams
      invariant forall s :: s in streams ==> exists j :: 0 <= j < i && IsOn(events[j], s)
    {
      if events[i].OnGpu? && events[i].stream !in streams {
        streams := streams + [events[i].stream];
      }
    }
    forall s | s in streams ensures Places(events, s) != [] {
      var j :| 0 <= j < |events| && IsOn(events[j], s);
      assert j in Places(events, s);
    }
  }

  /** Write some lanes to their places. */
  method Scatter(lane: seq<nat>, at: seq<nat>, own: seq<nat>) returns (more: seq<nat>)
    requires |own| == |at| && (forall k :: 0 <= k < |at| ==> at[k] < |lane|) && Distinct(at)
    ensures |more| == |lane| && forall k :: 0 <= k < |at| ==> more[at[k]] == own[k]
    ensures forall i :: 0 <= i < |lane| && i !in at ==> more[i] == lane[i]
  {
    more := lane;
    for k := 0 to |at|
      invariant |more| == |lane| && forall j :: 0 <= j < k ==> more[at[j]] == own[j]
      invariant forall i :: 0 <= i < |lane| && i !in at ==> more[i] == lane[i]
    {
      more := more[at[k] := own[k]];
    }
  }

  /** The lanes beside the first, one name each. */
  function NamesOf(s: Stream, lanes: nat): (r: seq<Added>)
    ensures Distinct(r) && forall a :: a in r <==> a.0 == s && 0 < a.1 < lanes
  {
    if lanes <= 1 then [] else NamesOf(s, lanes - 1) + [(s, lanes - 1)]
  }

  /** The stream's events that overlap are in different lanes; when they all last, an event in a lane says that as many
      and one more are active at once somewhere; and each lane beside the first is named if there is an event in it. */
  ghost predicate StreamDone(events: seq<ProfileEvent>, lane: seq<nat>, names: seq<Added>, s: Stream)
    requires |lane| == |events|
  {
    && (forall i, j :: 0 <= i < j < |events| && IsOn(events[i], s) && IsOn(events[j], s) && lane[i] == lane[j] ==>
          Apart(events[i].slice, events[j].slice))
    && (AllPositive(SlicesOn(events, s)) ==> forall i :: 0 <= i < |events| && IsOn(events[i], s) ==>
          Crowded(SlicesOn(events, s), lane[i]))
    && forall l: nat :: (s, l) in names <==> l > 0 && Taken(events, lane, s, l)
  }

  ghost predicate Crowded(items: seq<Slice>, l: nat) {
    exists t :: |Active(items, t)| > l
  }

  ghost predicate Taken(events: seq<ProfileEvent>, lane: seq<nat>, s: Stream, l: nat)
    requires |lane| == |events|
  {
    exists i :: 0 <= i < |events| && IsOn(events[i], s) && lane[i] == l
  }

  ghost function PlaceOf(events: seq<ProfileEvent>, s: Stream, i: nat): (k: nat)
    requires i < |events| && IsOn(events[i], s)
    ensures k < |Places(events, s)| && Places(events, s)[k] == i
  {
    assert i in Places(events, s);
    var k: nat :| k < |Places(events, s)| && Places(events, s)[k] == i;
    k
  }

  /** The lanes of one stream are in their places. */
  ghost predicate Written(events: seq<ProfileEvent>, lane: seq<nat>, s: Stream, own: seq<nat>) {
    && |lane| == |events| && |own| == |Places(events, s)|
    && forall k :: 0 <= k < |own| ==> lane[Places(events, s)[k]] == own[k]
  }

  lemma WrittenApart(events: seq<ProfileEvent>, lane: seq<nat>, s: Stream, own: seq<nat>, i: nat, j: nat)
    requires Written(events, lane, s, own) && LanesApart(SlicesOn(events, s), own)
    requires i < j < |events| && IsOn(events[i], s) && IsOn(events[j], s) && lane[i] == lane[j]
    ensures Apart(events[i].slice, events[j].slice)
  {
    var (a, b) := (PlaceOf(events, s, i), PlaceOf(events, s, j));
    assert own[a] == own[b] && a < b;
  }

  lemma WrittenCrowded(events: seq<ProfileEvent>, lane: seq<nat>, s: Stream, own: seq<nat>, lanes: nat, i: nat)
    requires Written(events, lane, s, own) && Fewest(SlicesOn(events, s), lanes)
    requires (forall k :: 0 <= k < |own| ==> own[k] < lanes) && i < |events| && IsOn(events[i], s)
    ensures Crowded(SlicesOn(events, s), lane[i])
  {
    var k := PlaceOf(events, s, i);
    var t :| |Active(SlicesOn(events, s), t)| == lanes;
    assert own[k] < lanes;
  }

  lemma WrittenTaken(events: seq<ProfileEvent>, lane: seq<nat>, s: Stream, own: seq<nat>, lanes: nat, l: nat)
    requires Written(events, lane, s, own) && AllUsed(own, lanes) && forall k :: 0 <= k < |own| ==> own[k] < lanes
    ensures Taken(events, lane, s, l) <==> l < lanes
  {
    if l < lanes {
      assert l in own;
      var k :| 0 <= k < |own| && own[k] == l;
      assert IsOn(events[Places(events, s)[k]], s) && lane[Places(events, s)[k]] == l;
    }
    if i :| 0 <= i < |events| && IsOn(events[i], s) && lane[i] == l {
      var k := PlaceOf(events, s, i);
    }
  }

  lemma StreamPlaced(events: seq<ProfileEvent>, lane: seq<nat>, s: Stream, own: seq<nat>, lanes: nat)
    requires Written(events, lane, s, own) && AllUsed(own, lanes) && forall k :: 0 <= k < |own| ==> own[k] < lanes
    requires LanesApart(SlicesOn(events, s), own)
    requires AllPositive(SlicesOn(events, s)) ==> Fewest(SlicesOn(events, s), lanes)
    ensures StreamDone(events, lane, NamesOf(s, lanes), s)
  {
    forall i, j | 0 <= i < j < |events| && IsOn(events[i], s) && IsOn(events[j], s) && lane[i] == lane[j]
      ensures Apart(events[i].slice, events[j].slice)
    {
      WrittenApart(events, lane, s, own, i, j);
    }
    if AllPositive(SlicesOn(events, s)) {
      forall i | 0 <= i < |events| && IsOn(events[i], s) ensures Crowded(SlicesOn(events, s), lane[i]) {
        WrittenCrowded(events, lane, s, own, lanes, i);
      }
    }
    forall l: nat ensures (s, l) in NamesOf(s, lanes) <==> l > 0 && Taken(events, lane, s, l) {
      WrittenTaken(events, lane, s, own, lanes, l);
    }
  }

  /** Another stream's lanes and names change nothing for this one. */
  lemma StreamKept(events: seq<ProfileEvent>, lane: seq<nat>, more: seq<nat>, names: seq<Added>, added: seq<Added>, s: Stream)
    requires |lane| == |more| == |events| && StreamDone(events, lane, names, s)
    requires forall i :: 0 <= i < |events| && IsOn(events[i], s) ==> more[i] == lane[i]
    requires forall a :: a in added ==> a.0 != s
    ensures StreamDone(events, more, names + added, s)
  {
    forall l: nat ensures (s, l) in names + added <==> l > 0 && Taken(events, more, s, l) {
      assert Taken(events, lane, s, l) <==> Taken(events, more, s, l);
    }
  }

  /** A stream's own names are the only ones of it. */
  lemma StreamNamed(events: seq<ProfileEvent>, lane: seq<nat>, names: seq<Added>, added: seq<Added>, s: Stream)
    requires |lane| == |events| && StreamDone(events, lane, added, s) && forall a :: a in names ==> a.0 != s
    ensures StreamDone(events, lane, names + added, s)
  {
  }

  /** Give the events of one stream their lanes. */
  method LaneStream(events: seq<ProfileEvent>, lane: seq<nat>, names: seq<Added>, s: Stream)
    returns (more: seq<nat>, named: seq<Added>)
    requires |lane| == |events| && Distinct(names) && forall a :: a in names ==> a.0 != s
    ensures |more| == |events| && Distinct(named) && StreamDone(events, more, named, s)
    ensures forall i :: 0 <= i < |events| && !IsOn(events[i], s) ==> more[i] == lane[i]
    ensures names <= named && forall a :: a in named[|names|..] ==> a.0 == s
  {
    var at := Places(events, s);
    var own, lanes := AssignLanes(SlicesAt(events, at));
    more := Scatter(lane, at, own);
    StreamPlaced(events, more, s, own, lanes);
    StreamNamed(events, more, names, NamesOf(s, lanes), s);
    named := names + NamesOf(s, lanes);
  }

  /** `_kernel_lanes`: the GPU events of one stream that overlap get different lanes, with no more of them than are active
      at once when the events last; the other events stay where they are; and every added lane is named once. */
  method AddLanes(events: seq<ProfileEvent>) returns (lane: seq<nat>, names: seq<Added>)
    ensures |lane| == |events| && forall i :: 0 <= i < |events| && events[i].Elsewhere? ==> lane[i] == 0
    ensures Distinct(names) && forall s :: StreamDone(events, lane, names, s)
  {
    var streams := StreamsOf(events);
    lane, names := Copies(|events|, 0), [];
    for k := 0 to |streams|
      invariant |lane| == |events| && Distinct(names)
      invariant forall i :: 0 <= i < |events| && events[i].Elsewhere? ==> lane[i] == 0
      invariant forall a :: a in names ==> a.0 in streams[..k]
      invariant forall j :: 0 <= j < k ==> StreamDone(events, lane, names, streams[j])
    {
      ghost var (before, named) := (lane, names);
      lane, names := LaneStream(events, lane, names, streams[k]);
      forall j | 0 <= j < k ensures StreamDone(events, lane, names, streams[j]) {
        StreamKept(events, before, lane, named, names[|named|..], streams[j]);
        assert names == named + names[|named|..];
      }
    }
    forall s ensures StreamDone(events, lane, names, s) {
      if s in streams {
        var j :| 0 <= j < |streams| && streams[j] == s;
      }
    }
  }
}
