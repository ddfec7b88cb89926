/** Causal convolution over packed sequences, with carried history (`causal_conv_reference`,
    `_conv_tails`). */
module CausalConv {
  import opened Common
  import opened Packing

  /** One row: a value per channel. */
  type Row = seq<real>

  /** The taps of each channel, the last for the current row; `finish` adds the bias and activates. */
  datatype Filter = Filter(channels: nat, width: nat, weight: seq<seq<real>>, finish: (nat, real) -> real) {
    ghost predicate Valid() {
      width >= 1 && |weight| == channels && forall c :: 0 <= c < channels ==> |weight[c]| == width
    }

    ghost predicate Wide(rows: seq<Row>) {
      forall r :: 0 <= r < |rows| ==> |rows[r]| == channels
    }

    /** The last n of a window's taps for one channel. */
    function Taps(window: seq<Row>, c: nat, n: nat): real
      requires Valid() && |window| == width && Wide(window) && c < channels && n <= width
    {
      if n == 0 then 0.0 else Taps(window, c, n - 1) + window[width - n][c] * weight[c][width - n]
    }

    /** The products of a window's first n rows with the first n weights. */
    ghost function Weighted(window: seq<Row>, c: nat, n: nat): real
      requires Valid() && |window| == width && Wide(window) && c < channels && n <= width
    {
      if n == 0 then 0.0 else Weighted(window, c, n - 1) + window[n - 1][c] * weight[c][n - 1]
    }

    /** Weight j belongs to row j of the window, the oldest row being the first. */
    lemma TapsWeighted(window: seq<Row>, c: nat)
      requires Valid() && |window| == width && Wide(window) && c < channels
      ensures Taps(window, c, width) == Weighted(window, c, width)
    {
      TapsAndRest(window, c, width);
    }

    lemma {:induction false} TapsAndRest(window: seq<Row>, c: nat, n: nat)
      requires Valid() && |window| == width && Wide(window) && c < channels && n <= width
      ensures Taps(window, c, n) + Weighted(window, c, width - n) == Weighted(window, c, width)
    {
      if n > 0 {
        TapsAndRest(window, c, n - 1);
      }
    }

    /** The output for the row a window ends with. */
    function Output(window: seq<Row>): (r: Row)
      requires Valid() && |window| == width && Wide(window)
      ensures |r| == channels
    {
      seq(channels, c requires 0 <= c < channels => finish(c, Taps(window, c, width)))
    }

    /** The output of one sequence after some history. */
    function Conv(history: seq<Row>, rows: seq<Row>): (r: seq<Row>)
      requires Valid() && |history| == width - 1 && Wide(history) && Wide(rows)
      ensures |r| == |rows|
      ensures forall t :: 0 <= t < |rows| ==> r[t] == Output(WindowAt(history, rows, t))
    {
      seq(|rows|, t requires 0 <= t < |rows| => Output(WindowAt(history, rows, t)))
    }

    /** The rows that output t reads: it and the ones before it, the oldest first. */
    function WindowAt(history: seq<Row>, rows: seq<Row>, t: nat): (r: seq<Row>)
      requires width >= 1 && |history| == width - 1 && Wide(history) && Wide(rows) && t < |rows|
      ensures |r| == width && Wide(r)
    {
      (history + rows)[t..t + width]
    }

    /** The last rows of a sequence and its history: what the next row would read. */
    function Tails(history: seq<Row>, rows: seq<Row>): (r: seq<Row>)
      requires width >= 1 && |history| == width - 1 && Wide(history) && Wide(rows)
      ensures |r| == width - 1 && Wide(r)
    {
      (history + rows)[|rows|..]
    }

    lemma WindowBefore(history: seq<Row>, a: seq<Row>, b: seq<Row>, t: nat)
      requires width >= 1 && |history| == width - 1 && Wide(history) && Wide(a) && Wide(b) && t < |a|
      ensures WindowAt(history, a + b, t) == WindowAt(history, a, t)
    {
      assert history + (a + b) == (history + a) + b;
    }

    lemma WindowAfter(history: seq<Row>, a: seq<Row>, b: seq<Row>, t: nat)
      requires width >= 1 && |history| == width - 1 && Wide(history) && Wide(a) && Wide(b) && t < |b|
      ensures WindowAt(history, a + b, |a| + t) == WindowAt(Tails(history, a), b, t)
    {
      var (all, later) := (history + (a + b), Tails(history, a) + b);
      assert later == all[|a|..];
      SliceDrop(all, |a|, t, t + width);
    }

    lemma TailsSplit(history: seq<Row>, a: seq<Row>, b: seq<Row>)
      requires width >= 1 && |history| == width - 1 && Wide(history) && Wide(a) && Wide(b)
      ensures Tails(history, a + b) == Tails(Tails(history, a), b)
    {
      assert Tails(history, a) + b == (history + (a + b))[|a|..];
    }

    /** Feeding a sequence in two parts, the first part's tails being the second's history, gives the
        same outputs and tails as one pass. */
    lemma ConvSplits(history: seq<Row>, a: seq<Row>, b: seq<Row>)
      requires Valid() && |history| == width - 1 && Wide(history) && Wide(a) && Wide(b)
      ensures Conv(history, a + b) == Conv(history, a) + Conv(Tails(history, a), b)
      ensures Tails(history, a + b) == Tails(Tails(history, a), b)
    {
      TailsSplit(history, a, b);
      var (all, parts) := (Conv(history, a + b), Conv(history, a) + Conv(Tails(history, a), b));
      forall t | 0 <= t < |a| + |b| ensures all[t] == parts[t] {
        if t < |a| {
          WindowBefore(history, a, b, t);
        } else {
          WindowAfter(history, a, b, t - |a|);
        }
      }
    }

    /** The same, whatever the number of parts. */
    lemma {:induction false} ConvChunks(history: seq<Row>, chunks: seq<seq<Row>>)
      requires Valid() && |history| == width - 1 && Wide(history) && forall k :: 0 <= k < |chunks| ==> Wide(chunks[k])
      ensures Wide(Concat(chunks))
      ensures Conv(history, Concat(chunks)) == InParts(history, chunks)
      decreases |chunks|
    {
      WideConcat(chunks);
      if chunks != [] {
        WideConcat(chunks[1..]);
        ConvSplits(history, chunks[0], Concat(chunks[1..]));
        ConvChunks(Tails(history, chunks[0]), chunks[1..]);
      }
    }

    /** The outputs of a sequence fed chunk by chunk. */
    function InParts(history: seq<Row>, chunks: seq<seq<Row>>): seq<Row>
      requires Valid() && |history| == width - 1 && Wide(history) && forall k :: 0 <= k < |chunks| ==> Wide(chunks[k])
      decreases |chunks|
    {
      if chunks == [] then [] else Conv(history, chunks[0]) + InParts(Tails(history, chunks[0]), chunks[1..])
    }

    lemma {:induction false} WideConcat(chunks: seq<seq<Row>>)
      requires forall k :: 0 <= k < |chunks| ==> Wide(chunks[k])
      ensures Wide(Concat(chunks))
    {
      if chunks != [] {
        WideConcat(chunks[1..]);
      }
    }
  }

  /** The rows before each sequence: given, or zeros. */
  datatype Histories = Zeros | Given(rows: seq<seq<Row>>)

  function ZeroRows(count: nat, channels: nat): (r: seq<Row>)
    ensures |r| == count && forall i :: 0 <= i < count ==> r[i] == ZeroRow(channels)
  {
    seq(count, _ => ZeroRow(channels))
  }

  function ZeroRow(channels: nat): (r: Row)
    ensures |r| == channels && forall c :: 0 <= c < channels ==> r[c] == 0.0
  {
    seq(channels, _ => 0.0)
  }

  ghost predicate Fits(f: Filter, histories: Histories, count: nat) {
    histories.Given? ==>
      |histories.rows| == count
      && forall q :: 0 <= q < count ==> |histories.rows[q]| == f.width - 1 && f.Wide(histories.rows[q])
  }

  function HistoryOf(f: Filter, histories: Histories, count: nat, q: nat): (r: seq<Row>)
    requires f.width >= 1 && Fits(f, histories, count) && q < count
    ensures |r| == f.width - 1 && f.Wide(r)
  {
    if histories.Zeros? then ZeroRows(f.width - 1, f.channels) else histories.rows[q]
  }

  lemma WindowRow(f: Filter, history: seq<Row>, rows: seq<Row>, t: nat, back: nat)
    requires f.Valid() && |history| == f.width - 1 && f.Wide(history) && f.Wide(rows) && t < |rows| && back < f.width
    ensures f.WindowAt(history, rows, t)[f.width - 1 - back]
      == if t >= back then rows[t - back] else history[f.width - 1 - back + t]
  {
  }

  /** What is read `back` rows before a row: a row of its sequence, or of the sequence's history. */
  method Column(f: Filter, x: seq<Row>, histories: Histories, ghost lengths: seq<nat>, sequence: seq<nat>,
                offset: seq<nat>, back: nat, r: nat)
    returns (column: Row)
    requires f.Valid() && f.Wide(x) && Located(lengths, sequence, offset) && |x| == |sequence| == Sum(lengths)
    requires Fits(f, histories, |lengths|) && back < f.width && r < |x|
    ensures f.Wide(Part(x, lengths, sequence[r]))
    ensures column == f.WindowAt(HistoryOf(f, histories, |lengths|, sequence[r]), Part(x, lengths, sequence[r]),
                                 offset[r])[f.width - 1 - back]
  {
    StartNext(lengths, sequence[r]);
    StartWithin(lengths, sequence[r] + 1);
    WidePart(f, x, lengths, sequence[r]);
    WindowRow(f, HistoryOf(f, histories, |lengths|, sequence[r]), Part(x, lengths, sequence[r]), offset[r], back);
    if offset[r] >= back {
      PartAt(x, lengths, sequence[r], offset[r] - back);
      return x[r - back];
    }
    if histories.Zeros? {
      return ZeroRow(f.channels);
    }
    column := histories.rows[sequence[r]][f.width - 1 - back + offset[r]];
  }

  /** The window of a packed row. */
  ghost function Window(f: Filter, x: seq<Row>, histories: Histories, lengths: seq<nat>, sequence: seq<nat>,
                        offset: seq<nat>, r: nat): (w: seq<Row>)
    requires f.Valid() && f.Wide(x) && Located(lengths, sequence, offset) && |x| == |sequence| == Sum(lengths)
    requires Fits(f, histories, |lengths|) && r < |x|
    ensures |w| == f.width && f.Wide(w)
  {
    WidePart(f, x, lengths, sequence[r]);
    f.WindowAt(HistoryOf(f, histories, |lengths|, sequence[r]), Part(x, lengths, sequence[r]), offset[r])
  }

  lemma WidePart(f: Filter, x: seq<Row>, lengths: seq<nat>, q: nat)
    requires f.Wide(x) && |x| == Sum(lengths) && q < |lengths|
    ensures f.Wide(Part(x, lengths, q))
  {
    StartNext(lengths, q);
    StartWithin(lengths, q + 1);
  }

  /** Add one tap to a row's sums. */
  method AddTap(f: Filter, sums: Row, column: Row, back: nat, ghost window: seq<Row>) returns (more: Row)
    requires f.Valid() && back < f.width && |window| == f.width && f.Wide(window)
    requires Holds(f, window, sums, back) && column == window[f.width - 1 - back]
    ensures Holds(f, window, more, back + 1)
  {
    more := [];
    for c := 0 to f.channels
      invariant |more| == c && forall d :: 0 <= d < c ==> more[d] == f.Taps(window, d, back + 1)
    {
      more := more + [sums[c] + column[c] * f.weight[c][f.width - 1 - back]];
    }
  }

  /** The sums of a row hold the last n taps of its window. */
  ghost predicate Holds(f: Filter, window: seq<Row>, sums: Row, n: nat)
    requires f.Valid() && |window| == f.width && f.Wide(window) && n <= f.width
  {
    |sums| == f.channels && forall c :: 0 <= c < f.channels ==> sums[c] == f.Taps(window, c, n)
  }

  /** The windows of all rows. */
  ghost predicate Windowed(f: Filter, windows: seq<seq<Row>>) {
    forall r :: 0 <= r < |windows| ==> |windows[r]| == f.width && f.Wide(windows[r])
  }

  ghost function Windows(f: Filter, x: seq<Row>, histories: Histories, lengths: seq<nat>, sequence: seq<nat>,
                         offset: seq<nat>): (w: seq<seq<Row>>)
    requires f.Valid() && f.Wide(x) && Located(lengths, sequence, offset) && |x| == |sequence| == Sum(lengths)
    requires Fits(f, histories, |lengths|)
    ensures |w| == |x| && Windowed(f, w)
    ensures forall r :: 0 <= r < |x| ==> w[r] == Window(f, x, histories, lengths, sequence, offset, r)
  {
    seq(|x|, r requires 0 <= r < |x| => Window(f, x, histories, lengths, sequence, offset, r))
  }

  /** Every row's sums hold its last n taps. */
  ghost predicate Summed(f: Filter, windows: seq<seq<Row>>, sums: seq<Row>, n: nat)
    requires f.Valid() && Windowed(f, windows) && |sums| <= |windows| && n <= f.width
  {
    forall r :: 0 <= r < |sums| ==> Holds(f, windows[r], sums[r], n)
  }

  /** The outputs of a row's sums. */
  function Finished(f: Filter, sums: Row): (r: Row)
    requires |sums| == f.channels
    ensures |r| == f.channels
  {
    seq(f.channels, c requires 0 <= c < f.channels => f.finish(c, sums[c]))
  }

  /** Add the taps `back` rows before every row. */
  method AddTaps(f: Filter, x: seq<Row>, histories: Histories, ghost lengths: seq<nat>, sequence: seq<nat>,
                 offset: seq<nat>, sums: seq<Row>, back: nat, ghost windows: seq<seq<Row>>)
    returns (more: seq<Row>)
    requires f.Valid() && f.Wide(x) && Located(lengths, sequence, offset) && |x| == |sequence| == Sum(lengths)
    requires Fits(f, histories, |lengths|) && windows == Windows(f, x, histories, lengths, sequence, offset)
    requires back < f.width && |sums| == |x| && Summed(f, windows, sums, back)
    ensures |more| == |x| && Summed(f, windows, more, back + 1)
  {
    more := [];
    for r := 0 to |x|
      invariant |more| == r && Summed(f, windows, more, back + 1)
    {
      assert Holds(f, windows[r], sums[r], back);
      var column := Column(f, x, histories, lengths, sequence, offset, back, r);
      var row := AddTap(f, sums[r], column, back, windows[r]);
      more := more + [row];
    }
  }

  /** There are tails to take, and no row to index: the source raises. */
  predicate Rowless(f: Filter, x: seq<Row>, lengths: seq<nat>) {
    x == [] && lengths != [] && f.width > 1
  }

  lemma TailAt(f: Filter, history: seq<Row>, rows: seq<Row>, j: nat)
    requires f.width >= 1 && |history| == f.width - 1 && f.Wide(history) && f.Wide(rows) && j < f.width - 1
    ensures f.Tails(history, rows)[j]
      == if |rows| + j >= f.width - 1 then rows[|rows| + j - (f.width - 1)] else history[|rows| + j]
  {
  }

  /** The tails of one sequence. */
  method TailRows(f: Filter, x: seq<Row>, lengths: seq<nat>, histories: Histories, q: nat, start: nat)
    returns (rows: seq<Row>)
    requires f.Valid() && f.Wide(x) && |x| == Sum(lengths) && Fits(f, histories, |lengths|)
    requires q < |lengths| && start == Start(lengths, q) && f.Wide(Part(x, lengths, q))
    ensures rows == f.Tails(HistoryOf(f, histories, |lengths|, q), Part(x, lengths, q))
  {
    rows := [];
    ghost var (history, part) := (HistoryOf(f, histories, |lengths|, q), Part(x, lengths, q));
    for j := 0 to f.width - 1
      invariant rows == f.Tails(history, part)[..j]
    {
      var index := lengths[q] + j;
      TailAt(f, history, part, j);
      TakeNext(f.Tails(history, part), j);
      if index >= f.width - 1 {
        PartAt(x, lengths, q, index - (f.width - 1));
      }
      var row := if index >= f.width - 1 then x[start + index - (f.width - 1)]
                 else if histories.Zeros? then ZeroRow(f.channels) else histories.rows[q][index];
      rows := rows + [row];
    }
  }

  /** `_conv_tails`: each sequence's last rows, from its history where it is short. */
  method ConvTails(f: Filter, x: seq<Row>, lengths: seq<nat>, histories: Histories) returns (r: Option<seq<seq<Row>>>)
    requires f.Valid() && f.Wide(x) && |x| == Sum(lengths) && Fits(f, histories, |lengths|)
    ensures r.None? <==> Rowless(f, x, lengths)
    ensures r.Some? ==> |r.value| == |lengths|
    ensures r.Some? ==> forall q :: 0 <= q < |lengths| ==>
      f.Wide(Part(x, lengths, q)) && r.value[q] == f.Tails(HistoryOf(f, histories, |lengths|, q), Part(x, lengths, q))
  {
    if Rowless(f, x, lengths) {
      return None;  // IndexError: the clamped row -1 of no rows
    }
    var tails := [];
    var start: nat := 0;
    for q := 0 to |lengths|
      invariant start == Start(lengths, q) && |tails| == q
      invariant forall p :: 0 <= p < q ==>
        f.Wide(Part(x, lengths, p)) && tails[p] == f.Tails(HistoryOf(f, histories, |lengths|, p), Part(x, lengths, p))
    {
      StartNext(lengths, q);
      StartWithin(lengths, q + 1);
      WidePart(f, x, lengths, q);
      var rows := TailRows(f, x, lengths, histories, q, start);
      tails := tails + [rows];
      start := start + lengths[q];
    }
    return Some(tails);
  }

  /** The outputs, each the one its sequence gives it alone. */
  method PackedOutputs(f: Filter, x: seq<Row>, lengths: seq<nat>, histories: Histories) returns (out: seq<Row>)
    requires f.Valid() && f.Wide(x) && |x| == Sum(lengths) && Fits(f, histories, |lengths|)
    ensures |out| == |x|
    ensures forall q :: 0 <= q < |lengths| ==>
      f.Wide(Part(x, lengths, q))
      && Part(out, lengths, q) == f.Conv(HistoryOf(f, histories, |lengths|, q), Part(x, lengths, q))
  {
    var sequence, offset := Locate(lengths);
    ghost var windows := Windows(f, x, histories, lengths, sequence, offset);
    var sums := ZeroRows(|x|, f.channels);
    for back := 0 to f.width
      invariant |sums| == |x| && Summed(f, windows, sums, back)
    {
      sums := AddTaps(f, x, histories, lengths, sequence, offset, sums, back, windows);
    }
    out := [];
    for r := 0 to |x|
      invariant |out| == r && forall k :: 0 <= k < r ==> |sums[k]| == f.channels && out[k] == Finished(f, sums[k])
    {
      assert Holds(f, windows[r], sums[r], f.width);
      out := out + [Finished(f, sums[r])];
    }
    forall q | 0 <= q < |lengths|
      ensures f.Wide(Part(x, lengths, q))
      ensures Part(out, lengths, q) == f.Conv(HistoryOf(f, histories, |lengths|, q), Part(x, lengths, q))
    {
      OutputsAlone(f, x, lengths, histories, sequence, offset, sums, out, q);
    }
  }

  /** Sequence q's part of the outputs and its tails are those of the sequence alone. */
  ghost predicate Alone(f: Filter, x: seq<Row>, lengths: seq<nat>, histories: Histories, out: seq<Row>,
                        tails: seq<seq<Row>>, q: nat)
    requires f.Valid() && f.Wide(x) && |x| == |out| == Sum(lengths) && Fits(f, histories, |lengths|)
    requires q < |lengths| && |tails| == |lengths|
  {
    && f.Wide(Part(x, lengths, q))
    && Part(out, lengths, q) == f.Conv(HistoryOf(f, histories, |lengths|, q), Part(x, lengths, q))
    && tails[q] == f.Tails(HistoryOf(f, histories, |lengths|, q), Part(x, lengths, q))
  }

  /** `causal_conv_reference`: every packed sequence gets the outputs and tails it has alone. */
  method CausalConvReference(f: Filter, x: seq<Row>, lengths: seq<nat>, histories: Histories)
    returns (r: Option<(seq<Row>, seq<seq<Row>>)>)
    requires f.Valid() && f.Wide(x) && |x| == Sum(lengths) && Fits(f, histories, |lengths|)
    ensures r.None? <==> Rowless(f, x, lengths)
    ensures r.Some? ==> |r.value.0| == |x| && |r.value.1| == |lengths|
    ensures r.Some? ==> forall q :: 0 <= q < |lengths| ==> Alone(f, x, lengths, histories, r.value.0, r.value.1, q)
  {
    var out := PackedOutputs(f, x, lengths, histories);
    var tails := ConvTails(f, x, lengths, histories);
    r := if tails.None? then None else Some((out, tails.value));
  }

  lemma RowAlone(f: Filter, x: seq<Row>, histories: Histories, lengths: seq<nat>, sequence: seq<nat>, offset: seq<nat>,
                 sums: seq<Row>, r: nat)
    requires f.Valid() && f.Wide(x) && Located(lengths, sequence, offset) && |x| == |sequence| == Sum(lengths)
    requires Fits(f, histories, |lengths|) && |sums| == |x| && r < |x|
    requires Summed(f, Windows(f, x, histories, lengths, sequence, offset), sums, f.width)
    ensures |sums[r]| == f.channels
    ensures Finished(f, sums[r]) == f.Output(Window(f, x, histories, lengths, sequence, offset, r))
  {
    assert Holds(f, Windows(f, x, histories, lengths, sequence, offset)[r], sums[r], f.width);
  }

  lemma OutputsAlone(f: Filter, x: seq<Row>, lengths: seq<nat>, histories: Histories, sequence: seq<nat>,
                     offset: seq<nat>, sums: seq<Row>, out: seq<Row>, q: nat)
    requires f.Valid() && f.Wide(x) && Located(lengths, sequence, offset) && |x| == |sequence| == Sum(lengths)
    requires Fits(f, histories, |lengths|) && |sums| == |out| == |x| && q < |lengths|
    requires Summed(f, Windows(f, x, histories, lengths, sequence, offset), sums, f.width)
    requires forall r :: 0 <= r < |x| ==> |sums[r]| == f.channels && out[r] == Finished(f, sums[r])
    ensures f.Wide(Part(x, lengths, q))
    ensures Part(out, lengths, q) == f.Conv(HistoryOf(f, histories, |lengths|, q), Part(x, lengths, q))
  {
    WidePart(f, x, lengths, q);
    var (got, due) := (Part(out, lengths, q), f.Conv(HistoryOf(f, histories, |lengths|, q), Part(x, lengths, q)));
    forall t | 0 <= t < lengths[q] ensures got[t] == due[t] {
      OutputAlone(f, x, lengths, histories, sequence, offset, sums, out, q, t);
    }
    assert got == due;
  }

  lemma OutputAlone(f: Filter, x: seq<Row>, lengths: seq<nat>, histories: Histories, sequence: seq<nat>,
                    offset: seq<nat>, sums: seq<Row>, out: seq<Row>, q: nat, t: nat)
    requires f.Valid() && f.Wide(x) && Located(lengths, sequence, offset) && |x| == |sequence| == Sum(lengths)
    requires Fits(f, histories, |lengths|) && |sums| == |out| == |x| && q < |lengths| && t < lengths[q]
    requires Summed(f, Windows(f, x, histories, lengths, sequence, offset), sums, f.width)
    requires forall r :: 0 <= r < |x| ==> |sums[r]| == f.channels && out[r] == Finished(f, sums[r])
    ensures f.Wide(Part(x, lengths, q))
    ensures Part(out, lengths, q)[t] == f.Conv(HistoryOf(f, histories, |lengths|, q), Part(x, lengths, q))[t]
  {
    WidePart(f, x, lengths, q);
    LocatedAt(lengths, sequence, offset, q, t);
    PartAt(out, lengths, q, t);
    RowAlone(f, x, histories, lengths, sequence, offset, sums, Start(lengths, q) + t);
  }
}
