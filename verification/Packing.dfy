/** Sequences packed back to back. */
module Packing {
  import opened Common

  function Concat<T>(parts: seq<seq<T>>): seq<T> {
    if parts == [] then [] else parts[0] + Concat(parts[1..])
  }

  lemma SliceDrop<T>(s: seq<T>, k: nat, lo: nat, hi: nat)
    requires k <= |s| && lo <= hi && k + hi <= |s|
    ensures s[k..][lo..hi] == s[k + lo..k + hi]
  {
  }

  /** Where a sequence starts. */
  function Start(lengths: seq<nat>, q: nat): nat
    requires q <= |lengths|
  {
    Sum(lengths[..q])
  }

  lemma StartNext(lengths: seq<nat>, q: nat)
    requires q < |lengths|
    ensures Start(lengths, q + 1) == Start(lengths, q) + lengths[q]
  {
    assert lengths[..q + 1][..q] == lengths[..q];
  }

  lemma {:induction false} StartWithin(lengths: seq<nat>, q: nat)
    requires q <= |lengths|
    ensures Start(lengths, q) <= Sum(lengths)
    decreases |lengths| - q
  {
    if q == |lengths| {
      assert lengths[..q] == lengths;
    } else {
      StartNext(lengths, q);
      StartWithin(lengths, q + 1);
    }
  }

  /** The rows of one sequence. */
  function Part<T>(rows: seq<T>, lengths: seq<nat>, q: nat): (r: seq<T>)
    requires |rows| == Sum(lengths) && q < |lengths|
    ensures |r| == lengths[q]
  {
    StartNext(lengths, q);
    StartWithin(lengths, q + 1);
    rows[Start(lengths, q)..Start(lengths, q) + lengths[q]]
  }

  lemma PartAt<T>(rows: seq<T>, lengths: seq<nat>, q: nat, t: nat)
    requires |rows| == Sum(lengths) && q < |lengths| && t < lengths[q]
    ensures Start(lengths, q) + t < |rows| && Part(rows, lengths, q)[t] == rows[Start(lengths, q) + t]
  {
    StartNext(lengths, q);
    StartWithin(lengths, q + 1);
  }

  /** The sequence and offset of each row. */
  ghost predicate Located(lengths: seq<nat>, sequence: seq<nat>, offset: seq<nat>) {
    && |sequence| == |offset|
    && forall r :: 0 <= r < |sequence| ==>
         sequence[r] < |lengths| && offset[r] < lengths[sequence[r]] && r == Start(lengths, sequence[r]) + offset[r]
  }

  /** `repeat_interleave` and the offsets from the starts. */
  method Locate(lengths: seq<nat>) returns (sequence: seq<nat>, offset: seq<nat>)
    ensures Located(lengths, sequence, offset) && |sequence| == Sum(lengths)
  {
    sequence, offset := [], [];
    for q := 0 to |lengths|
      invariant Located(lengths, sequence, offset) && |sequence| == Start(lengths, q)
    {
      for i := 0 to lengths[q]
        invariant Located(lengths, sequence, offset) && |sequence| == Start(lengths, q) + i
      {
        sequence, offset := sequence + [q], offset + [i];
      }
      StartNext(lengths, q);
    }
    assert lengths[..|lengths|] == lengths;
  }

  lemma {:induction false} StartsApart(lengths: seq<nat>, p: nat, q: nat)
    requires p < q <= |lengths|
    ensures Start(lengths, p) + lengths[p] <= Start(lengths, q)
  {
    StartNext(lengths, q - 1);
    if p < q - 1 {
      StartsApart(lengths, p, q - 1);
    }
  }

  /** A row is located in its own sequence. */
  lemma LocatedAt(lengths: seq<nat>, sequence: seq<nat>, offset: seq<nat>, q: nat, t: nat)
    requires Located(lengths, sequence, offset) && |sequence| == Sum(lengths) && q < |lengths| && t < lengths[q]
    ensures Start(lengths, q) + t < Sum(lengths)
    ensures sequence[Start(lengths, q) + t] == q && offset[Start(lengths, q) + t] == t
  {
    StartNext(lengths, q);
    StartWithin(lengths, q + 1);
    var p := sequence[Start(lengths, q) + t];
    if p < q {
      StartsApart(lengths, p, q);
    } else if q < p {
      StartsApart(lengths, q, p);
    }
  }

  lemma {:induction false} ConcatAppend<T>(parts: seq<seq<T>>, part: seq<T>)
    ensures Concat(parts + [part]) == Concat(parts) + part
  {
    if parts == [] {
      assert parts + [part] == [part] && [part][1..] == [];
    } else {
      ConcatAppend(parts[1..], part);
      assert (parts + [part])[1..] == parts[1..] + [part];
    }
  }

  /** Parts of the sequences' lengths, one after the other, are the parts of the whole. */
  lemma {:induction false} PartOfConcat<T>(parts: seq<seq<T>>, lengths: seq<nat>, rows: seq<T>, q: nat)
    requires |parts| == |lengths| && (forall p :: 0 <= p < |parts| ==> |parts[p]| == lengths[p])
    requires rows == Concat(parts) && q < |parts|
    ensures |rows| == Sum(lengths) && Part(rows, lengths, q) == parts[q]
  {
    var n := |parts| - 1;
    var front := Concat(parts[..n]);
    assert parts == parts[..n] + [parts[n]];
    ConcatAppend(parts[..n], parts[n]);
    ConcatLength(parts[..n], lengths[..n]);
    StartNext(lengths, q);
    if q < n {
      PartOfConcat(parts[..n], lengths[..n], front, q);
      assert lengths[..n][..q] == lengths[..q];
      StartNext(lengths[..n], q);
      StartWithin(lengths[..n], q + 1);
      assert rows[Start(lengths, q)..Start(lengths, q) + lengths[q]]
          == front[Start(lengths, q)..Start(lengths, q) + lengths[q]];
    } else {
      assert rows == front + parts[n] && |front| == Start(lengths, n);
      assert rows[|front|..|front| + lengths[n]] == parts[n];
    }
  }

  lemma {:induction false} ConcatLength<T>(parts: seq<seq<T>>, lengths: seq<nat>)
    requires |parts| == |lengths| && forall p :: 0 <= p < |parts| ==> |parts[p]| == lengths[p]
    ensures |Concat(parts)| == Sum(lengths)
  {
    if parts != [] {
      var n := |parts| - 1;
      ConcatLength(parts[..n], lengths[..n]);
      assert parts == parts[..n] + [parts[n]];
      ConcatAppend(parts[..n], parts[n]);
    }
  }
}
