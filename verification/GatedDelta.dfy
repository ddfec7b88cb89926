/** The gated delta rule over packed sequences, with carried state (`gated_delta_reference`). */
module GatedDelta {
  import opened Common
  import opened Packing

  type Vector = seq<real>

  /** A value head's state: a row of key weights per value dimension. */
  type Matrix = seq<Vector>

  /** One row of the inputs: queries and keys per key head, and values, decay and strength per value head. */
  datatype Input = Input(q: seq<Vector>, k: seq<Vector>, v: seq<Vector>, g: seq<real>, beta: seq<real>)

  /** What one value head reads from a row. */
  datatype Token = Token(q: Vector, k: Vector, v: Vector, decay: real, beta: real)

  /** Shapes and elementwise functions: `unit` is the normalization, and `exp` the exponential. */
  datatype Rule = Rule(keyHeads: nat, valueHeads: nat, keys: nat, values: nat, scale: real,
                       unit: Vector -> Vector, exp: real -> real) {
    ghost predicate Valid() {
      keyHeads >= 1 && valueHeads % keyHeads == 0 && forall x: Vector :: |x| == keys ==> |unit(x)| == keys
    }

    predicate Shaped(x: Input) {
      && |x.q| == keyHeads && |x.k| == keyHeads && |x.v| == |x.g| == |x.beta| == valueHeads
      && (forall h :: 0 <= h < keyHeads ==> |x.q[h]| == keys && |x.k[h]| == keys)
      && forall h :: 0 <= h < valueHeads ==> |x.v[h]| == values
    }

    /** A value head reads the key head it repeats. */
    function TokenOf(x: Input, h: nat): (r: Token)
      requires Valid() && Shaped(x) && h < valueHeads
      ensures |r.q| == |r.k| == keys && |r.v| == values
    {
      var repeat := valueHeads / keyHeads;
      RepeatWithin(valueHeads, keyHeads, h);
      Token(Scaled(unit(x.q[h / repeat]), scale), unit(x.k[h / repeat]), x.v[h], exp(x.g[h]), x.beta[h])
    }

    /** Key head g serves the value heads from g * repeat on, as many as each key head is repeated. */
    lemma HeadsRepeat(x: Input, g: nat, r: nat)
      requires Valid() && Shaped(x) && g < keyHeads && r < valueHeads / keyHeads
      ensures g * (valueHeads / keyHeads) + r < valueHeads
      ensures var h := g * (valueHeads / keyHeads) + r;
        TokenOf(x, h) == Token(Scaled(unit(x.q[g]), scale), unit(x.k[g]), x.v[h], exp(x.g[h]), x.beta[h])
    {
      RepeatOf(valueHeads, keyHeads, g, r);
    }

    predicate Fits(s: Matrix) {
      |s| == values && forall i :: 0 <= i < values ==> |s[i]| == keys
    }

    /** The states of all heads. */
    predicate FitsAll(s: seq<Matrix>) {
      |s| == valueHeads && forall h :: 0 <= h < valueHeads ==> Fits(s[h])
    }

    /** One head's state after a token. */
    function StepHead(s: Matrix, t: Token): (r: Matrix)
      requires Fits(s) && |t.k| == keys && |t.v| == values
      ensures Fits(r)
    {
      seq(values, i requires 0 <= i < values => StepRow(s[i], t.k, t.v[i], t.decay, t.beta))
    }

    /** One head's output for a token. */
    function ReadHead(s: Matrix, q: Vector): (r: Vector)
      requires Fits(s) && |q| == keys
      ensures |r| == values
    {
      seq(values, i requires 0 <= i < values => Dot(s[i], q))
    }

    /** All heads after a row. */
    function Step(s: seq<Matrix>, x: Input): (r: seq<Matrix>)
      requires Valid() && FitsAll(s) && Shaped(x)
      ensures FitsAll(r)
    {
      seq(valueHeads, h requires 0 <= h < valueHeads => StepHead(s[h], TokenOf(x, h)))
    }

    function Read(s: seq<Matrix>, x: Input): (r: seq<Vector>)
      requires Valid() && FitsAll(s) && Shaped(x)
    {
      seq(valueHeads, h requires 0 <= h < valueHeads => ReadHead(s[h], TokenOf(x, h).q))
    }

    ghost predicate AllShaped(rows: seq<Input>) {
      forall t :: 0 <= t < |rows| ==> Shaped(rows[t])
    }

    /** The state after some rows. */
    function Final(s: seq<Matrix>, rows: seq<Input>): (r: seq<Matrix>)
      requires Valid() && FitsAll(s) && AllShaped(rows)
      ensures FitsAll(r)
    {
      if rows == [] then s else Step(Final(s, rows[..|rows| - 1]), rows[|rows| - 1])
    }

    /** The outputs of some rows. */
    function Outputs(s: seq<Matrix>, rows: seq<Input>): (r: seq<seq<Vector>>)
      requires Valid() && FitsAll(s) && AllShaped(rows)
      ensures |r| == |rows|
    {
      if rows == [] then
        []
      else
        var n := |rows| - 1;
        Outputs(s, rows[..n]) + [Read(Final(s, rows), rows[n])]
    }

    lemma {:induction false} FinalSplits(s: seq<Matrix>, a: seq<Input>, b: seq<Input>)
      requires Valid() && FitsAll(s) && AllShaped(a) && AllShaped(b)
      ensures AllShaped(a + b) && Final(s, a + b) == Final(Final(s, a), b)
      decreases |b|
    {
      if b == [] {
        assert a + b == a;
      } else {
        var n := |b| - 1;
        FinalSplits(s, a, b[..n]);
        assert (a + b)[..|a + b| - 1] == a + b[..n];
      }
    }

    lemma {:induction false} OutputsSplit(s: seq<Matrix>, a: seq<Input>, b: seq<Input>)
      requires Valid() && FitsAll(s) && AllShaped(a) && AllShaped(b)
      ensures AllShaped(a + b) && Outputs(s, a + b) == Outputs(s, a) + Outputs(Final(s, a), b)
      decreases |b|
    {
      FinalSplits(s, a, b);
      if b == [] {
        assert a + b == a;
      } else {
        var n := |b| - 1;
        OutputsSplit(s, a, b[..n]);
        assert (a + b)[..|a + b| - 1] == a + b[..n];
      }
    }

    /** Feeding a sequence in two parts, the first part's final state starting the second, gives the
        outputs and final state of one pass. */
    lemma RunSplits(s: seq<Matrix>, a: seq<Input>, b: seq<Input>)
      requires Valid() && FitsAll(s) && AllShaped(a) && AllShaped(b)
      ensures AllShaped(a + b)
      ensures Final(s, a + b) == Final(Final(s, a), b)
      ensures Outputs(s, a + b) == Outputs(s, a) + Outputs(Final(s, a), b)
    {
      FinalSplits(s, a, b);
      OutputsSplit(s, a, b);
    }

    lemma RowNext(s: seq<Matrix>, rows: seq<Input>, t: nat)
      requires Valid() && FitsAll(s) && AllShaped(rows) && t < |rows|
      ensures Final(s, rows[..t + 1]) == Step(Final(s, rows[..t]), rows[t])
      ensures Outputs(s, rows[..t + 1]) == Outputs(s, rows[..t]) + [Read(Step(Final(s, rows[..t]), rows[t]), rows[t])]
    {
      assert rows[..t + 1][..t] == rows[..t];
    }
  }

  lemma RepeatWithin(values: nat, keys: nat, h: nat)
    requires keys >= 1 && values % keys == 0 && h < values
    ensures values / keys >= 1 && h / (values / keys) < keys
  {
    var repeat := values / keys;
    assert values == repeat * keys && keys * repeat == repeat * keys;
    Quotient(values, keys, 1);
    Quotient(h, repeat, keys);
  }

  lemma RepeatOf(values: nat, keys: nat, g: nat, r: nat)
    requires keys >= 1 && values % keys == 0 && g < keys && r < values / keys
    ensures g * (values / keys) + r < values && (g * (values / keys) + r) / (values / keys) == g
  {
    var repeat := values / keys;
    assert values == repeat * keys;
    assert (g + 1) * repeat == g * repeat + repeat;
    TimesAtMost(g + 1, keys, repeat);
    Quotient(g * repeat + r, repeat, g);
    Quotient(g * repeat + r, repeat, g + 1);
  }

  lemma TimesAtMost(a: nat, b: nat, n: nat)
    requires a <= b
    ensures a * n <= n * b
  {
  }

  function Scaled(x: Vector, c: real): (r: Vector)
    ensures |r| == |x| && forall j :: 0 <= j < |x| ==> r[j] == x[j] * c
  {
    seq(|x|, j requires 0 <= j < |x| => x[j] * c)
  }

  function Dot(a: Vector, b: Vector): real
    requires |a| == |b|
  {
    DotTo(a, b, |a|)
  }

  /** The product of the first n entries. */
  function DotTo(a: Vector, b: Vector, n: nat): real
    requires |a| == |b| && n <= |a|
  {
    if n == 0 then 0.0 else DotTo(a, b, n - 1) + a[n - 1] * b[n - 1]
  }

  /** One row of a head's state: decay, then write what the prediction lacks. */
  function StepRow(s: Vector, k: Vector, v: real, decay: real, beta: real): (r: Vector)
    requires |s| == |k|
    ensures |r| == |s|
  {
    var decayed := Scaled(s, decay);
    var delta := (v - Dot(decayed, k)) * beta;
    seq(|s|, j requires 0 <= j < |s| => decayed[j] + delta * k[j])
  }

  /** Entry j of a row of `I - beta k k^T`. */
  function Erased(k: Vector, beta: real, j: nat): (r: Vector)
    requires j < |k|
    ensures |r| == |k|
  {
    seq(|k|, l requires 0 <= l < |k| => (if l == j then 1.0 else 0.0) - beta * k[l] * k[j])
  }

  lemma {:induction false} DotScaled(s: Vector, k: Vector, c: real, n: nat)
    requires |s| == |k| && n <= |s|
    ensures DotTo(Scaled(s, c), k, n) == c * DotTo(s, k, n)
  {
    if n > 0 {
      DotScaled(s, k, c, n - 1);
      Distribute(c, DotTo(s, k, n - 1), s[n - 1], k[n - 1]);
    }
  }

  lemma Distribute(c: real, d: real, x: real, y: real)
    ensures c * (d + x * y) == c * d + x * c * y
  {
  }

  lemma Times(a: real, b: real, c: real)
    ensures a * (b + c) == a * b + a * c
    ensures a * b * c == a * (b * c) && a * b == b * a
  {
  }

  /** The running product, one term further; at the diagonal the term brings `x` itself. */
  lemma NextTerm(acc: real, kept: real, d: real, x: real, e: real, diagonal: bool, c: real, km: real)
    requires acc == kept - c * d && e == (if diagonal then 1.0 else 0.0) - c * km
    ensures acc + x * e == (if diagonal then kept + x else kept) - c * (d + x * km)
  {
    Times(c, d, x * km);
    Times(c, x, km);
    Times(x, c, km);
    var y := c * km;
    assert x * e == (if diagonal then x else 0.0) - x * y;
  }

  /** Multiplying by a row that keeps entry j and erases along k takes out what k reads. */
  lemma {:induction false} DotErased(s: Vector, k: Vector, e: Vector, c: real, j: nat, n: nat)
    requires |s| == |k| == |e| && j < |k| && n <= |k|
    requires forall l :: 0 <= l < |e| ==> e[l] == (if l == j then 1.0 else 0.0) - c * k[l]
    ensures DotTo(s, e, n) == (if j < n then s[j] else 0.0) - c * DotTo(s, k, n)
  {
    if n > 0 {
      var m := n - 1;
      var kept := if j < m then s[j] else 0.0;
      DotErased(s, k, e, c, j, m);
      NextTerm(DotTo(s, e, m), kept, DotTo(s, k, m), s[m], e[m], m == j, c, k[m]);
      assert (if m == j then kept + s[m] else kept) == if j < n then s[j] else 0.0;
    }
  }

  lemma ErasedAt(k: Vector, beta: real, j: nat, l: nat)
    requires j < |k| && l < |k|
    ensures Erased(k, beta, j)[l] == (if l == j then 1.0 else 0.0) - beta * k[j] * k[l]
  {
    Times(beta, k[l], k[j]);
    Times(k[l], k[j], 0.0);
    Times(beta, k[j], k[l]);
  }

  lemma Rearranged(x: real, decay: real, beta: real, kj: real, v: real, d: real, predicted: real, erased: real)
    requires predicted == decay * d && erased == x - beta * kj * d
    ensures x * decay + (v - predicted) * beta * kj == decay * erased + beta * v * kj
  {
    var bk := beta * kj;
    assert (v - predicted) * beta * kj == (v - predicted) * bk by {
      Times(v - predicted, beta, kj);
    }
    assert (v - predicted) * bk == v * bk - predicted * bk;
    assert predicted * bk == decay * (bk * d) by {
      Times(decay, d, bk);
      Times(d, bk, 0.0);
    }
    assert decay * erased == decay * x - decay * (bk * d);
    assert beta * v * kj == v * bk by {
      Times(beta, v, kj);
      Times(v, beta, kj);
    }
  }

  lemma ErasedDot(s: Vector, k: Vector, beta: real, j: nat)
    requires |s| == |k| && j < |k|
    ensures Dot(s, Erased(k, beta, j)) == s[j] - beta * k[j] * Dot(s, k)
  {
    var e := Erased(k, beta, j);
    forall l | 0 <= l < |k| ensures e[l] == (if l == j then 1.0 else 0.0) - beta * k[j] * k[l] {
      ErasedAt(k, beta, j, l);
    }
    DotErased(s, k, e, beta * k[j], j, |k|);
  }

  /** The step is the documented rule: S becomes `exp(g) S (I - beta k k^T) + beta v k^T`. */
  lemma DocumentedRule(s: Vector, k: Vector, v: real, decay: real, beta: real, j: nat)
    requires |s| == |k| && j < |k|
    ensures StepRow(s, k, v, decay, beta)[j] == decay * Dot(s, Erased(k, beta, j)) + beta * v * k[j]
  {
    DotScaled(s, k, decay, |k|);
    ErasedDot(s, k, beta, j);
    Rearranged(s[j], decay, beta, k[j], v, Dot(s, k), Dot(Scaled(s, decay), k), Dot(s, Erased(k, beta, j)));
  }

  lemma ShapedPart(rule: Rule, rows: seq<Input>, lengths: seq<nat>, q: nat)
    requires rule.AllShaped(rows) && |rows| == Sum(lengths) && q < |lengths|
    ensures rule.AllShaped(Part(rows, lengths, q))
  {
    forall t | 0 <= t < lengths[q] ensures rule.Shaped(Part(rows, lengths, q)[t]) {
      PartAt(rows, lengths, q, t);
    }
  }

  /** One sequence, one token at a time. */
  method RunSequence(rule: Rule, rows: seq<Input>, ghost lengths: seq<nat>, ghost q: nat, state: seq<Matrix>, row: nat,
                     length: nat)
    returns (s: seq<Matrix>, out: seq<seq<Vector>>)
    requires rule.Valid() && rule.AllShaped(rows) && |rows| == Sum(lengths) && q < |lengths|
    requires row == Start(lengths, q) && length == lengths[q] && rule.FitsAll(state)
    requires rule.AllShaped(Part(rows, lengths, q))
    ensures s == rule.Final(state, Part(rows, lengths, q)) && out == rule.Outputs(state, Part(rows, lengths, q))
  {
    s, out := state, [];
    ghost var part := Part(rows, lengths, q);
    for t := 0 to length
      invariant s == rule.Final(state, part[..t]) && out == rule.Outputs(state, part[..t])
    {
      PartAt(rows, lengths, q, t);
      rule.RowNext(state, part, t);
      s := rule.Step(s, rows[row + t]);
      out := out + [rule.Read(s, rows[row + t])];
    }
    assert part[..length] == part;
  }

  /** Sequence q has the outputs and the final state it has alone. */
  ghost predicate Alone(rule: Rule, rows: seq<Input>, lengths: seq<nat>, before: seq<Matrix>, out: seq<seq<Vector>>,
                        after: seq<Matrix>, q: nat)
    requires rule.Valid() && rule.FitsAll(before) && |rows| == Sum(lengths) && q < |lengths|
  {
    && rule.AllShaped(Part(rows, lengths, q))
    && out == rule.Outputs(before, Part(rows, lengths, q))
    && after == rule.Final(before, Part(rows, lengths, q))
  }

  /** The first sequences are done. */
  ghost predicate AllAlone(rule: Rule, rows: seq<Input>, lengths: seq<nat>, before: seq<seq<Matrix>>,
                           parts: seq<seq<seq<Vector>>>, after: seq<seq<Matrix>>)
    requires rule.Valid() && |rows| == Sum(lengths) && |parts| == |after| <= |lengths| == |before|
    requires forall q :: 0 <= q < |before| ==> rule.FitsAll(before[q])
  {
    forall q :: 0 <= q < |parts| ==>
      |parts[q]| == lengths[q] && Alone(rule, rows, lengths, before[q], parts[q], after[q], q)
  }

  lemma AloneNext(rule: Rule, rows: seq<Input>, lengths: seq<nat>, before: seq<seq<Matrix>>,
                  parts: seq<seq<seq<Vector>>>, after: seq<seq<Matrix>>, more: seq<seq<Vector>>, s: seq<Matrix>)
    requires rule.Valid() && |rows| == Sum(lengths) && |parts| == |after| < |lengths| == |before|
    requires forall q :: 0 <= q < |before| ==> rule.FitsAll(before[q])
    requires AllAlone(rule, rows, lengths, before, parts, after)
    requires |more| == lengths[|parts|] && Alone(rule, rows, lengths, before[|parts|], more, s, |parts|)
    ensures AllAlone(rule, rows, lengths, before, parts + [more], after + [s])
  {
    var (all, ends) := (parts + [more], after + [s]);
    forall q | 0 <= q < |all|
      ensures |all[q]| == lengths[q] && Alone(rule, rows, lengths, before[q], all[q], ends[q], q)
    {
      if q < |parts| {
        assert all[q] == parts[q] && ends[q] == after[q];
      }
    }
  }

  /** One sequence of the batch, writing its final state. */
  method RunNext(rule: Rule, rows: seq<Input>, state: array<seq<Matrix>>, lengths: seq<nat>, q: nat, row: nat,
                 ghost before: seq<seq<Matrix>>, ghost parts: seq<seq<seq<Vector>>>)
    returns (more: seq<seq<Vector>>)
    requires rule.Valid() && rule.AllShaped(rows) && |rows| == Sum(lengths) && state.Length == |lengths| == |before|
    requires forall p :: 0 <= p < |before| ==> rule.FitsAll(before[p])
    requires |parts| == q < |lengths| && row == Start(lengths, q) && state[q..] == before[q..]
    requires AllAlone(rule, rows, lengths, before, parts, state[..q])
    modifies state
    ensures |more| == lengths[q] && state[q + 1..] == before[q + 1..]
    ensures AllAlone(rule, rows, lengths, before, parts + [more], state[..q + 1])
  {
    ShapedPart(rule, rows, lengths, q);
    assert state[q] == state[q..][0] == before[q..][0] == before[q];
    ghost var (left, done) := (state[q + 1..], state[..q]);
    assert left == state[q..][1..] == before[q..][1..] == before[q + 1..];
    var s;
    s, more := RunSequence(rule, rows, lengths, q, state[q], row, lengths[q]);
    AloneNext(rule, rows, lengths, before, parts, done, more, s);
    state[q] := s;
    assert state[..q + 1] == done + [s] && state[q + 1..] == left;
  }

  /** `gated_delta_reference`: every packed sequence gets the outputs it has alone, and its state, updated
      in place, is the final state it has alone. */
  method GatedDeltaReference(rule: Rule, rows: seq<Input>, state: array<seq<Matrix>>, lengths: seq<nat>)
    returns (out: seq<seq<Vector>>)
    requires rule.Valid() && rule.AllShaped(rows) && |rows| == Sum(lengths) && state.Length == |lengths|
    requires forall q :: 0 <= q < state.Length ==> rule.FitsAll(state[q])
    modifies state
    ensures |out| == |rows|
    ensures forall q :: 0 <= q < |lengths| ==>
      Alone(rule, rows, lengths, old(state[q]), Part(out, lengths, q), state[q], q)
  {
    out := [];
    ghost var before := state[..];
    ghost var parts: seq<seq<seq<Vector>>> := [];
    for q := 0 to |lengths|
      invariant |out| == Start(lengths, q) && |parts| == q && out == Concat(parts)
      invariant state[q..] == before[q..]
      invariant AllAlone(rule, rows, lengths, before, parts, state[..q])
    {
      var more := RunNext(rule, rows, state, lengths, q, |out|, before, parts);
      ConcatAppend(parts, more);
      parts := parts + [more];
      out := out + more;
      StartNext(lengths, q);
    }
    assert lengths[..|lengths|] == lengths && state[..|lengths|] == state[..];
    forall q | 0 <= q < |lengths| ensures Part(out, lengths, q) == parts[q] {
      PartOfConcat(parts, lengths, out, q);
    }
  }
}
