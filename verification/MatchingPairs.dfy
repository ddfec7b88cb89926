/** The pairs a restricted join labels, and the join that answers them (`_matching_pairs`, `QuailJudge.join`). */
module MatchingPairs {
  import opened Common

  /** A table row: its id, ranked as text, and its other columns' values. */
  datatype Row = Row(id: int, get: string -> Option<int>)

  /** `column == value` on one side of a join. */
  type Condition = Option<(string, Option<int>)>

  datatype PairSpec = PairSpec(leftColumn: string, rightColumn: string, leftWhere: Condition, rightWhere: Condition)

  type Pair = (nat, nat)

  predicate Passes(row: Row, condition: Condition) {
    condition.Some? ==> row.get(condition.value.0) == condition.value.1
  }

  /** The pair's columns agree and both rows pass. */
  predicate Matches(spec: PairSpec, l: Row, r: Row) {
    && Passes(l, spec.leftWhere) && Passes(r, spec.rightWhere)
    && l.get(spec.leftColumn).Some? && l.get(spec.leftColumn) == r.get(spec.rightColumn)
  }

  ghost predicate Below(at: seq<nat>, n: nat) {
    forall k :: 0 <= k < |at| ==> at[k] < n
  }

  ghost predicate Rising(at: seq<nat>) {
    forall j, k :: 0 <= j < k < |at| ==> at[j] < at[k]
  }

  /** `_where_rows`: the positions of the rows that pass, in order. */
  function WhereRows(rows: seq<Row>, condition: Condition): (r: seq<nat>)
    ensures Below(r, |rows|)
  {
    if rows == [] then
      []
    else
      var n := |rows| - 1;
      var front := WhereRows(rows[..n], condition);
      if Passes(rows[n], condition) then front + [n] else front
  }

  lemma {:induction false} WhereExact(rows: seq<Row>, condition: Condition)
    ensures Rising(WhereRows(rows, condition))
    ensures forall i: nat :: i in WhereRows(rows, condition) <==> i < |rows| && Passes(rows[i], condition)
  {
    if rows != [] {
      WhereExact(rows[..|rows| - 1], condition);
    }
  }

  /** The kept right rows with one value in the pair column. */
  function Partners(spec: PairSpec, right: seq<Row>, keep: seq<nat>, value: int): (r: seq<nat>)
    requires Below(keep, |right|)
    ensures Below(r, |right|)
  {
    if keep == [] then
      []
    else
      var n := |keep| - 1;
      var front := Partners(spec, right, keep[..n], value);
      if right[keep[n]].get(spec.rightColumn) == Some(value) then front + [keep[n]] else front
  }

  lemma {:induction false} PartnersExact(spec: PairSpec, right: seq<Row>, keep: seq<nat>, value: int, j: nat)
    requires Below(keep, |right|)
    ensures j in Partners(spec, right, keep, value)
      <==> j in keep && j < |right| && right[j].get(spec.rightColumn) == Some(value)
  {
    if keep != [] {
      var n := |keep| - 1;
      PartnersExact(spec, right, keep[..n], value, j);
      assert keep == keep[..n] + [keep[n]];
    }
  }

  lemma {:induction false} PartnersRise(spec: PairSpec, right: seq<Row>, keep: seq<nat>, value: int)
    requires Below(keep, |right|) && Rising(keep)
    ensures Rising(Partners(spec, right, keep, value))
  {
    if keep != [] {
      var n := |keep| - 1;
      PartnersRise(spec, right, keep[..n], value);
      var front := Partners(spec, right, keep[..n], value);
      forall k | 0 <= k < |front| ensures front[k] < keep[n] {
        PartnersExact(spec, right, keep[..n], value, front[k]);
      }
    }
  }

  /** The right rows a left row is paired with. */
  function PartnersOf(spec: PairSpec, l: Row, right: seq<Row>): (r: seq<nat>)
    ensures Below(r, |right|)
  {
    match l.get(spec.leftColumn)
    case None => []
    case Some(value) => Partners(spec, right, WhereRows(right, spec.rightWhere), value)
  }

  function Beside(i: nat, js: seq<nat>): (r: seq<Pair>)
    ensures |r| == |js| && forall k :: 0 <= k < |r| ==> r[k] == (i, js[k])
  {
    seq(|js|, k requires 0 <= k < |js| => (i, js[k]))
  }

  /** The pairs of some left rows, left row by left row. */
  function PairsOf(spec: PairSpec, left: seq<Row>, right: seq<Row>, keep: seq<nat>): seq<Pair>
    requires Below(keep, |left|)
  {
    if keep == [] then
      []
    else
      var n := |keep| - 1;
      PairsOf(spec, left, right, keep[..n]) + Beside(keep[n], PartnersOf(spec, left[keep[n]], right))
  }

  function Matching(spec: PairSpec, left: seq<Row>, right: seq<Row>): seq<Pair> {
    PairsOf(spec, left, right, WhereRows(left, spec.leftWhere))
  }

  /** The dictionary from values to right rows. */
  ghost predicate Indexed(spec: PairSpec, right: seq<Row>, keep: seq<nat>, partners: map<int, seq<nat>>)
    requires Below(keep, |right|)
  {
    forall value: int :: Partners(spec, right, keep, value) == if value in partners then partners[value] else []
  }

  lemma IndexedNext(spec: PairSpec, right: seq<Row>, keep: seq<nat>, partners: map<int, seq<nat>>, j: nat, key: int)
    requires Below(keep, |right|) && Indexed(spec, right, keep, partners) && j < |right|
    requires right[j].get(spec.rightColumn) == Some(key)
    ensures Indexed(spec, right, keep + [j], partners[key := (if key in partners then partners[key] else []) + [j]])
  {
    assert (keep + [j])[..|keep|] == keep;
  }

  lemma IndexedSkip(spec: PairSpec, right: seq<Row>, keep: seq<nat>, partners: map<int, seq<nat>>, j: nat)
    requires Below(keep, |right|) && Indexed(spec, right, keep, partners) && j < |right|
    requires right[j].get(spec.rightColumn).None?
    ensures Indexed(spec, right, keep + [j], partners)
  {
    assert (keep + [j])[..|keep|] == keep;
  }

  /** `_matching_pairs` */
  method MatchingPairs(spec: PairSpec, left: seq<Row>, right: seq<Row>) returns (pairs: seq<Pair>)
    ensures pairs == Matching(spec, left, right)
  {
    var keep := WhereRows(right, spec.rightWhere);
    var partners: map<int, seq<nat>> := map[];
    for n := 0 to |keep|
      invariant Indexed(spec, right, keep[..n], partners)
    {
      var key := right[keep[n]].get(spec.rightColumn);
      TakeNext(keep, n);
      if key.Some? {
        IndexedNext(spec, right, keep[..n], partners, keep[n], key.value);
        var before := if key.value in partners then partners[key.value] else [];
        partners := partners[key.value := before + [keep[n]]];
      } else {
        IndexedSkip(spec, right, keep[..n], partners, keep[n]);
      }
    }
    assert keep[..|keep|] == keep;
    pairs := [];
    var keepLeft := WhereRows(left, spec.leftWhere);
    for n := 0 to |keepLeft|
      invariant pairs == PairsOf(spec, left, right, keepLeft[..n])
    {
      var key := left[keepLeft[n]].get(spec.leftColumn);
      assert keepLeft[..n + 1][..n] == keepLeft[..n];
      var js := if key.Some? && key.value in partners then partners[key.value] else [];
      assert js == PartnersOf(spec, left[keepLeft[n]], right);
      pairs := pairs + Beside(keepLeft[n], js);
    }
    assert keepLeft[..|keepLeft|] == keepLeft;
  }

  /** The pairs a join labels: every pair, or those a restricted join's columns and conditions allow. */
  predicate Asks(spec: Option<PairSpec>, l: Row, r: Row) {
    spec.Some? ==> Matches(spec.value, l, r)
  }

  function Indices(n: nat): (r: seq<nat>)
    ensures |r| == n && forall i :: 0 <= i < n ==> r[i] == i
  {
    seq(n, i => i)
  }

  /** A left row's own pairs, at its place in the table. */
  function RowAsked(spec: Option<PairSpec>, l: Row, right: seq<Row>, i: nat): seq<Pair> {
    if spec.None? then
      Beside(i, Indices(|right|))
    else if Passes(l, spec.value.leftWhere) then
      Beside(i, PartnersOf(spec.value, l, right))
    else
      []
  }

  function RowAskedBy(spec: Option<PairSpec>, right: seq<Row>): (Row, nat) -> seq<Pair> {
    (l, i) => RowAsked(spec, l, right, i)
  }

  /** What each row gives, row after row, the first row counted from `start`. */
  function FlatFrom<T, U>(f: (T, nat) -> seq<U>, rows: seq<T>, start: nat): seq<U> {
    if rows == [] then
      []
    else
      var n := |rows| - 1;
      FlatFrom(f, rows[..n], start) + f(rows[n], start + n)
  }

  lemma {:induction false} FlatFromAppend<T, U>(f: (T, nat) -> seq<U>, a: seq<T>, b: seq<T>, start: nat)
    ensures FlatFrom(f, a + b, start) == FlatFrom(f, a, start) + FlatFrom(f, b, start + |a|)
    decreases |b|
  {
    if b == [] {
      assert a + b == a;
    } else {
      FlatFromAppend(f, a, b[..|b| - 1], start);
      assert (a + b)[..|a + b| - 1] == a + b[..|b| - 1];
    }
  }

  /** The pairs of rows that start somewhere in the table, left row by left row. */
  function AskedFrom(spec: Option<PairSpec>, left: seq<Row>, right: seq<Row>, start: nat): seq<Pair> {
    FlatFrom(RowAskedBy(spec, right), left, start)
  }

  function Asked(spec: Option<PairSpec>, left: seq<Row>, right: seq<Row>): seq<Pair> {
    AskedFrom(spec, left, right, 0)
  }

  lemma {:induction false} PairsOfFront(spec: PairSpec, left: seq<Row>, right: seq<Row>, keep: seq<nat>, n: nat)
    requires Below(keep, n) && n <= |left|
    ensures PairsOf(spec, left, right, keep) == PairsOf(spec, left[..n], right, keep)
  {
    if keep != [] {
      PairsOfFront(spec, left, right, keep[..|keep| - 1], n);
    }
  }

  /** `_matching_pairs` goes over the rows that pass; the others add nothing. */
  lemma {:induction false} MatchingAsked(spec: PairSpec, left: seq<Row>, right: seq<Row>)
    ensures Matching(spec, left, right) == Asked(Some(spec), left, right)
  {
    if left != [] {
      var n := |left| - 1;
      MatchingAsked(spec, left[..n], right);
      var front := WhereRows(left[..n], spec.leftWhere);
      PairsOfFront(spec, left, right, front, n);
      assert (front + [n])[..|front|] == front;
    }
  }

  /** A batch's pairs, back at their rows' places in the table. */
  function Shifted(pairs: seq<Pair>, start: nat): (r: seq<Pair>)
    ensures |r| == |pairs| && forall k :: 0 <= k < |r| ==> r[k] == (start + pairs[k].0, pairs[k].1)
  {
    seq(|pairs|, k requires 0 <= k < |pairs| => (start + pairs[k].0, pairs[k].1))
  }

  lemma ShiftedAppend(a: seq<Pair>, b: seq<Pair>, start: nat)
    ensures Shifted(a + b, start) == Shifted(a, start) + Shifted(b, start)
  {
  }

  lemma RowAskedShift(spec: Option<PairSpec>, l: Row, right: seq<Row>, i: nat, start: nat)
    ensures RowAsked(spec, l, right, start + i) == Shifted(RowAsked(spec, l, right, i), start)
  {
  }

  lemma {:induction false} AskedFromShift(spec: Option<PairSpec>, left: seq<Row>, right: seq<Row>, start: nat)
    ensures AskedFrom(spec, left, right, start) == Shifted(Asked(spec, left, right), start)
  {
    if left != [] {
      var (n, front) := (|left| - 1, left[..|left| - 1]);
      AskedFromShift(spec, front, right, start);
      RowAskedShift(spec, left[n], right, n, start);
      ShiftedAppend(Asked(spec, front, right), RowAsked(spec, left[n], right, n), start);
    }
  }

  /** Labeling two batches asks what labeling their rows together asks. */
  lemma AskedAppend(spec: Option<PairSpec>, a: seq<Row>, b: seq<Row>, right: seq<Row>)
    ensures Asked(spec, a + b, right) == Asked(spec, a, right) + Shifted(Asked(spec, b, right), |a|)
  {
    FlatFromAppend(RowAskedBy(spec, right), a, b, 0);
    AskedFromShift(spec, b, right, |a|);
  }

  /** Without pair columns, every pair. */
  lemma {:induction false} AskedCount(left: seq<Row>, right: seq<Row>)
    ensures |Asked(None, left, right)| == |left| * |right|
  {
    if left != [] {
      AskedCount(left[..|left| - 1], right);
    }
  }

  /** Pairs in the order of a nested loop. */
  predicate PairBefore(p: Pair, q: Pair) {
    p.0 < q.0 || (p.0 == q.0 && p.1 < q.1)
  }

  ghost predicate NestedOrder(pairs: seq<Pair>) {
    forall a, b :: 0 <= a < b < |pairs| ==> PairBefore(pairs[a], pairs[b])
  }

  ghost predicate IsAsked(spec: Option<PairSpec>, left: seq<Row>, right: seq<Row>, p: Pair) {
    p.0 < |left| && p.1 < |right| && Asks(spec, left[p.0], right[p.1])
  }

  lemma PartnersMatch(spec: PairSpec, l: Row, right: seq<Row>, j: nat)
    requires Passes(l, spec.leftWhere)
    ensures j in PartnersOf(spec, l, right) <==> j < |right| && Matches(spec, l, right[j])
    ensures Rising(PartnersOf(spec, l, right))
  {
    WhereExact(right, spec.rightWhere);
    if l.get(spec.leftColumn).Some? {
      PartnersExact(spec, right, WhereRows(right, spec.rightWhere), l.get(spec.leftColumn).value, j);
      PartnersRise(spec, right, WhereRows(right, spec.rightWhere), l.get(spec.leftColumn).value);
    }
  }

  lemma BesideMembers(i: nat, js: seq<nat>, p: Pair)
    ensures p in Beside(i, js) <==> p.0 == i && p.1 in js
  {
    if p.0 == i && p.1 in js {
      var k :| 0 <= k < |js| && js[k] == p.1;
      assert Beside(i, js)[k] == p;
    }
  }

  lemma RowAskedExact(spec: Option<PairSpec>, l: Row, right: seq<Row>, i: nat, p: Pair)
    ensures p in RowAsked(spec, l, right, i) <==> p.0 == i && p.1 < |right| && Asks(spec, l, right[p.1])
    ensures NestedOrder(RowAsked(spec, l, right, i))
  {
    if spec.None? {
      BesideMembers(i, Indices(|right|), p);
      assert p.1 < |right| ==> Indices(|right|)[p.1] == p.1;
    } else if Passes(l, spec.value.leftWhere) {
      PartnersMatch(spec.value, l, right, p.1);
      BesideMembers(i, PartnersOf(spec.value, l, right), p);
    }
  }

  lemma {:induction false} AskedMembers(spec: Option<PairSpec>, left: seq<Row>, right: seq<Row>, p: Pair)
    ensures p in Asked(spec, left, right) <==> IsAsked(spec, left, right, p)
  {
    if left != [] {
      var n := |left| - 1;
      AskedMembers(spec, left[..n], right, p);
      RowAskedExact(spec, left[n], right, n, p);
    }
  }

  lemma NestedAppend(a: seq<Pair>, b: seq<Pair>, i: nat)
    requires NestedOrder(a) && NestedOrder(b)
    requires (forall k :: 0 <= k < |a| ==> a[k].0 < i) && forall k :: 0 <= k < |b| ==> b[k].0 >= i
    ensures NestedOrder(a + b)
  {
  }

  lemma {:induction false} AskedNested(spec: Option<PairSpec>, left: seq<Row>, right: seq<Row>)
    ensures NestedOrder(Asked(spec, left, right))
  {
    if left != [] {
      var n := |left| - 1;
      var (front, more) := (Asked(spec, left[..n], right), RowAsked(spec, left[n], right, n));
      AskedNested(spec, left[..n], right);
      RowAskedExact(spec, left[n], right, n, (n, 0));
      forall k | 0 <= k < |front| ensures front[k].0 < n {
        AskedMembers(spec, left[..n], right, front[k]);
      }
      forall k | 0 <= k < |more| ensures more[k].0 >= n {
        RowAskedExact(spec, left[n], right, n, more[k]);
      }
      NestedAppend(front, more, n);
    }
  }

  /** The pairs are exactly those whose columns agree and whose rows pass, each once, in nested-loop order. */
  lemma MatchingExact(spec: PairSpec, left: seq<Row>, right: seq<Row>)
    ensures forall p: Pair :: p in Matching(spec, left, right) <==> IsAsked(Some(spec), left, right, p)
    ensures NestedOrder(Matching(spec, left, right))
  {
    MatchingAsked(spec, left, right);
    AskedNested(Some(spec), left, right);
    forall p: Pair ensures p in Matching(spec, left, right) <==> IsAsked(Some(spec), left, right, p) {
      AskedMembers(Some(spec), left, right, p);
    }
  }
}
