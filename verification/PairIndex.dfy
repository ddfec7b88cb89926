/** Row groups over a sorted key column, and the members a pair table allows
    (`quail/catalog/pairs.py`). */
module PairIndex {
  import opened Common
  import opened Sorting
  import opened Permutations

  /** The subsequence of rows whose key is k, in input order. */
  function RowsWith(keys: seq<int>, rows: seq<int>, k: int): (r: seq<int>)
    requires |keys| == |rows|
  {
    if keys == [] then
      []
    else
      var n := |keys| - 1;
      RowsWith(keys[..n], rows[..n], k) + (if keys[n] == k then [rows[n]] else [])
  }

  /** The rows of each supplied key in turn, repeats included. */
  function RowsOfAll(keys: seq<int>, rows: seq<int>, wanted: seq<int>): seq<int>
    requires |keys| == |rows|
  {
    if wanted == [] then
      []
    else
      var n := |wanted| - 1;
      RowsOfAll(keys, rows, wanted[..n]) + RowsWith(keys, rows, wanted[n])
  }

  /** The indices below n with key k. */
  function IndicesWith(keys: seq<int>, k: int, n: nat): (r: seq<int>)
    requires n <= |keys|
    ensures Within(r, n)
  {
    if n == 0 then [] else IndicesWith(keys, k, n - 1) + (if keys[n - 1] == k then [n - 1] else [])
  }

  lemma {:induction false} HavingIota(keys: seq<int>, k: int, n: nat)
    requires n <= |keys|
    ensures Having(Iota(n), KeyOf(keys), (k, 0)) == IndicesWith(keys, k, n)
  {
    if n > 0 {
      HavingIota(keys, k, n - 1);
      assert Iota(n) == Iota(n - 1) + [n - 1];
      HavingAppend(Iota(n - 1), n - 1, KeyOf(keys), (k, 0));
    }
  }

  /** The rows of the indices with key k are the rows with key k. */
  lemma {:induction false} GatherIndices(keys: seq<int>, rows: seq<int>, k: int, n: nat)
    requires |keys| == |rows| && n <= |keys|
    ensures Gather(rows, IndicesWith(keys, k, n)) == RowsWith(keys[..n], rows[..n], k)
  {
    if n > 0 {
      GatherIndices(keys, rows, k, n - 1);
      assert keys[..n][..n - 1] == keys[..n - 1] && rows[..n][..n - 1] == rows[..n - 1];
    }
  }

  /** The positions where a sorted column starts a new value. */
  function Starts(sorted: seq<int>): (r: seq<nat>)
    ensures forall p :: 0 <= p < |r| ==> r[p] < |sorted|
  {
    if sorted == [] then
      []
    else
      var n := |sorted| - 1;
      Starts(sorted[..n]) + (if n == 0 || sorted[n] != sorted[n - 1] then [n] else [])
  }

  function EndOf(starts: seq<nat>, p: nat, n: nat): nat
    requires p < |starts|
  {
    if p + 1 < |starts| then starts[p + 1] else n
  }

  ghost predicate Ascends(s: seq<int>) {
    forall i, j :: 0 <= i < j < |s| ==> s[i] <= s[j]
  }

  /** Group p holds exactly the positions with its value. */
  ghost predicate IsGroup(sorted: seq<int>, starts: seq<nat>, p: nat)
    requires p < |starts|
  {
    && starts[p] < EndOf(starts, p, |sorted|) <= |sorted|
    && forall j :: 0 <= j < |sorted| ==> (sorted[j] == sorted[starts[p]] <==> starts[p] <= j < EndOf(starts, p, |sorted|))
  }

  ghost predicate HasValue(sorted: seq<int>, starts: seq<nat>, v: int) {
    exists p :: 0 <= p < |starts| && starts[p] < |sorted| && sorted[starts[p]] == v
  }

  lemma {:induction false} StartsGroup(sorted: seq<int>)
    requires Ascends(sorted)
    ensures Grouped(sorted, Starts(sorted))
  {
    if sorted == [] {
      assert Starts(sorted) == [];
    } else {
      var n := |sorted| - 1;
      StartsGroup(sorted[..n]);
      assert sorted[..n] + [sorted[n]] == sorted;
      StartsNext(sorted[..n], sorted[n]);
    }
  }

  lemma StartsAppend(front: seq<int>, v: int)
    ensures Starts(front + [v])
      == if front == [] || v != front[|front| - 1] then Starts(front) + [|front|] else Starts(front)
  {
    var (sorted, n) := (front + [v], |front|);
    assert sorted[..n] == front && sorted[n] == v;
    if n > 0 {
      assert sorted[n - 1] == front[n - 1];
    }
  }

  lemma StartsNext(front: seq<int>, v: int)
    requires Grouped(front, Starts(front)) && (front != [] ==> front[|front| - 1] <= v)
    ensures Grouped(front + [v], Starts(front + [v]))
  {
    StartsAppend(front, v);
    if front == [] || v != front[|front| - 1] {
      NewGroup(front, Starts(front), v);
    } else {
      GrowGroup(front, Starts(front), v);
    }
  }

  /** Groups cover a sorted column, one for each of its values. */
  ghost predicate Grouped(sorted: seq<int>, starts: seq<nat>) {
    && Ascends(sorted) && (sorted != [] ==> starts != [])
    && (forall p :: 0 <= p < |starts| ==> IsGroup(sorted, starts, p))
    && (forall j :: 0 <= j < |sorted| ==> HasValue(sorted, starts, sorted[j]))
  }

  lemma NewGroup(sorted: seq<int>, starts: seq<nat>, v: int)
    requires Grouped(sorted, starts) && (sorted != [] ==> sorted[|sorted| - 1] < v)
    ensures Grouped(sorted + [v], starts + [|sorted|])
  {
    var (s, st) := (sorted + [v], starts + [|sorted|]);
    forall p | 0 <= p < |st| ensures IsGroup(s, st, p) {
      if p < |starts| {
        assert IsGroup(sorted, starts, p);
      }
    }
    forall j | 0 <= j < |s| ensures HasValue(s, st, s[j]) {
      ValueKept(sorted, starts, v, st, j);
    }
  }

  lemma ValueKept(sorted: seq<int>, starts: seq<nat>, v: int, st: seq<nat>, j: nat)
    requires Grouped(sorted, starts) && j <= |sorted| && starts <= st
    requires j == |sorted| ==> HasValue(sorted, starts, v) || st == starts + [|sorted|]
    ensures HasValue(sorted + [v], st, (sorted + [v])[j])
  {
    var s := sorted + [v];
    if j == |sorted| && !HasValue(sorted, starts, v) {
      assert st[|starts|] == |sorted|;
    } else {
      assert HasValue(sorted, starts, s[j]);
      var p :| 0 <= p < |starts| && starts[p] < |sorted| && sorted[starts[p]] == s[j];
      assert st[p] == starts[p];
    }
  }

  lemma GrowGroup(sorted: seq<int>, starts: seq<nat>, v: int)
    requires Grouped(sorted, starts) && sorted != [] && sorted[|sorted| - 1] == v
    ensures Grouped(sorted + [v], starts)
  {
    var s := sorted + [v];
    forall p | 0 <= p < |starts| ensures IsGroup(s, starts, p) {
      assert IsGroup(sorted, starts, p);
      if p + 1 < |starts| {
        assert IsGroup(sorted, starts, p + 1);
      }
      assert sorted[|sorted| - 1] == sorted[starts[p]] <==> |sorted| - 1 < EndOf(starts, p, |sorted|);
    }
    forall j | 0 <= j < |s| ensures HasValue(s, starts, s[j]) {
      ValueKept(sorted, starts, v, starts, j);
    }
  }

  /** `np.searchsorted`: how many keys come before k. */
  function SearchSorted(keys: seq<int>, k: int): (r: nat)
    ensures r <= |keys|
    ensures forall i :: 0 <= i < r ==> keys[i] < k
    ensures r < |keys| ==> keys[r] >= k
  {
    if keys == [] || keys[0] >= k then 0 else 1 + SearchSorted(keys[1..], k)
  }

  /** Among increasing keys, the position found holds the key exactly when some position does. */
  lemma SearchFinds(keys: seq<int>, k: int)
    requires Increasing(keys)
    ensures k in keys <==> SearchSorted(keys, k) < |keys| && keys[SearchSorted(keys, k)] == k
  {
    var p := SearchSorted(keys, k);
    if k in keys {
      var i :| 0 <= i < |keys| && keys[i] == k;
      assert p <= i;
    }
  }

  /** The arrays of a `RowGroups` built from the columns `keys` and `rows`. */
  ghost predicate GroupsOf(groupKeys: seq<int>, offsets: seq<nat>, grouped: seq<int>, keys: seq<int>, rows: seq<int>) {
    && |keys| == |rows| && Increasing(groupKeys) && |offsets| == |groupKeys| + 1
    && (forall k :: k in groupKeys <==> k in keys)
    && (forall p :: 0 <= p < |groupKeys| ==> GroupHolds(groupKeys, offsets, grouped, keys, rows, p))
  }

  ghost predicate GroupHolds(groupKeys: seq<int>, offsets: seq<nat>, grouped: seq<int>, keys: seq<int>, rows: seq<int>, p: nat)
    requires |keys| == |rows| && |offsets| == |groupKeys| + 1 && p < |groupKeys|
  {
    && offsets[p] <= offsets[p + 1] <= |grouped|
    && grouped[offsets[p]..offsets[p + 1]] == RowsWith(keys, rows, groupKeys[p])
  }

  /** In the sorted order, the positions from lo to hi of one key hold that key's indices. */
  lemma SliceIndices(keys: seq<int>, k: int, lo: nat, hi: nat)
    requires lo <= hi <= |keys|
    requires forall j :: 0 <= j < |keys| ==> (keys[ArgSort(keys)[j]] == k <==> lo <= j < hi)
    ensures ArgSort(keys)[lo..hi] == IndicesWith(keys, k, |keys|)
  {
    SortByStable(Iota(|keys|), KeyOf(keys), (k, 0));
    HavingSlice(ArgSort(keys), KeyOf(keys), (k, 0), lo, hi);
    HavingIota(keys, k, |keys|);
  }

  lemma SliceHolds(keys: seq<int>, rows: seq<int>, k: int, lo: nat, hi: nat)
    requires |keys| == |rows| && lo <= hi <= |keys|
    requires forall j :: 0 <= j < |keys| ==> (keys[ArgSort(keys)[j]] == k <==> lo <= j < hi)
    ensures Gather(rows, ArgSort(keys))[lo..hi] == RowsWith(keys, rows, k)
  {
    SliceIndices(keys, k, lo, hi);
    GatherIndices(keys, rows, k, |keys|);
    assert keys[..|keys|] == keys && rows[..|keys|] == rows;
    GatherSlice(rows, ArgSort(keys), lo, hi);
  }

  lemma GatherSlice(values: seq<int>, at: seq<int>, lo: nat, hi: nat)
    requires Within(at, |values|) && lo <= hi <= |at|
    ensures Within(at[lo..hi], |values|) && Gather(values, at)[lo..hi] == Gather(values, at[lo..hi])
  {
  }

  lemma GroupsBuilt(keys: seq<int>, rows: seq<int>, sorted: seq<int>, starts: seq<nat>)
    requires |keys| == |rows| && sorted == Gather(keys, ArgSort(keys)) && starts == Starts(sorted)
    ensures Within(starts, |sorted|)
    ensures GroupsOf(Gather(sorted, starts), starts + [|keys|], Gather(rows, ArgSort(keys)), keys, rows)
  {
    StartsGroup(sorted);
    var groupKeys := Gather(sorted, starts);
    forall p | 0 <= p < |groupKeys|
      ensures GroupHolds(groupKeys, starts + [|keys|], Gather(rows, ArgSort(keys)), keys, rows, p)
    {
      GroupBuilt(keys, rows, sorted, starts, p);
    }
    GroupKeysIncrease(sorted, starts, groupKeys);
    forall k ensures k in groupKeys <==> k in keys {
      GroupKeyOccurs(keys, sorted, starts, groupKeys, k);
    }
  }

  lemma GroupBuilt(keys: seq<int>, rows: seq<int>, sorted: seq<int>, starts: seq<nat>, p: nat)
    requires |keys| == |rows| && sorted == Gather(keys, ArgSort(keys)) && Within(starts, |sorted|)
    requires p < |starts| && IsGroup(sorted, starts, p)
    ensures GroupHolds(Gather(sorted, starts), starts + [|keys|], Gather(rows, ArgSort(keys)), keys, rows, p)
  {
    assert forall j :: 0 <= j < |keys| ==> sorted[j] == keys[ArgSort(keys)[j]];
    SliceHolds(keys, rows, sorted[starts[p]], starts[p], EndOf(starts, p, |keys|));
  }

  lemma GroupKeysIncrease(sorted: seq<int>, starts: seq<nat>, groupKeys: seq<int>)
    requires Grouped(sorted, starts) && Within(starts, |sorted|) && groupKeys == Gather(sorted, starts)
    ensures Increasing(groupKeys)
  {
    forall p, q | 0 <= p < q < |groupKeys| ensures groupKeys[p] < groupKeys[q] {
      StartsApart(sorted, starts, p, q);
      assert IsGroup(sorted, starts, p) && IsGroup(sorted, starts, q);
    }
  }

  lemma {:induction false} StartsApart(sorted: seq<int>, starts: seq<nat>, p: nat, q: nat)
    requires Grouped(sorted, starts) && p < q < |starts|
    ensures EndOf(starts, p, |sorted|) <= starts[q]
  {
    if q > p + 1 {
      StartsApart(sorted, starts, p, q - 1);
      assert IsGroup(sorted, starts, q - 1);
    }
  }

  lemma GroupKeyOccurs(keys: seq<int>, sorted: seq<int>, starts: seq<nat>, groupKeys: seq<int>, k: int)
    requires sorted == Gather(keys, ArgSort(keys)) && Grouped(sorted, starts) && Within(starts, |sorted|)
    requires groupKeys == Gather(sorted, starts)
    ensures k in groupKeys <==> k in keys
  {
    var order := ArgSort(keys);
    if k in groupKeys {
      var p :| 0 <= p < |groupKeys| && groupKeys[p] == k;
      assert sorted[starts[p]] == keys[order[starts[p]]];
    }
    if k in keys {
      var i :| 0 <= i < |keys| && keys[i] == k;
      SameElements(order, Iota(|keys|));
      assert Iota(|keys|)[i] == i;
      assert i in order;
      var j :| 0 <= j < |order| && order[j] == i;
      assert HasValue(sorted, starts, sorted[j]);
      var p :| 0 <= p < |starts| && starts[p] < |sorted| && sorted[starts[p]] == k;
      assert groupKeys[p] == k;
    }
  }

  /** `np.cumsum` */
  function CumSum(counts: seq<int>): (r: seq<int>)
    ensures |r| == |counts|
  {
    if counts == [] then
      []
    else
      var n := |counts| - 1;
      var before := CumSum(counts[..n]);
      before + [(if n == 0 then 0 else before[n - 1]) + counts[n]]
  }

  /** `np.repeat` */
  function Repeat(values: seq<int>, counts: seq<nat>): (r: seq<int>)
    requires |values| == |counts|
    ensures |r| == Sum(counts)
  {
    if values == [] then
      []
    else
      var n := |values| - 1;
      Repeat(values[..n], counts[..n]) + seq(counts[n], _ => values[n])
  }

  /** `s + np.arange(len(s))` */
  function AddRange(s: seq<int>): (r: seq<int>)
    ensures |r| == |s|
  {
    seq(|s|, g requires 0 <= g < |s| => s[g] + g)
  }

  /** `starts - ends + counts`, with `ends` the running total of the counts. */
  function BlockShifts(starts: seq<nat>, counts: seq<nat>): (r: seq<int>)
    requires |starts| == |counts|
    ensures |r| == |starts|
  {
    var ends := CumSum(counts);
    seq(|starts|, i requires 0 <= i < |starts| => starts[i] - ends[i] + counts[i])
  }

  function Ranges(starts: seq<nat>, counts: seq<nat>): seq<int>
    requires |starts| == |counts|
  {
    if starts == [] then
      []
    else
      var n := |starts| - 1;
      Ranges(starts[..n], counts[..n]) + seq(counts[n], j => starts[n] + j)
  }

  lemma {:induction false} CumSumTotal(counts: seq<nat>)
    ensures counts != [] ==> CumSum(counts)[|counts| - 1] == Sum(counts)
  {
    if counts != [] {
      CumSumTotal(counts[..|counts| - 1]);
    }
  }

  /** The repeat and cumulative-sum gather lists the positions of each block in turn. */
  lemma {:induction false} GatherPositions(starts: seq<nat>, counts: seq<nat>)
    requires |starts| == |counts|
    ensures AddRange(Repeat(BlockShifts(starts, counts), counts)) == Ranges(starts, counts)
  {
    if starts != [] {
      var n := |starts| - 1;
      var (s, c) := (starts[..n], counts[..n]);
      GatherPositions(s, c);
      CumSumTotal(counts);
      var shifts := BlockShifts(starts, counts);
      assert shifts[..n] == BlockShifts(s, c);
      assert shifts[n] == starts[n] - Sum(c);
      AddRangeBlock(Repeat(BlockShifts(s, c), c), shifts[n], counts[n], starts[n]);
    }
  }

  lemma AddRangeBlock(front: seq<int>, shift: int, count: nat, start: nat)
    requires shift == start - |front|
    ensures AddRange(front + seq(count, _ => shift)) == AddRange(front) + seq(count, j => start + j)
  {
  }

  /** `s[mask]` */
  function Masked<T>(s: seq<T>, mask: seq<bool>): (r: seq<T>)
    requires |mask| == |s|
    ensures forall x :: x in r ==> x in s
  {
    if s == [] then
      []
    else
      var n := |s| - 1;
      Masked(s[..n], mask[..n]) + (if mask[n] then [s[n]] else [])
  }

  function Positions(keys: seq<int>, wanted: seq<int>): seq<nat> {
    seq(|wanted|, i requires 0 <= i < |wanted| => SearchSorted(keys, wanted[i]))
  }

  /** Whether each position lies before the end of the keys. */
  function Before(positions: seq<nat>, n: nat): seq<bool> {
    seq(|positions|, i requires 0 <= i < |positions| => positions[i] < n)
  }

  /** Whether each position holds the key wanted there. */
  function Hits(keys: seq<int>, positions: seq<nat>, wanted: seq<int>): seq<bool>
    requires |positions| == |wanted|
  {
    seq(|positions|, i requires 0 <= i < |positions| => positions[i] < |keys| && keys[positions[i]] == wanted[i])
  }

  /** The group positions of the wanted keys that have a group, repeats included. */
  function Found(keys: seq<int>, wanted: seq<int>): (r: seq<nat>)
    ensures forall j :: 0 <= j < |r| ==> r[j] < |keys|
  {
    if wanted == [] then
      []
    else
      var n := |wanted| - 1;
      var p := SearchSorted(keys, wanted[n]);
      Found(keys, wanted[..n]) + (if p < |keys| && keys[p] == wanted[n] then [p] else [])
  }

  lemma {:induction false} MaskedLengths<S, T>(s: seq<S>, t: seq<T>, mask: seq<bool>)
    requires |s| == |t| == |mask|
    ensures |Masked(s, mask)| == |Masked(t, mask)|
  {
    if s != [] {
      MaskedLengths(s[..|s| - 1], t[..|t| - 1], mask[..|mask| - 1]);
    }
  }

  /** Dropping the positions past the end, then those that miss, leaves the positions found. */
  lemma {:induction false} MaskedFound(keys: seq<int>, wanted: seq<int>)
    ensures var positions := Positions(keys, wanted);
      var valid := Before(positions, |keys|);
      && |Masked(positions, valid)| == |Masked(wanted, valid)|
      && Masked(Masked(positions, valid), Hits(keys, Masked(positions, valid), Masked(wanted, valid))) == Found(keys, wanted)
  {
    var positions := Positions(keys, wanted);
    var valid := Before(positions, |keys|);
    MaskedLengths(positions, wanted, valid);
    if wanted != [] {
      var n := |wanted| - 1;
      MaskedFound(keys, wanted[..n]);
      assert positions[..n] == Positions(keys, wanted[..n]);
      assert valid[..n] == Before(positions[..n], |keys|);
      var (ps, ws) := (Masked(positions[..n], valid[..n]), Masked(wanted[..n], valid[..n]));
      if valid[n] {
        MaskedHits(keys, ps, ws, positions[n], wanted[n]);
      } else {
        assert Masked(positions, valid) == ps && Masked(wanted, valid) == ws;
      }
    }
  }

  lemma MaskedHits(keys: seq<int>, ps: seq<nat>, ws: seq<int>, p: nat, w: int)
    requires |ps| == |ws|
    ensures Masked(ps + [p], Hits(keys, ps + [p], ws + [w]))
      == Masked(ps, Hits(keys, ps, ws)) + (if p < |keys| && keys[p] == w then [p] else [])
  {
    var hits := Hits(keys, ps + [p], ws + [w]);
    assert hits[..|ps|] == Hits(keys, ps, ws);
    assert (ps + [p])[..|ps|] == ps;
  }

  ghost predicate BlockAt(offsets: seq<nat>, n: nat, p: nat) {
    p + 1 < |offsets| && offsets[p] <= offsets[p + 1] <= n
  }

  /** The rows of one group. */
  ghost function Block(offsets: seq<nat>, rows: seq<int>, p: nat): seq<int>
    requires BlockAt(offsets, |rows|, p)
  {
    rows[offsets[p]..offsets[p + 1]]
  }

  ghost predicate BlocksWithin(offsets: seq<nat>, n: nat, positions: seq<nat>) {
    forall j :: 0 <= j < |positions| ==> BlockAt(offsets, n, positions[j])
  }

  /** The rows of the groups at some positions. */
  ghost function BlockRows(offsets: seq<nat>, rows: seq<int>, positions: seq<nat>): seq<int>
    requires BlocksWithin(offsets, |rows|, positions)
  {
    if positions == [] then
      []
    else
      var n := |positions| - 1;
      BlockRows(offsets, rows, positions[..n]) + Block(offsets, rows, positions[n])
  }

  lemma BlockRowsAppend(offsets: seq<nat>, rows: seq<int>, positions: seq<nat>, p: nat)
    requires BlocksWithin(offsets, |rows|, positions) && BlockAt(offsets, |rows|, p)
    ensures BlocksWithin(offsets, |rows|, positions + [p])
    ensures BlockRows(offsets, rows, positions + [p]) == BlockRows(offsets, rows, positions) + Block(offsets, rows, p)
  {
    assert (positions + [p])[..|positions|] == positions;
  }

  /** The rows of the groups found are the rows of the wanted keys, in order, missing keys included. */
  lemma {:induction false} FoundRows(groupKeys: seq<int>, offsets: seq<nat>, grouped: seq<int>,
                                     keys: seq<int>, rows: seq<int>, wanted: seq<int>)
    requires GroupsOf(groupKeys, offsets, grouped, keys, rows)
    ensures BlocksWithin(offsets, |grouped|, Found(groupKeys, wanted))
    ensures BlockRows(offsets, grouped, Found(groupKeys, wanted)) == RowsOfAll(keys, rows, wanted)
  {
    if wanted != [] {
      var n := |wanted| - 1;
      FoundRows(groupKeys, offsets, grouped, keys, rows, wanted[..n]);
      OneFound(groupKeys, offsets, grouped, keys, rows, wanted[n]);
      FoundNext(groupKeys, offsets, grouped, keys, rows, wanted);
    }
  }

  lemma FoundNext(groupKeys: seq<int>, offsets: seq<nat>, grouped: seq<int>, keys: seq<int>, rows: seq<int>, wanted: seq<int>)
    requires wanted != [] && |keys| == |rows|
    requires var front := wanted[..|wanted| - 1];
      && BlocksWithin(offsets, |grouped|, Found(groupKeys, front))
      && BlockRows(offsets, grouped, Found(groupKeys, front)) == RowsOfAll(keys, rows, front)
    requires HoldsRows(groupKeys, offsets, grouped, keys, rows, wanted[|wanted| - 1])
    ensures BlocksWithin(offsets, |grouped|, Found(groupKeys, wanted))
    ensures BlockRows(offsets, grouped, Found(groupKeys, wanted)) == RowsOfAll(keys, rows, wanted)
  {
    var (front, k) := (wanted[..|wanted| - 1], wanted[|wanted| - 1]);
    var p := SearchSorted(groupKeys, k);
    if p < |groupKeys| && groupKeys[p] == k {
      BlockRowsAppend(offsets, grouped, Found(groupKeys, front), p);
    } else {
      assert Found(groupKeys, wanted) == Found(groupKeys, front);
    }
  }

  ghost predicate HoldsRows(groupKeys: seq<int>, offsets: seq<nat>, grouped: seq<int>, keys: seq<int>, rows: seq<int>, k: int)
    requires |keys| == |rows|
  {
    var p := SearchSorted(groupKeys, k);
    if p < |groupKeys| && groupKeys[p] == k then
      BlockAt(offsets, |grouped|, p) && Block(offsets, grouped, p) == RowsWith(keys, rows, k)
    else
      RowsWith(keys, rows, k) == []
  }

  lemma OneFound(groupKeys: seq<int>, offsets: seq<nat>, grouped: seq<int>, keys: seq<int>, rows: seq<int>, k: int)
    requires GroupsOf(groupKeys, offsets, grouped, keys, rows)
    ensures HoldsRows(groupKeys, offsets, grouped, keys, rows, k)
  {
    var p := SearchSorted(groupKeys, k);
    SearchFinds(groupKeys, k);
    NoRows(keys, rows, k);
    if p < |groupKeys| && groupKeys[p] == k {
      assert GroupHolds(groupKeys, offsets, grouped, keys, rows, p);
    }
  }

  lemma {:induction false} NoRows(keys: seq<int>, rows: seq<int>, k: int)
    requires |keys| == |rows|
    ensures k !in keys ==> RowsWith(keys, rows, k) == []
  {
    if keys != [] {
      NoRows(keys[..|keys| - 1], rows[..|keys| - 1], k);
    }
  }

  /** The first position of a group, and how many rows it has. */
  ghost predicate Spans(offsets: seq<nat>, n: nat, p: nat, start: nat, count: nat) {
    BlockAt(offsets, n, p) && start == offsets[p] && count == offsets[p + 1] - offsets[p]
  }

  /** Gathering the positions of each block lists each block's rows. */
  lemma {:induction false} RangesRows(offsets: seq<nat>, rows: seq<int>, positions: seq<nat>, starts: seq<nat>, counts: seq<nat>)
    requires |starts| == |counts| == |positions| && BlocksWithin(offsets, |rows|, positions)
    requires forall j :: 0 <= j < |positions| ==> Spans(offsets, |rows|, positions[j], starts[j], counts[j])
    ensures Within(Ranges(starts, counts), |rows|)
    ensures Gather(rows, Ranges(starts, counts)) == BlockRows(offsets, rows, positions)
  {
    if positions != [] {
      var n := |positions| - 1;
      forall j | 0 <= j < n ensures Spans(offsets, |rows|, positions[..n][j], starts[..n][j], counts[..n][j]) {
        assert Spans(offsets, |rows|, positions[j], starts[j], counts[j]);
      }
      RangesRows(offsets, rows, positions[..n], starts[..n], counts[..n]);
      RangesNext(offsets, rows, positions, starts, counts);
    }
  }

  lemma RangesNext(offsets: seq<nat>, rows: seq<int>, positions: seq<nat>, starts: seq<nat>, counts: seq<nat>)
    requires |starts| == |counts| == |positions| > 0 && BlocksWithin(offsets, |rows|, positions)
    requires var n := |positions| - 1;
      && Spans(offsets, |rows|, positions[n], starts[n], counts[n])
      && Within(Ranges(starts[..n], counts[..n]), |rows|)
      && BlocksWithin(offsets, |rows|, positions[..n])
      && Gather(rows, Ranges(starts[..n], counts[..n])) == BlockRows(offsets, rows, positions[..n])
    ensures Within(Ranges(starts, counts), |rows|)
    ensures Gather(rows, Ranges(starts, counts)) == BlockRows(offsets, rows, positions)
  {
    var n := |positions| - 1;
    GatherRange(rows, Ranges(starts[..n], counts[..n]), starts[n], counts[n]);
  }

  lemma GatherRange(rows: seq<int>, at: seq<int>, start: nat, count: nat)
    requires Within(at, |rows|) && start + count <= |rows|
    ensures Within(at + seq(count, j => start + j), |rows|)
    ensures Gather(rows, at + seq(count, j => start + j)) == Gather(rows, at) + rows[start..start + count]
  {
  }

  /** A view of one key's rows, and the rows of many keys at once. */
  class RowGroups {
    const keys: seq<int>
    const offsets: seq<nat>
    const rows: seq<int>
    ghost const givenKeys: seq<int>
    ghost const givenRows: seq<int>

    ghost predicate Valid() {
      GroupsOf(keys, offsets, rows, givenKeys, givenRows)
    }

    constructor (keys: seq<int>, rows: seq<int>)
      requires |keys| == |rows|
      ensures Valid() && givenKeys == keys && givenRows == rows
    {
      var order := ArgSort(keys);
      var sortedKeys := Gather(keys, order);
      var starts := Starts(sortedKeys);
      GroupsBuilt(keys, rows, sortedKeys, starts);
      this.keys := Gather(sortedKeys, starts);
      this.offsets := starts + [|keys|];
      this.rows := Gather(rows, order);
      this.givenKeys, this.givenRows := keys, rows;
    }

    /** `get`: one key's rows in input order, or the default when no row has the key. */
    method Get(key: int, default: seq<int>) returns (r: seq<int>)
      requires Valid()
      ensures r == if key in givenKeys then RowsWith(givenKeys, givenRows, key) else default
    {
      var position := SearchSorted(keys, key);
      SearchFinds(keys, key);
      if position == |keys| || keys[position] != key {
        return default;
      }
      assert GroupHolds(keys, offsets, rows, givenKeys, givenRows, position);
      r := rows[offsets[position]..offsets[position + 1]];
    }

    /** `take`: the rows for each supplied key, including repeated and missing keys. */
    method Take(wanted: seq<int>) returns (r: seq<int>)
      requires Valid()
      ensures r == RowsOfAll(givenKeys, givenRows, wanted)
    {
      var positions := Positions(keys, wanted);
      var valid := Before(positions, |keys|);
      MaskedFound(keys, wanted);
      var (kept, found) := (Masked(positions, valid), Masked(wanted, valid));
      positions := Masked(kept, Hits(keys, kept, found));
      FoundRows(keys, offsets, rows, givenKeys, givenRows, wanted);
      assert forall i :: 0 <= i < |positions| ==> BlockAt(offsets, |rows|, positions[i]);
      var starts := seq(|positions|, i requires 0 <= i < |positions| => offsets[positions[i]]);
      var counts: seq<nat> := seq(|positions|, i requires 0 <= i < |positions| => offsets[positions[i] + 1] - starts[i]);
      GatherPositions(starts, counts);
      RangesRows(offsets, rows, positions, starts, counts);
      r := Gather(rows, AddRange(Repeat(BlockShifts(starts, counts), counts)));
    }
  }

  /** A pair table's two columns, for one choice of anchor: row i pairs anchors[i] with partners[i]. */
  datatype PairTable = PairTable(anchors: seq<int>, partners: seq<int>) {
    ghost predicate Valid() {
      |anchors| == |partners|
    }

    /** How many rows of the table are this pair. */
    ghost function Count(anchor: int, partner: int): nat
      requires Valid()
    {
      multiset(RowsWith(anchors, partners, anchor))[partner]
    }

    ghost predicate Has(anchor: int, partner: int) {
      exists i :: 0 <= i < |anchors| && i < |partners| && anchors[i] == anchor && partners[i] == partner
    }

    /** No pair is listed twice. */
    ghost predicate Unique() {
      forall i, j :: 0 <= i < j < |anchors| && j < |partners| ==> anchors[i] != anchors[j] || partners[i] != partners[j]
    }
  }

  /** A pair is counted exactly when the table lists it, and once when no pair is listed twice. */
  lemma {:induction false} CountPairs(keys: seq<int>, rows: seq<int>, k: int, x: int)
    requires |keys| == |rows|
    ensures multiset(RowsWith(keys, rows, k))[x] > 0 <==> PairTable(keys, rows).Has(k, x)
    ensures PairTable(keys, rows).Unique() ==> multiset(RowsWith(keys, rows, k))[x] <= 1
  {
    if keys != [] {
      var n := |keys| - 1;
      CountPairs(keys[..n], rows[..n], k, x);
      HasAppend(keys, rows, k, x);
      AppendCounts(RowsWith(keys[..n], rows[..n], k), if keys[n] == k then [rows[n]] else [], x);
    }
  }

  lemma HasAppend(keys: seq<int>, rows: seq<int>, k: int, x: int)
    requires |keys| == |rows| > 0
    ensures var n := |keys| - 1;
      var (table, before) := (PairTable(keys, rows), PairTable(keys[..n], rows[..n]));
      && (table.Has(k, x) <==> before.Has(k, x) || (keys[n] == k && rows[n] == x))
      && (table.Unique() ==> before.Unique() && (keys[n] == k && rows[n] == x ==> !before.Has(k, x)))
  {
  }

  /** Taking the members of some partners counts a member as often as its partner is wanted. */
  lemma {:induction false} CountTaken(keys: seq<int>, wanted: seq<int>, m: int)
    ensures multiset(RowsOfAll(keys, Iota(|keys|), wanted))[m]
      == if 0 <= m < |keys| then multiset(wanted)[keys[m]] else 0
  {
    if wanted != [] {
      var n := |wanted| - 1;
      CountTaken(keys, wanted[..n], m);
      CountAmong(keys, wanted[n], m);
      AppendCounts(RowsOfAll(keys, Iota(|keys|), wanted[..n]), RowsWith(keys, Iota(|keys|), wanted[n]), m);
      if 0 <= m < |keys| {
        LastCounts(wanted, keys[m]);
      }
    }
  }

  lemma AppendCounts<T>(a: seq<T>, b: seq<T>, x: T)
    ensures multiset(a + b)[x] == multiset(a)[x] + multiset(b)[x]
  {
  }

  lemma LastCounts<T>(s: seq<T>, x: T)
    requires s != []
    ensures multiset(s)[x] == multiset(s[..|s| - 1])[x] + if s[|s| - 1] == x then 1 else 0
  {
    assert s == s[..|s| - 1] + [s[|s| - 1]];
  }

  lemma CountAmong(keys: seq<int>, k: int, m: int)
    ensures multiset(RowsWith(keys, Iota(|keys|), k))[m] == if 0 <= m < |keys| && keys[m] == k then 1 else 0
  {
    CountMember(keys, k, |keys|, m);
    assert keys[..|keys|] == keys && Iota(|keys|)[..|keys|] == Iota(|keys|);
  }

  lemma {:induction false} CountMember(keys: seq<int>, k: int, n: nat, m: int)
    requires n <= |keys|
    ensures multiset(RowsWith(keys[..n], Iota(|keys|)[..n], k))[m] == if 0 <= m < n && keys[m] == k then 1 else 0
  {
    if n > 0 {
      CountMember(keys, k, n - 1, m);
      assert keys[..n][..n - 1] == keys[..n - 1];
      assert Iota(|keys|)[..n][..n - 1] == Iota(|keys|)[..n - 1];
    }
  }

  /** The members of one position. */
  function MemberColumn(members: seq<seq<int>>, position: nat): (r: seq<int>)
    requires forall m :: 0 <= m < |members| ==> position < |members[m]|
    ensures |r| == |members|
  {
    seq(|members|, m requires 0 <= m < |members| => members[m][position])
  }

  /** `allowed_members`: the sorted indices of the members one anchor's pair rows allow, each as
      often as the table lists its pair. */
  method AllowedMembers(rows: RowGroups, byPartner: RowGroups, ghost pairs: PairTable, ghost column: seq<int>, anchor: int)
    returns (r: seq<int>)
    requires pairs.Valid() && rows.Valid() && rows.givenKeys == pairs.anchors && rows.givenRows == pairs.partners
    requires byPartner.Valid() && byPartner.givenKeys == column && byPartner.givenRows == Iota(|column|)
    ensures Ascends(r)
    ensures forall m :: multiset(r)[m] == if 0 <= m < |column| then pairs.Count(anchor, column[m]) else 0
  {
    var mine := rows.Get(anchor, []);
    NoRows(pairs.anchors, pairs.partners, anchor);
    var taken := byPartner.Take(mine);
    forall m ensures multiset(taken)[m] == if 0 <= m < |column| then pairs.Count(anchor, column[m]) else 0 {
      CountTaken(column, mine, m);
    }
    r := SortInts(taken);
  }

  /** What one anchor is asked about: member indices in order, each as often as the table lists its pair. */
  ghost predicate Allows(pairs: PairTable, column: seq<int>, anchor: int, mine: seq<int>)
    requires pairs.Valid()
  {
    && Ascends(mine)
    && forall m: int :: multiset(mine)[m] == if 0 <= m < |column| then pairs.Count(anchor, column[m]) else 0
  }

  /** From a table without repeats: exactly the members whose pair it lists, once each. */
  lemma AllowedOnce(pairs: PairTable, column: seq<int>, anchor: int, mine: seq<int>)
    requires pairs.Valid() && pairs.Unique() && Allows(pairs, column, anchor, mine)
    ensures Increasing(mine)
    ensures forall m: int :: m in mine <==> 0 <= m < |column| && pairs.Has(anchor, column[m])
  {
    forall m: int ensures m in mine <==> 0 <= m < |column| && pairs.Has(anchor, column[m]) {
      assert m in mine <==> multiset(mine)[m] > 0;
      if 0 <= m < |column| {
        CountPairs(pairs.anchors, pairs.partners, anchor, column[m]);
      }
    }
    forall m: int ensures multiset(mine)[m] <= 1 {
      if 0 <= m < |column| {
        CountPairs(pairs.anchors, pairs.partners, anchor, column[m]);
      }
    }
    OnceIncreasing(mine);
  }

  /** A sorted sequence without repeats increases. */
  lemma OnceIncreasing(r: seq<int>)
    requires Ascends(r) && forall m: int :: multiset(r)[m] <= 1
    ensures Increasing(r)
  {
    forall i, j | 0 <= i < j < |r| ensures r[i] < r[j] {
      if r[i] == r[j] {
        CountedTwice(r, i, j);
      }
    }
  }

  /** `allowed_members_by_anchor`: for each anchor, the members its pairs allow. */
  method AllowedMembersByAnchor(anchorIds: seq<int>, members: seq<seq<int>>, position: nat, pairs: PairTable)
    returns (allowed: seq<seq<int>>)
    requires pairs.Valid()
    requires forall m :: 0 <= m < |members| ==> position < |members[m]|
    ensures |allowed| == |anchorIds|
    ensures forall a :: 0 <= a < |anchorIds| ==> Allows(pairs, MemberColumn(members, position), anchorIds[a], allowed[a])
  {
    var column := MemberColumn(members, position);
    var byPartner := new RowGroups(column, Iota(|members|));
    var rows := new RowGroups(pairs.anchors, pairs.partners);
    allowed := [];
    for a := 0 to |anchorIds|
      invariant |allowed| == a
      invariant forall b :: 0 <= b < a ==> Allows(pairs, column, anchorIds[b], allowed[b])
    {
      var mine := AllowedMembers(rows, byPartner, pairs, column, anchorIds[a]);
      allowed := allowed + [mine];
    }
  }
}
