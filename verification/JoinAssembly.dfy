/** One join of a request query: its rows, its answers, and who survives it (`_execute_joins`). */
module JoinAssembly {
  import opened Common
  import opened Prompts
  import opened Requests
  import opened DecisionClient
  import opened Sorting
  import opened PairIndex
  import opened JoinRequests
  import opened JoinRows

  /** The row of a pair of indices. */
  function RowAt(spec: JoinSpec, anchorIds: seq<int>, members: seq<seq<int>>, pair: Pair): seq<int>
    requires Members(spec, members) && pair.0 < |anchorIds| && pair.1 < |members|
  {
    RowOf(spec, anchorIds[pair.0], members[pair.1])
  }

  ghost predicate RowsOfPairs(spec: JoinSpec, anchorIds: seq<int>, members: seq<seq<int>>, pairs: seq<Pair>,
                              rows: seq<seq<int>>)
    requires Members(spec, members) && PairsWithin(pairs, |anchorIds|, |members|)
  {
    && |rows| == |pairs|
    && forall i :: 0 <= i < |pairs| ==> rows[i] == RowAt(spec, anchorIds, members, pairs[i])
  }

  ghost predicate MineWithin(mine: seq<seq<nat>>, members: nat) {
    forall a, i :: 0 <= a < |mine| && 0 <= i < |mine[a]| ==> mine[a][i] < members
  }

  lemma RowsAppend(spec: JoinSpec, anchorIds: seq<int>, members: seq<seq<int>>, pairs: seq<Pair>, rows: seq<seq<int>>,
                   more: seq<Pair>, moreRows: seq<seq<int>>)
    requires Members(spec, members)
    requires PairsWithin(pairs, |anchorIds|, |members|) && RowsOfPairs(spec, anchorIds, members, pairs, rows)
    requires PairsWithin(more, |anchorIds|, |members|) && RowsOfPairs(spec, anchorIds, members, more, moreRows)
    ensures PairsWithin(pairs + more, |anchorIds|, |members|)
    ensures RowsOfPairs(spec, anchorIds, members, pairs + more, rows + moreRows)
  {
  }

  /** One anchor's rows. */
  method OwnRows(spec: JoinSpec, anchorIds: seq<int>, members: seq<seq<int>>, mine: seq<nat>, a: nat)
    returns (rows: seq<seq<int>>)
    requires Members(spec, members) && a < |anchorIds| && IndicesWithin(mine, |members|)
    ensures PairsWithin(PairsOf(a, mine), |anchorIds|, |members|)
    ensures RowsOfPairs(spec, anchorIds, members, PairsOf(a, mine), rows)
    ensures rows == RowsAt(spec, anchorIds[a], members, mine)
  {
    rows := [];
    for i := 0 to |mine|
      invariant |rows| == i
      invariant forall j :: 0 <= j < i ==> rows[j] == RowAt(spec, anchorIds, members, (a, mine[j]))
    {
      rows := rows + [RowOf(spec, anchorIds[a], members[mine[i]])];
    }
  }

  ghost predicate IndicesWithin(mine: seq<nat>, n: nat) {
    forall i :: 0 <= i < |mine| ==> mine[i] < n
  }

  /** The rows of one anchor document and the members at some indices. */
  ghost function RowsAt(spec: JoinSpec, document: int, members: seq<seq<int>>, mine: seq<nat>): seq<seq<int>>
    requires Members(spec, members) && IndicesWithin(mine, |members|)
  {
    seq(|mine|, i requires 0 <= i < |mine| => RowOf(spec, document, members[mine[i]]))
  }

  /** The rows, anchor by anchor: row i is that of pair i. */
  method BuildRows(spec: JoinSpec, anchorIds: seq<int>, members: seq<seq<int>>, mine: seq<seq<nat>>,
                   ghost pairs: Option<PairTable>)
    returns (rows: seq<seq<int>>)
    requires Members(spec, members) && (pairs.Some? ==> pairs.value.Valid())
    requires MineAllowed(spec, anchorIds, members, pairs, mine) && MineWithin(mine, |members|)
    ensures PairsWithin(Enumerate(mine), |anchorIds|, |members|)
    ensures RowsOfPairs(spec, anchorIds, members, Enumerate(mine), rows)
    ensures rows == RowsOf(spec, anchorIds, members, pairs)
  {
    rows := [];
    for a := 0 to |anchorIds|
      invariant PairsWithin(Enumerate(mine[..a]), |anchorIds|, |members|)
      invariant RowsOfPairs(spec, anchorIds, members, Enumerate(mine[..a]), rows)
      invariant rows == RowsOf(spec, anchorIds[..a], members, pairs)
    {
      var own := OwnRows(spec, anchorIds, members, mine[a], a);
      RowsAppend(spec, anchorIds, members, Enumerate(mine[..a]), rows, PairsOf(a, mine[a]), own);
      OwnRowsAre(spec, anchorIds[a], members, pairs, mine[a]);
      assert mine[..a + 1][..a] == mine[..a] && anchorIds[..a + 1][..a] == anchorIds[..a];
      rows := rows + own;
    }
    assert mine[..|mine|] == mine && anchorIds[..|anchorIds|] == anchorIds;
  }

  /** One anchor's own members: in order, each as often as its pairs allow. */
  ghost predicate Own(members: seq<seq<int>>, pairs: Option<PairTable>, document: int, mine: seq<int>)
    requires pairs.Some? ==> pairs.value.Valid()
  {
    && Ascends(mine)
    && forall s: int :: multiset(mine)[s] == if 0 <= s < |members| then Often(pairs, document, members[s]) else 0
  }

  ghost predicate MineAllowed(spec: JoinSpec, anchorIds: seq<int>, members: seq<seq<int>>, pairs: Option<PairTable>,
                              mine: seq<seq<nat>>)
    requires pairs.Some? ==> pairs.value.Valid()
  {
    |mine| == |anchorIds| && forall a :: 0 <= a < |anchorIds| ==> Own(members, pairs, anchorIds[a], mine[a])
  }

  lemma OwnWithin(members: seq<seq<int>>, pairs: Option<PairTable>, document: int, mine: seq<int>)
    requires (pairs.Some? ==> pairs.value.Valid()) && Own(members, pairs, document, mine)
    ensures forall i :: 0 <= i < |mine| ==> 0 <= mine[i] < |members|
    ensures mine != [] ==> members != []
  {
    forall i | 0 <= i < |mine| ensures 0 <= mine[i] < |members| {
      assert mine[i] in mine && multiset(mine)[mine[i]] > 0;
    }
    if mine != [] {
      assert 0 <= mine[0] < |members|;
    }
  }

  lemma MineIsWithin(spec: JoinSpec, anchorIds: seq<int>, members: seq<seq<int>>, pairs: Option<PairTable>, mine: seq<seq<nat>>)
    requires (pairs.Some? ==> pairs.value.Valid()) && MineAllowed(spec, anchorIds, members, pairs, mine)
    ensures MineWithin(mine, |members|)
  {
    forall a | 0 <= a < |mine| ensures forall i :: 0 <= i < |mine[a]| ==> mine[a][i] < |members| {
      OwnWithin(members, pairs, anchorIds[a], mine[a]);
    }
  }

  /** The largest value of a sorted sequence fills its end. */
  lemma {:induction false} TopBlock(mine: seq<int>, top: int, count: nat)
    requires Ascends(mine) && (forall i :: 0 <= i < |mine| ==> mine[i] <= top) && multiset(mine)[top] == count
    ensures count <= |mine| && mine == mine[..|mine| - count] + Copies(count, top)
  {
    if count > 0 {
      var n := |mine| - 1;
      LastIsTop(mine, top);
      LastCounts(mine, top);
      TopBlock(mine[..n], top, count - 1);
      BlockNext(mine, top, count);
    }
  }

  lemma LastIsTop(mine: seq<int>, top: int)
    requires Ascends(mine) && (forall i :: 0 <= i < |mine| ==> mine[i] <= top) && multiset(mine)[top] > 0
    ensures mine != [] && mine[|mine| - 1] == top
  {
    assert top in mine;
    var i :| 0 <= i < |mine| && mine[i] == top;
    assert i < |mine| - 1 ==> mine[i] <= mine[|mine| - 1];
  }

  lemma BlockNext(mine: seq<int>, top: int, count: nat)
    requires mine != [] && mine[|mine| - 1] == top && 0 < count <= |mine|
    requires var front := mine[..|mine| - 1];
      front == front[..|front| - (count - 1)] + Copies(count - 1, top)
    ensures mine == mine[..|mine| - count] + Copies(count, top)
  {
    var front, built := mine[..|mine| - 1], mine[..|mine| - count] + Copies(count, top);
    forall i | 0 <= i < |mine| ensures mine[i] == built[i] {
      if i < |mine| - 1 {
        assert front[i] == (front[..|front| - (count - 1)] + Copies(count - 1, top))[i];
      }
    }
    assert mine == built;
  }

  /** Without its top block, an anchor's own members are those among the members before the last. */
  lemma OwnFront(members: seq<seq<int>>, pairs: Option<PairTable>, document: int, mine: seq<int>)
    requires members != [] && (pairs.Some? ==> pairs.value.Valid()) && Own(members, pairs, document, mine)
    ensures var (n, count) := (|members| - 1, Often(pairs, document, members[|members| - 1]));
      && count <= |mine| && mine == mine[..|mine| - count] + Copies(count, n)
      && Own(members[..n], pairs, document, mine[..|mine| - count])
  {
    var (n, count) := (|members| - 1, Often(pairs, document, members[|members| - 1]));
    OwnWithin(members, pairs, document, mine);
    TopBlock(mine, n, count);
    var (front, before) := (mine[..|mine| - count], members[..n]);
    forall s: int ensures multiset(front)[s] == if 0 <= s < |before| then Often(pairs, document, before[s]) else 0 {
      FrontCounts(mine, count, n, s);
      assert 0 <= s < |before| ==> before[s] == members[s];
    }
    assert Ascends(front);
  }

  lemma FrontCounts(mine: seq<int>, count: nat, top: int, s: int)
    requires count <= |mine| && mine == mine[..|mine| - count] + Copies(count, top)
    ensures multiset(mine)[s] == multiset(mine[..|mine| - count])[s] + if s == top then count else 0
  {
    AppendCounts(mine[..|mine| - count], Copies(count, top), s);
    RepeatCounts(count, top, s);
  }

  /** One anchor's own rows are those of the cross product. */
  lemma {:induction false} OwnRowsAre(spec: JoinSpec, document: int, members: seq<seq<int>>, pairs: Option<PairTable>,
                                      mine: seq<nat>)
    requires Members(spec, members) && (pairs.Some? ==> pairs.value.Valid()) && Own(members, pairs, document, mine)
    ensures IndicesWithin(mine, |members|)
    ensures RowsAt(spec, document, members, mine) == AnchorRows(spec, document, members, pairs)
  {
    OwnWithin(members, pairs, document, mine);
    if members != [] {
      var (n, count) := (|members| - 1, Often(pairs, document, members[|members| - 1]));
      OwnFront(members, pairs, document, mine);
      AnchorRowsLast(spec, document, members, pairs);
      OwnRowsAre(spec, document, members[..n], pairs, mine[..|mine| - count]);
      OwnRowsNext(spec, document, members, pairs, mine, count);
    }
  }

  /** The rows of the last member come last. */
  lemma AnchorRowsLast(spec: JoinSpec, document: int, members: seq<seq<int>>, pairs: Option<PairTable>)
    requires members != [] && Members(spec, members) && (pairs.Some? ==> pairs.value.Valid())
    ensures var n := |members| - 1;
      && Members(spec, members[..n])
      && AnchorRows(spec, document, members, pairs)
        == AnchorRows(spec, document, members[..n], pairs)
           + Copies(Often(pairs, document, members[n]), RowOf(spec, document, members[n]))
  {
  }

  lemma OwnRowsNext(spec: JoinSpec, document: int, members: seq<seq<int>>, pairs: Option<PairTable>, mine: seq<nat>,
                    count: nat)
    requires members != [] && Members(spec, members) && Members(spec, members[..|members| - 1])
    requires (pairs.Some? ==> pairs.value.Valid()) && count == Often(pairs, document, members[|members| - 1])
    requires count <= |mine| && mine == mine[..|mine| - count] + Copies(count, |members| - 1)
    requires IndicesWithin(mine[..|mine| - count], |members| - 1)
    requires RowsAt(spec, document, members[..|members| - 1], mine[..|mine| - count])
      == AnchorRows(spec, document, members[..|members| - 1], pairs)
    ensures IndicesWithin(mine, |members|)
    ensures RowsAt(spec, document, members, mine) == AnchorRows(spec, document, members, pairs)
  {
    RowsAtSplit(spec, document, members, mine, |mine| - count);
    AnchorRowsLast(spec, document, members, pairs);
  }

  lemma RowsAtSplit(spec: JoinSpec, document: int, members: seq<seq<int>>, mine: seq<nat>, k: nat)
    requires Members(spec, members) && members != [] && k <= |mine|
    requires IndicesWithin(mine[..k], |members| - 1) && mine == mine[..k] + Copies(|mine| - k, |members| - 1)
    ensures IndicesWithin(mine, |members|)
    ensures RowsAt(spec, document, members, mine)
      == RowsAt(spec, document, members[..|members| - 1], mine[..k])
         + Copies(|mine| - k, RowOf(spec, document, members[|members| - 1]))
  {
    assert forall i :: 0 <= i < k ==> mine[..k][i] == mine[i];
  }

  /** The prompts of the anchors and of the members. */
  function Prefixes(spec: JoinSpec, text: JoinText, anchorIds: seq<int>): (r: seq<Prompt>)
    ensures |r| == |anchorIds|
  {
    seq(|anchorIds|, a requires 0 <= a < |anchorIds| => text.Prefix(spec.anchor, anchorIds[a]))
  }

  function Suffixes(spec: JoinSpec, text: JoinText, members: seq<seq<int>>): (r: seq<Prompt>)
    requires Members(spec, members)
    ensures |r| == |members|
  {
    seq(|members|, s requires 0 <= s < |members| => text.Suffix(spec.Partners(), members[s]))
  }

  /** Answer i is the answer to row i's own prompt. */
  ghost predicate AnswersRows(spec: JoinSpec, text: JoinText, truth: Prompt -> bool, rows: seq<seq<int>>, answers: seq<bool>)
    requires spec.anchor in spec.aliases
  {
    && |answers| == |rows|
    && forall i :: 0 <= i < |rows| ==> |rows[i]| == |spec.aliases| && answers[i] == truth(PromptOfRow(spec, text, rows[i]))
  }

  lemma AnswersAlign(spec: JoinSpec, text: JoinText, truth: Prompt -> bool, anchorIds: seq<int>, members: seq<seq<int>>,
                     pairs: seq<Pair>, rows: seq<seq<int>>, answers: seq<bool>)
    requires spec.Valid() && Members(spec, members) && PairsWithin(pairs, |anchorIds|, |members|)
    requires RowsOfPairs(spec, anchorIds, members, pairs, rows)
    requires AnswersPairs(Prefixes(spec, text, anchorIds), Suffixes(spec, text, members), truth, pairs, answers)
    ensures AnswersRows(spec, text, truth, rows, answers)
  {
    forall i | 0 <= i < |rows|
      ensures |rows[i]| == |spec.aliases| && answers[i] == truth(PromptOfRow(spec, text, rows[i]))
    {
      var (a, s) := pairs[i];
      RowParts(spec, anchorIds[a], members[s]);
      assert rows[i] == RowAt(spec, anchorIds, members, pairs[i]);
      assert answers[i] == truth(PairPrompt(Prefixes(spec, text, anchorIds), Suffixes(spec, text, members), pairs[i]));
    }
  }

  datatype Joined =
    | Interrupted
    | Rejected
    | Joined(rows: seq<seq<int>>, answers: seq<bool>, survivors: Survivors)

  /** Some row with a TRUE answer holds this document. */
  ghost predicate Matched(spec: JoinSpec, rows: seq<seq<int>>, answers: seq<bool>, a: Alias, d: int)
    requires a in spec.aliases && |answers| == |rows|
    requires forall i :: 0 <= i < |rows| ==> |rows[i]| == |spec.aliases|
  {
    exists i :: 0 <= i < |rows| && answers[i] && At(spec, rows[i], a) == d
  }

  /** The documents of one alias in the rows with a TRUE answer. */
  method MatchedDocuments(spec: JoinSpec, rows: seq<seq<int>>, answers: seq<bool>, a: Alias) returns (found: set<int>)
    requires a in spec.aliases && |answers| == |rows|
    requires forall i :: 0 <= i < |rows| ==> |rows[i]| == |spec.aliases|
    ensures forall d :: d in found <==> Matched(spec, rows, answers, a, d)
  {
    found := {};
    for i := 0 to |rows|
      invariant forall d :: d in found <==> exists j :: 0 <= j < i && answers[j] && At(spec, rows[j], a) == d
    {
      if answers[i] {
        found := found + {At(spec, rows[i], a)};
      }
    }
  }

  /** The elements of s not in `drop`, in order. */
  function Excluding(s: seq<int>, drop: set<int>): (r: seq<int>)
    ensures forall x :: x in r <==> x in s && x !in drop
  {
    if s == [] then
      []
    else
      var n := |s| - 1;
      Excluding(s[..n], drop) + (if s[n] in drop then [] else [s[n]])
  }

  /** How a join changes the survivors. */
  ghost predicate Updated(spec: JoinSpec, rows: seq<seq<int>>, answers: seq<bool>, before: Survivors, after: Survivors)
    requires spec.Valid() && |answers| == |rows|
    requires forall i :: 0 <= i < |rows| ==> |rows[i]| == |spec.aliases|
    requires forall a :: a in spec.aliases ==> a in before
  {
    && after.Keys == before.Keys
    && (forall a :: a in before && a !in spec.aliases ==> after[a] == before[a])
    && match spec.semantics
       case Full => forall a :: a in spec.aliases ==>
         Increasing(after[a]) && forall d :: d in after[a] <==> Matched(spec, rows, answers, a, d)
       case Semi =>
         && (forall a :: a in spec.Partners() ==> after[a] == before[a])
         && Increasing(after[spec.anchor])
         && forall d :: d in after[spec.anchor] <==> Matched(spec, rows, answers, spec.anchor, d)
       case Anti =>
         && (forall a :: a in spec.Partners() ==> after[a] == before[a])
         && exists matched: set<int> :: after[spec.anchor] == Excluding(before[spec.anchor], matched)
              && forall d :: d in matched <==> Matched(spec, rows, answers, spec.anchor, d)
  }

  /** Update the survivors from the rows with TRUE answers. */
  method UpdateSurvivors(spec: JoinSpec, rows: seq<seq<int>>, answers: seq<bool>, survivors: Survivors)
    returns (after: Survivors)
    requires spec.Valid() && |answers| == |rows|
    requires forall i :: 0 <= i < |rows| ==> |rows[i]| == |spec.aliases|
    requires forall a :: a in spec.aliases ==> a in survivors
    ensures Updated(spec, rows, answers, survivors, after)
  {
    after := survivors;
    if spec.semantics == Full {
      for k := 0 to |spec.aliases|
        invariant after.Keys == survivors.Keys
        invariant forall a :: a in survivors && a !in spec.aliases ==> after[a] == survivors[a]
        invariant forall i :: 0 <= i < k ==> Increasing(after[spec.aliases[i]])
        invariant forall i, d :: 0 <= i < k ==>
          (d in after[spec.aliases[i]] <==> Matched(spec, rows, answers, spec.aliases[i], d))
      {
        var found := MatchedDocuments(spec, rows, answers, spec.aliases[k]);
        after := after[spec.aliases[k] := SortedSet(found)];
      }
      return;
    }
    var matched := MatchedDocuments(spec, rows, answers, spec.anchor);
    if spec.semantics == Anti {
      after := survivors[spec.anchor := Excluding(survivors[spec.anchor], matched)];
    } else {
      after := survivors[spec.anchor := SortedSet(matched)];
    }
  }

  /** On one input, the semi and the anti join split the anchor's survivors between them. */
  lemma SemiAntiPartition(spec: JoinSpec, pairs: Option<PairTable>, rows: seq<seq<int>>, answers: seq<bool>,
                          survivors: Survivors, semi: Survivors, anti: Survivors)
    requires Joinable(spec, survivors, pairs) && |answers| == |rows|
    requires forall i :: 0 <= i < |rows| ==> |rows[i]| == |spec.aliases|
    requires forall row :: row in rows ==> InCross(spec, survivors, pairs, row)
    requires Updated(spec.(semantics := Semi), rows, answers, survivors, semi)
    requires Updated(spec.(semantics := Anti), rows, answers, survivors, anti)
    ensures forall d :: d in survivors[spec.anchor] <==> d in semi[spec.anchor] || d in anti[spec.anchor]
    ensures forall d :: !(d in semi[spec.anchor] && d in anti[spec.anchor])
  {
    var (s, t) := (spec.(semantics := Semi), spec.(semantics := Anti));
    forall d ensures Matched(s, rows, answers, spec.anchor, d) <==> Matched(t, rows, answers, spec.anchor, d) {
      assert forall i :: 0 <= i < |rows| ==> At(s, rows[i], spec.anchor) == At(t, rows[i], spec.anchor);
    }
    forall d | Matched(s, rows, answers, spec.anchor, d) ensures d in survivors[spec.anchor] {
      var i :| 0 <= i < |rows| && answers[i] && At(s, rows[i], spec.anchor) == d;
      assert rows[i] in rows;
    }
  }

  /** The indices one anchor is asked about, as the pair table gives them. */
  method AllowedIndices(spec: JoinSpec, anchorIds: seq<int>, members: seq<seq<int>>, table: PairTable)
    returns (mine: seq<seq<nat>>)
    requires Members(spec, members) && |spec.Partners()| == 1 && table.Valid()
    ensures MineAllowed(spec, anchorIds, members, Some(table), mine)
  {
    var allowed := AllowedMembersByAnchor(anchorIds, members, 0, table);
    var column := MemberColumn(members, 0);
    forall a | 0 <= a < |allowed| ensures Own(members, Some(table), anchorIds[a], allowed[a]) {
      AllowsOwn(members, table, column, anchorIds[a], allowed[a]);
    }
    forall a, i | 0 <= a < |allowed| && 0 <= i < |allowed[a]| ensures 0 <= allowed[a][i] {
      OwnWithin(members, Some(table), anchorIds[a], allowed[a]);
    }
    mine := allowed;
  }

  lemma AllowsOwn(members: seq<seq<int>>, table: PairTable, column: seq<int>, document: int, mine: seq<int>)
    requires table.Valid() && Allows(table, column, document, mine) && |column| == |members|
    requires forall m :: 0 <= m < |members| ==> members[m] != [] && column[m] == members[m][0]
    ensures Own(members, Some(table), document, mine)
  {
  }

  /** What each anchor is asked about: the members its pair rows allow, or every member. */
  method Prepare(spec: JoinSpec, survivors: Survivors, pairs: Option<PairTable>)
    returns (anchorIds: seq<int>, members: seq<seq<int>>, mine: seq<seq<nat>>)
    requires Joinable(spec, survivors, pairs) && (pairs.Some? ==> |spec.Partners()| == 1)
    ensures anchorIds == survivors[spec.anchor] && members == Product(PartnerLists(spec, survivors))
    ensures Members(spec, members) && MineAllowed(spec, anchorIds, members, pairs, mine)
    ensures pairs.None? ==> mine == seq(|anchorIds|, _ => Everyone(|members|))
  {
    anchorIds := survivors[spec.anchor];
    members := Product(PartnerLists(spec, survivors));
    ProductMembers(PartnerLists(spec, survivors));
    if pairs.Some? {
      mine := AllowedIndices(spec, anchorIds, members, pairs.value);
    } else {
      mine := seq(|anchorIds|, _ => Everyone(|members|));
      EveryoneCounts(|members|);
    }
  }

  lemma {:induction false} EveryoneCounts(n: nat)
    ensures forall s: int :: multiset(Everyone(n))[s] == if 0 <= s < n then 1 else 0
  {
    if n > 0 {
      EveryoneCounts(n - 1);
      assert Everyone(n) == Everyone(n - 1) + [n - 1];
    }
  }

  /** Without an anchor or without a member there is nothing to ask. */
  lemma NothingToAsk(mine: seq<seq<nat>>, anchors: nat, members: nat)
    requires |mine| == anchors && MineWithin(mine, members) && (anchors == 0 || members == 0)
    ensures Enumerate(mine) == []
  {
    EnumerateWithin(mine, members);
    var pairs := Enumerate(mine);
    assert pairs != [] ==> PairWithin(pairs[0], anchors, members);
  }

  /** Ask the model about every pair, if there is one. */
  method AskPairs(client: Client, uncached: bool, spec: JoinSpec, text: JoinText, truth: Prompt -> bool,
                  submission: Submission, anchorIds: seq<int>, members: seq<seq<int>>, mine: seq<seq<nat>>, restricted: bool)
    returns (r: Answered)
    requires client.Valid()
    requires Members(spec, members) && |mine| == |anchorIds| && MineWithin(mine, |members|)
    requires !restricted ==> mine == seq(|anchorIds|, _ => Everyone(|members|))
    modifies client`counter, client.engine
    ensures PairsWithin(Enumerate(mine), |anchorIds|, |members|)
    ensures old(client.Served(2 * |Enumerate(mine)|)) ==> r.Answered?
    ensures r.Answered? ==> client.Valid()
    ensures r.Answered? ==>
      AnswersPairs(Prefixes(spec, text, anchorIds), Suffixes(spec, text, members), truth, Enumerate(mine), r.answers)
  {
    EnumerateWithin(mine, |members|);
    var (prefixes, suffixes) := (Prefixes(spec, text, anchorIds), Suffixes(spec, text, members));
    var wanted := if restricted then Some(Enumerate(mine)) else None;
    if prefixes == [] || suffixes == [] {
      NothingToAsk(mine, |anchorIds|, |members|);
      return Answered([]);
    }
    if wanted == Some([]) {
      return Answered([]);
    }
    ghost var pairs;
    r, pairs := RunJoinGrouped(client, uncached, prefixes, suffixes, truth, submission, wanted);
  }

  /** `_execute_joins`, for one join: its rows are the surviving cross product, restricted to the pair
      table, anchor by anchor; each is there as often as there are ways to pick it, and once when the
      survivors are distinct and no pair is listed twice; each answer is that of its own row's prompt,
      and the survivors follow from them.  An engine that answers some request in each turn makes the
      join return, in at most two turns per row. */
  method ExecuteJoin(client: Client, uncached: bool, spec: JoinSpec, text: JoinText,
                     truth: Prompt -> bool, submission: Submission, survivors: Survivors, pairs: Option<PairTable>)
    returns (r: Joined)
    requires client.Valid()
    requires Joinable(spec, survivors, pairs)
    modifies client`counter, client.engine
    ensures r.Rejected? <==> pairs.Some? && |spec.Partners()| != 1
    ensures !r.Interrupted? ==> client.Valid()
    ensures r.Joined? ==> r.rows == CrossRows(spec, survivors, pairs)
    ensures r.Joined? ==> AnswersRows(spec, text, truth, r.rows, r.answers)
    ensures r.Joined? ==> forall row :: row in r.rows <==> InCross(spec, survivors, pairs, row)
    ensures r.Joined? ==> forall row :: multiset(r.rows)[row] == Multiplicity(spec, survivors, pairs, row)
    ensures r.Joined? && (pairs.Some? ==> pairs.value.Unique()) && (forall a :: a in spec.aliases ==> Distinct(survivors[a]))
      ==> Distinct(r.rows)
    ensures r.Joined? ==> Updated(spec, r.rows, r.answers, survivors, r.survivors)
    ensures old(client.Served(2 * |CrossRows(spec, survivors, pairs)|)) ==> r.Joined? || r.Rejected?
  {
    if pairs.Some? && |spec.Partners()| != 1 {
      return Rejected;
    }
    var anchorIds, members, mine := Prepare(spec, survivors, pairs);
    MineIsWithin(spec, anchorIds, members, pairs, mine);
    var rows := BuildRows(spec, anchorIds, members, mine, pairs);
    var answered := AskPairs(client, uncached, spec, text, truth, submission, anchorIds, members, mine, pairs.Some?);
    if answered.Interrupted? {
      return Joined.Interrupted;
    }
    AnswersAlign(spec, text, truth, anchorIds, members, Enumerate(mine), rows, answered.answers);
    CrossFacts(spec, survivors, pairs);
    var after := UpdateSurvivors(spec, rows, answered.answers, survivors);
    r := Joined(rows, answered.answers, after);
  }

  lemma CrossFacts(spec: JoinSpec, survivors: Survivors, pairs: Option<PairTable>)
    requires Joinable(spec, survivors, pairs)
    ensures var rows := CrossRows(spec, survivors, pairs);
      && (forall row :: row in rows <==> InCross(spec, survivors, pairs, row))
      && (forall row :: multiset(rows)[row] == Multiplicity(spec, survivors, pairs, row))
      && ((pairs.Some? ==> pairs.value.Unique()) && (forall a :: a in spec.aliases ==> Distinct(survivors[a]))
          ==> Distinct(rows))
  {
    var rows := CrossRows(spec, survivors, pairs);
    forall row ensures row in rows <==> InCross(spec, survivors, pairs, row) {
      RowsAreCross(spec, survivors, pairs, row);
    }
    forall row ensures multiset(rows)[row] == Multiplicity(spec, survivors, pairs, row) {
      CrossCounts(spec, survivors, pairs, row);
    }
    if (pairs.Some? ==> pairs.value.Unique()) && (forall a :: a in spec.aliases ==> Distinct(survivors[a])) {
      RowsDistinct(spec, survivors, pairs);
    }
  }
}
