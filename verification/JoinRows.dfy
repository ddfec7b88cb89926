/** The rows a join asks about, and how often each of them appears. */
module JoinRows {
  import opened Common
  import opened Prompts
  import opened Sorting
  import opened PairIndex

  type Alias = nat

  datatype Semantics = Full | Semi | Anti

  datatype JoinSpec = JoinSpec(aliases: seq<Alias>, anchor: Alias, semantics: Semantics) {
    ghost predicate Valid() {
      Distinct(aliases) && anchor in aliases
    }

    /** The other aliases, in order. */
    function Partners(): seq<Alias> {
      Without(aliases, anchor)
    }
  }

  function Without(aliases: seq<Alias>, anchor: Alias): (r: seq<Alias>)
    ensures forall a :: a in r <==> a in aliases && a != anchor
    ensures |r| <= |aliases|
  {
    if aliases == [] then
      []
    else
      var n := |aliases| - 1;
      Without(aliases[..n], anchor) + (if aliases[n] == anchor then [] else [aliases[n]])
  }

  lemma {:induction false} WithoutDistinct(aliases: seq<Alias>, anchor: Alias)
    requires Distinct(aliases)
    ensures Distinct(Without(aliases, anchor))
  {
    if aliases != [] {
      var n := |aliases| - 1;
      WithoutDistinct(aliases[..n], anchor);
      var before := Without(aliases[..n], anchor);
      assert forall i :: 0 <= i < |before| ==> before[i] in before;
    }
  }

  /** A value after each prefix, prefix by prefix. */
  function Extend(prefixes: seq<seq<int>>, values: seq<int>): seq<seq<int>> {
    if prefixes == [] then
      []
    else
      var n := |prefixes| - 1;
      Extend(prefixes[..n], values) + seq(|values|, i requires 0 <= i < |values| => prefixes[n] + [values[i]])
  }

  /** `itertools.product` */
  function Product(lists: seq<seq<int>>): seq<seq<int>> {
    if lists == [] then [[]] else Extend(Product(lists[..|lists| - 1]), lists[|lists| - 1])
  }

  /** A member picks one value from each list. */
  ghost predicate Picks(lists: seq<seq<int>>, m: seq<int>) {
    |m| == |lists| && forall k :: 0 <= k < |lists| ==> m[k] in lists[k]
  }

  /** `by_alias`: the document of each alias, for one anchor document and one member. */
  function ByAlias(anchor: Alias, document: int, partners: seq<Alias>, member: seq<int>): (r: map<Alias, int>)
    requires |member| == |partners|
    ensures r.Keys == {anchor} + set a | a in partners
  {
    if partners == [] then
      map[anchor := document]
    else
      var n := |partners| - 1;
      assert partners == partners[..n] + [partners[n]];
      ByAlias(anchor, document, partners[..n], member[..n])[partners[n] := member[n]]
  }

  lemma {:induction false} ByAliasAnchor(anchor: Alias, document: int, partners: seq<Alias>, member: seq<int>)
    requires |member| == |partners| && anchor !in partners
    ensures ByAlias(anchor, document, partners, member)[anchor] == document
  {
    if partners != [] {
      ByAliasAnchor(anchor, document, partners[..|partners| - 1], member[..|partners| - 1]);
    }
  }

  lemma {:induction false} ByAliasAt(anchor: Alias, document: int, partners: seq<Alias>, member: seq<int>, k: nat)
    requires |member| == |partners| && Distinct(partners) && k < |partners|
    ensures partners[k] in partners
    ensures ByAlias(anchor, document, partners, member)[partners[k]] == member[k]
  {
    var n := |partners| - 1;
    if k < n {
      ByAliasAt(anchor, document, partners[..n], member[..n], k);
      assert partners[k] != partners[n];
    }
  }

  /** A row: one document per alias, in the order of the aliases. */
  function RowOf(spec: JoinSpec, document: int, member: seq<int>): (r: seq<int>)
    requires |member| == |spec.Partners()|
    ensures |r| == |spec.aliases|
  {
    var byAlias := ByAlias(spec.anchor, document, spec.Partners(), member);
    seq(|spec.aliases|, i requires 0 <= i < |spec.aliases| => byAlias[spec.aliases[i]])
  }

  function IndexOf(aliases: seq<Alias>, a: Alias): (i: nat)
    requires a in aliases
    ensures i < |aliases| && aliases[i] == a
  {
    if aliases[0] == a then 0 else 1 + IndexOf(aliases[1..], a)
  }

  /** The document of an alias in a row. */
  function At(spec: JoinSpec, row: seq<int>, a: Alias): int
    requires a in spec.aliases && |row| == |spec.aliases|
  {
    row[IndexOf(spec.aliases, a)]
  }

  /** The partner documents of a row, in partner order. */
  function MemberOf(spec: JoinSpec, row: seq<int>): (m: seq<int>)
    requires |row| == |spec.aliases|
    ensures |m| == |spec.Partners()|
  {
    seq(|spec.Partners()|, k requires 0 <= k < |spec.Partners()| => At(spec, row, spec.Partners()[k]))
  }

  /** A row and its (anchor document, member) pair determine each other. */
  lemma RowParts(spec: JoinSpec, document: int, member: seq<int>)
    requires spec.Valid() && |member| == |spec.Partners()|
    ensures At(spec, RowOf(spec, document, member), spec.anchor) == document
    ensures MemberOf(spec, RowOf(spec, document, member)) == member
  {
    WithoutDistinct(spec.aliases, spec.anchor);
    ByAliasAnchor(spec.anchor, document, spec.Partners(), member);
    var row := RowOf(spec, document, member);
    forall k | 0 <= k < |member| ensures MemberOf(spec, row)[k] == member[k] {
      ByAliasAt(spec.anchor, document, spec.Partners(), member, k);
    }
  }

  lemma PartsRow(spec: JoinSpec, row: seq<int>)
    requires spec.Valid() && |row| == |spec.aliases|
    ensures RowOf(spec, At(spec, row, spec.anchor), MemberOf(spec, row)) == row
  {
    var (document, member) := (At(spec, row, spec.anchor), MemberOf(spec, row));
    WithoutDistinct(spec.aliases, spec.anchor);
    ByAliasAnchor(spec.anchor, document, spec.Partners(), member);
    forall i | 0 <= i < |row| ensures RowOf(spec, document, member)[i] == row[i] {
      var a := spec.aliases[i];
      assert a in spec.aliases;
      assert IndexOf(spec.aliases, a) == i;
      if a != spec.anchor {
        assert a in spec.Partners();
        var k :| 0 <= k < |spec.Partners()| && spec.Partners()[k] == a;
        ByAliasAt(spec.anchor, document, spec.Partners(), member, k);
        assert member[k] == At(spec, row, spec.Partners()[k]);
      }
    }
  }

  /** The token ids around the documents of a join's prompts. */
  datatype JoinText = JoinText(preamble: Prompt, frame: Prompt, tail: Prompt, labels: Alias -> Prompt,
                               documents: (Alias, int) -> Prompt) {
    function Prefix(anchor: Alias, document: int): Prompt {
      preamble + documents(anchor, document) + frame
    }

    /** Each partner's label and document. */
    function Bodies(partners: seq<Alias>, member: seq<int>): Prompt
      requires |member| == |partners|
    {
      if partners == [] then
        []
      else
        var n := |partners| - 1;
        Bodies(partners[..n], member[..n]) + labels(partners[n]) + documents(partners[n], member[n])
    }

    function Suffix(partners: seq<Alias>, member: seq<int>): Prompt
      requires |member| == |partners|
    {
      Bodies(partners, member) + tail
    }
  }

  /** Every partner's label and document is in the suffix, after those of the partners before it. */
  lemma {:induction false} SuffixHolds(text: JoinText, partners: seq<Alias>, member: seq<int>, k: nat) returns (after: Prompt)
    requires |member| == |partners| && k < |partners|
    ensures text.Bodies(partners, member)
      == text.Bodies(partners[..k], member[..k]) + text.labels(partners[k]) + text.documents(partners[k], member[k]) + after
    decreases |partners|
  {
    var n := |partners| - 1;
    if k < n {
      var rest := SuffixHolds(text, partners[..n], member[..n], k);
      assert partners[..n][..k] == partners[..k] && member[..n][..k] == member[..k];
      after := rest + text.labels(partners[n]) + text.documents(partners[n], member[n]);
    } else {
      after := [];
    }
  }

  /** The prompt a row's question is asked with, read off the row alone. */
  function PromptOfRow(spec: JoinSpec, text: JoinText, row: seq<int>): Prompt
    requires spec.anchor in spec.aliases && |row| == |spec.aliases|
  {
    text.Prefix(spec.anchor, At(spec, row, spec.anchor)) + text.Suffix(spec.Partners(), MemberOf(spec, row))
  }

  /** The documents that survived up to this join. */
  type Survivors = map<Alias, seq<int>>

  function PartnerLists(spec: JoinSpec, survivors: Survivors): (r: seq<seq<int>>)
    requires forall a :: a in spec.aliases ==> a in survivors
    ensures |r| == |spec.Partners()|
  {
    seq(|spec.Partners()|, k requires 0 <= k < |spec.Partners()| => PartnerList(spec, survivors, k))
  }

  function PartnerList(spec: JoinSpec, survivors: Survivors, k: nat): seq<int>
    requires k < |spec.Partners()| && forall a :: a in spec.aliases ==> a in survivors
  {
    assert spec.Partners()[k] in spec.Partners();
    survivors[spec.Partners()[k]]
  }

  /** How often a join over pairs asks about a member: as often as the table lists its pair. */
  ghost function Often(pairs: Option<PairTable>, document: int, member: seq<int>): nat
    requires pairs.Some? ==> pairs.value.Valid()
  {
    if pairs.None? then 1 else if member == [] then 0 else pairs.value.Count(document, member[0])
  }

  /** One anchor's rows, member by member. */
  ghost function AnchorRows(spec: JoinSpec, document: int, members: seq<seq<int>>, pairs: Option<PairTable>): seq<seq<int>>
    requires Members(spec, members) && (pairs.Some? ==> pairs.value.Valid())
  {
    if members == [] then
      []
    else
      var n := |members| - 1;
      AnchorRows(spec, document, members[..n], pairs)
      + Copies(Often(pairs, document, members[n]), RowOf(spec, document, members[n]))
  }

  /** The rows of some anchor documents, anchor by anchor. */
  ghost function RowsOf(spec: JoinSpec, anchorIds: seq<int>, members: seq<seq<int>>, pairs: Option<PairTable>): seq<seq<int>>
    requires Members(spec, members) && (pairs.Some? ==> pairs.value.Valid())
  {
    if anchorIds == [] then
      []
    else
      var n := |anchorIds| - 1;
      RowsOf(spec, anchorIds[..n], members, pairs) + AnchorRows(spec, anchorIds[n], members, pairs)
  }

  ghost predicate Members(spec: JoinSpec, members: seq<seq<int>>) {
    forall s :: 0 <= s < |members| ==> |members[s]| == |spec.Partners()|
  }

  /** What a join is asked about. */
  ghost predicate Joinable(spec: JoinSpec, survivors: Survivors, pairs: Option<PairTable>) {
    && spec.Valid() && (forall a :: a in spec.aliases ==> a in survivors)
    && (pairs.Some? ==> pairs.value.Valid())
  }

  /** The surviving cross product, anchor by anchor and member by member, restricted to the pair table. */
  ghost function CrossRows(spec: JoinSpec, survivors: Survivors, pairs: Option<PairTable>): seq<seq<int>>
    requires Joinable(spec, survivors, pairs)
  {
    ProductMembers(PartnerLists(spec, survivors));
    RowsOf(spec, survivors[spec.anchor], Product(PartnerLists(spec, survivors)), pairs)
  }

  lemma {:induction false} ProductMembers(lists: seq<seq<int>>)
    ensures forall s :: 0 <= s < |Product(lists)| ==> |Product(lists)[s]| == |lists|
  {
    if lists != [] {
      var n := |lists| - 1;
      ProductMembers(lists[..n]);
      ExtendMembers(Product(lists[..n]), lists[n], n);
    }
  }

  lemma {:induction false} ExtendMembers(prefixes: seq<seq<int>>, values: seq<int>, n: nat)
    requires forall i :: 0 <= i < |prefixes| ==> |prefixes[i]| == n
    ensures forall s :: 0 <= s < |Extend(prefixes, values)| ==> |Extend(prefixes, values)[s]| == n + 1
  {
    if prefixes != [] {
      ExtendMembers(prefixes[..|prefixes| - 1], values, n);
    }
  }

  /** How often a member is in the product of the lists. */
  ghost function MemberCount(lists: seq<seq<int>>, m: seq<int>): nat
    requires |m| == |lists|
  {
    if lists == [] then
      1
    else
      var n := |lists| - 1;
      MemberCount(lists[..n], m[..n]) * multiset(lists[n])[m[n]]
  }

  lemma {:induction false} RepeatCounts<T>(k: nat, x: T, y: T)
    ensures multiset(Copies(k, x))[y] == if x == y then k else 0
  {
    if k > 0 {
      RepeatCounts(k - 1, x, y);
      assert Copies(k, x) == Copies(k - 1, x) + [x];
    }
  }

  /** One more of something that is worth x. */
  lemma OneMore(count: nat, x: nat, hit: bool)
    ensures (count + if hit then 1 else 0) * x == count * x + if hit then x else 0
  {
  }

  lemma {:induction false} BlockCounts(prefix: seq<int>, values: seq<int>, m: seq<int>)
    requires m != []
    ensures multiset(seq(|values|, i requires 0 <= i < |values| => prefix + [values[i]]))[m]
      == if m[..|m| - 1] == prefix then multiset(values)[m[|m| - 1]] else 0
  {
    if values != [] {
      var n := |values| - 1;
      BlockCounts(prefix, values[..n], m);
      LastCounts(values, m[|m| - 1]);
      var block := seq(|values|, i requires 0 <= i < |values| => prefix + [values[i]]);
      assert block[..n] == seq(n, i requires 0 <= i < n => prefix + [values[..n][i]]);
      LastCounts(block, m);
      assert prefix + [values[n]] == m <==> m[..|m| - 1] == prefix && m[|m| - 1] == values[n];
    }
  }

  lemma {:induction false} ExtendCounts(prefixes: seq<seq<int>>, values: seq<int>, m: seq<int>)
    requires m != []
    ensures multiset(Extend(prefixes, values))[m] == multiset(prefixes)[m[..|m| - 1]] * multiset(values)[m[|m| - 1]]
  {
    if prefixes != [] {
      var n := |prefixes| - 1;
      ExtendCounts(prefixes[..n], values, m);
      BlockCounts(prefixes[n], values, m);
      AppendCounts(Extend(prefixes[..n], values),
                   seq(|values|, i requires 0 <= i < |values| => prefixes[n] + [values[i]]), m);
      LastCounts(prefixes, m[..|m| - 1]);
      OneMore(multiset(prefixes[..n])[m[..|m| - 1]], multiset(values)[m[|m| - 1]], prefixes[n] == m[..|m| - 1]);
    }
  }

  /** The product holds each member once for every way to pick its values. */
  lemma {:induction false} ProductCounts(lists: seq<seq<int>>, m: seq<int>)
    requires |m| == |lists|
    ensures multiset(Product(lists))[m] == MemberCount(lists, m)
  {
    if lists == [] {
      assert m == [];
    } else {
      var n := |lists| - 1;
      ProductCounts(lists[..n], m[..n]);
      ExtendCounts(Product(lists[..n]), lists[n], m);
    }
  }

  lemma {:induction false} AnchorCounts(spec: JoinSpec, document: int, members: seq<seq<int>>, pairs: Option<PairTable>,
                                        row: seq<int>)
    requires spec.Valid() && Members(spec, members) && (pairs.Some? ==> pairs.value.Valid()) && |row| == |spec.aliases|
    ensures multiset(AnchorRows(spec, document, members, pairs))[row]
      == if At(spec, row, spec.anchor) == document
         then multiset(members)[MemberOf(spec, row)] * Often(pairs, document, MemberOf(spec, row)) else 0
  {
    if members != [] {
      var n := |members| - 1;
      AnchorCounts(spec, document, members[..n], pairs, row);
      var block := Copies(Often(pairs, document, members[n]), RowOf(spec, document, members[n]));
      AppendCounts(AnchorRows(spec, document, members[..n], pairs), block, row);
      RepeatCounts(Often(pairs, document, members[n]), RowOf(spec, document, members[n]), row);
      RowIs(spec, document, members[n], row);
      LastCounts(members, MemberOf(spec, row));
      OneMore(multiset(members[..n])[MemberOf(spec, row)], Often(pairs, document, MemberOf(spec, row)),
              members[n] == MemberOf(spec, row));
    }
  }

  /** A row and its (anchor document, member) pair are the same thing. */
  lemma RowIs(spec: JoinSpec, document: int, member: seq<int>, row: seq<int>)
    requires spec.Valid() && |member| == |spec.Partners()| && |row| == |spec.aliases|
    ensures RowOf(spec, document, member) == row <==> At(spec, row, spec.anchor) == document && MemberOf(spec, row) == member
  {
    RowParts(spec, document, member);
    PartsRow(spec, row);
  }

  /** How often one anchor document asks about a row's member. */
  ghost function MemberTimes(spec: JoinSpec, members: seq<seq<int>>, pairs: Option<PairTable>, row: seq<int>): nat
    requires spec.Valid() && (pairs.Some? ==> pairs.value.Valid()) && |row| == |spec.aliases|
  {
    multiset(members)[MemberOf(spec, row)] * Often(pairs, At(spec, row, spec.anchor), MemberOf(spec, row))
  }

  lemma {:induction false} RowsCounts(spec: JoinSpec, anchorIds: seq<int>, members: seq<seq<int>>, pairs: Option<PairTable>,
                                      row: seq<int>)
    requires spec.Valid() && Members(spec, members) && (pairs.Some? ==> pairs.value.Valid()) && |row| == |spec.aliases|
    ensures multiset(RowsOf(spec, anchorIds, members, pairs))[row]
      == multiset(anchorIds)[At(spec, row, spec.anchor)] * MemberTimes(spec, members, pairs, row)
  {
    if anchorIds != [] {
      var n := |anchorIds| - 1;
      var document := At(spec, row, spec.anchor);
      RowsCounts(spec, anchorIds[..n], members, pairs, row);
      AnchorTimes(spec, anchorIds[n], members, pairs, row);
      AppendCounts(RowsOf(spec, anchorIds[..n], members, pairs), AnchorRows(spec, anchorIds[n], members, pairs), row);
      LastCounts(anchorIds, document);
      OneMore(multiset(anchorIds[..n])[document], MemberTimes(spec, members, pairs, row), anchorIds[n] == document);
    }
  }

  lemma AnchorTimes(spec: JoinSpec, document: int, members: seq<seq<int>>, pairs: Option<PairTable>, row: seq<int>)
    requires spec.Valid() && Members(spec, members) && (pairs.Some? ==> pairs.value.Valid()) && |row| == |spec.aliases|
    ensures multiset(AnchorRows(spec, document, members, pairs))[row]
      == if At(spec, row, spec.anchor) == document then MemberTimes(spec, members, pairs, row) else 0
  {
    AnchorCounts(spec, document, members, pairs, row);
  }

  /** How often a row is asked: once for every way to pick its documents from the survivors, as often
      as its pair is listed. */
  ghost function Multiplicity(spec: JoinSpec, survivors: Survivors, pairs: Option<PairTable>, row: seq<int>): nat
    requires Joinable(spec, survivors, pairs)
  {
    if |row| != |spec.aliases| then
      0
    else
      Ways(multiset(survivors[spec.anchor])[At(spec, row, spec.anchor)],
           MemberCount(PartnerLists(spec, survivors), MemberOf(spec, row)),
           Often(pairs, At(spec, row, spec.anchor), MemberOf(spec, row)))
  }

  /** In how many ways one of each can be picked. */
  function Ways(a: nat, b: nat, c: nat): (r: nat)
    ensures r > 0 <==> a > 0 && b > 0 && c > 0
    ensures a <= 1 && b <= 1 && c <= 1 ==> r <= 1
  {
    Positive(b, c);
    Positive(a, b * c);
    if a <= 1 && b <= 1 && c <= 1 then
      AtMostOne(b, c);
      AtMostOne(a, b * c);
      a * (b * c)
    else
      a * (b * c)
  }

  lemma CrossCounts(spec: JoinSpec, survivors: Survivors, pairs: Option<PairTable>, row: seq<int>)
    requires Joinable(spec, survivors, pairs)
    ensures multiset(CrossRows(spec, survivors, pairs))[row] == Multiplicity(spec, survivors, pairs, row)
  {
    var members := Product(PartnerLists(spec, survivors));
    ProductMembers(PartnerLists(spec, survivors));
    if |row| == |spec.aliases| {
      RowsCounts(spec, survivors[spec.anchor], members, pairs, row);
      ProductCounts(PartnerLists(spec, survivors), MemberOf(spec, row));
    } else {
      RowsWide(spec, survivors[spec.anchor], members, pairs);
      assert row !in CrossRows(spec, survivors, pairs);
    }
  }

  lemma {:induction false} RowsWide(spec: JoinSpec, anchorIds: seq<int>, members: seq<seq<int>>, pairs: Option<PairTable>)
    requires Members(spec, members) && (pairs.Some? ==> pairs.value.Valid())
    ensures forall row :: row in RowsOf(spec, anchorIds, members, pairs) ==> |row| == |spec.aliases|
  {
    if anchorIds != [] {
      var n := |anchorIds| - 1;
      RowsWide(spec, anchorIds[..n], members, pairs);
      AnchorWide(spec, anchorIds[n], members, pairs);
    }
  }

  lemma {:induction false} AnchorWide(spec: JoinSpec, document: int, members: seq<seq<int>>, pairs: Option<PairTable>)
    requires Members(spec, members) && (pairs.Some? ==> pairs.value.Valid())
    ensures forall row :: row in AnchorRows(spec, document, members, pairs) ==> |row| == |spec.aliases|
  {
    if members != [] {
      AnchorWide(spec, document, members[..|members| - 1], pairs);
    }
  }

  /** A row of the surviving cross product, restricted to the pair table of a join over pairs. */
  ghost predicate InCross(spec: JoinSpec, survivors: Survivors, pairs: Option<PairTable>, row: seq<int>)
    requires Joinable(spec, survivors, pairs)
  {
    && |row| == |spec.aliases|
    && At(spec, row, spec.anchor) in survivors[spec.anchor]
    && Picks(PartnerLists(spec, survivors), MemberOf(spec, row))
    && (pairs.Some? ==> MemberOf(spec, row) != [] && pairs.value.Has(At(spec, row, spec.anchor), MemberOf(spec, row)[0]))
  }

  lemma {:induction false} CountsPicked(lists: seq<seq<int>>, m: seq<int>)
    requires |m| == |lists|
    ensures MemberCount(lists, m) > 0 <==> Picks(lists, m)
  {
    if lists != [] {
      var n := |lists| - 1;
      CountsPicked(lists[..n], m[..n]);
      if Picks(lists[..n], m[..n]) && m[n] in lists[n] {
        forall k | 0 <= k < |lists| ensures m[k] in lists[k] {
          assert k < n ==> lists[..n][k] == lists[k] && m[..n][k] == m[k];
        }
      }
      Positive(MemberCount(lists[..n], m[..n]), multiset(lists[n])[m[n]]);
    }
  }

  lemma Positive(a: nat, b: nat)
    ensures a * b > 0 <==> a > 0 && b > 0
  {
  }

  /** The rows are exactly the surviving cross product, restricted to the pair table. */
  lemma RowsAreCross(spec: JoinSpec, survivors: Survivors, pairs: Option<PairTable>, row: seq<int>)
    requires Joinable(spec, survivors, pairs)
    ensures row in CrossRows(spec, survivors, pairs) <==> InCross(spec, survivors, pairs, row)
  {
    CrossCounts(spec, survivors, pairs, row);
    MultiplicityPositive(spec, survivors, pairs, row);
    assert row in CrossRows(spec, survivors, pairs) <==> multiset(CrossRows(spec, survivors, pairs))[row] > 0;
  }

  lemma MultiplicityPositive(spec: JoinSpec, survivors: Survivors, pairs: Option<PairTable>, row: seq<int>)
    requires Joinable(spec, survivors, pairs)
    ensures Multiplicity(spec, survivors, pairs, row) > 0 <==> InCross(spec, survivors, pairs, row)
  {
    if |row| == |spec.aliases| {
      var (document, member) := (At(spec, row, spec.anchor), MemberOf(spec, row));
      CountsPicked(PartnerLists(spec, survivors), member);
      OftenPositive(pairs, document, member);
    }
  }

  lemma OftenPositive(pairs: Option<PairTable>, document: int, member: seq<int>)
    requires pairs.Some? ==> pairs.value.Valid()
    ensures Often(pairs, document, member) > 0
      <==> (pairs.Some? ==> member != [] && pairs.value.Has(document, member[0]))
    ensures (pairs.Some? ==> pairs.value.Unique()) ==> Often(pairs, document, member) <= 1
  {
    if pairs.Some? && member != [] {
      CountPairs(pairs.value.anchors, pairs.value.partners, document, member[0]);
      assert pairs.value == PairTable(pairs.value.anchors, pairs.value.partners);
    }
  }

  lemma AtMostOne(a: nat, b: nat)
    requires a <= 1 && b <= 1
    ensures a * b <= 1
  {
    if a == 1 {
      assert a * b == b;
    }
  }

  lemma {:induction false} DistinctMembers(lists: seq<seq<int>>, m: seq<int>)
    requires |m| == |lists| && forall k :: 0 <= k < |lists| ==> Distinct(lists[k])
    ensures MemberCount(lists, m) <= 1
  {
    if lists != [] {
      var n := |lists| - 1;
      DistinctMembers(lists[..n], m[..n]);
      DistinctCount(lists[n], m[n]);
      AtMostOne(MemberCount(lists[..n], m[..n]), multiset(lists[n])[m[n]]);
    }
  }

  /** From distinct survivors and a table without repeats, no row is asked twice. */
  lemma RowsDistinct(spec: JoinSpec, survivors: Survivors, pairs: Option<PairTable>)
    requires Joinable(spec, survivors, pairs) && (pairs.Some? ==> pairs.value.Unique())
    requires forall a :: a in spec.aliases ==> Distinct(survivors[a])
    ensures Distinct(CrossRows(spec, survivors, pairs))
  {
    var rows := CrossRows(spec, survivors, pairs);
    forall i, j | 0 <= i < j < |rows| ensures rows[i] != rows[j] {
      CrossCounts(spec, survivors, pairs, rows[i]);
      RowOnce(spec, survivors, pairs, rows[i]);
      if rows[i] == rows[j] {
        CountedTwice(rows, i, j);
      }
    }
  }

  lemma RowOnce(spec: JoinSpec, survivors: Survivors, pairs: Option<PairTable>, row: seq<int>)
    requires Joinable(spec, survivors, pairs) && (pairs.Some? ==> pairs.value.Unique())
    requires forall a :: a in spec.aliases ==> Distinct(survivors[a])
    ensures Multiplicity(spec, survivors, pairs, row) <= 1
  {
    if |row| == |spec.aliases| {
      var (document, member) := (At(spec, row, spec.anchor), MemberOf(spec, row));
      DistinctCount(survivors[spec.anchor], document);
      PartnersDistinct(spec, survivors);
      DistinctMembers(PartnerLists(spec, survivors), member);
      OftenPositive(pairs, document, member);
    }
  }

  lemma PartnersDistinct(spec: JoinSpec, survivors: Survivors)
    requires forall a :: a in spec.aliases ==> a in survivors && Distinct(survivors[a])
    ensures forall k :: 0 <= k < |PartnerLists(spec, survivors)| ==> Distinct(PartnerLists(spec, survivors)[k])
  {
    forall k | 0 <= k < |spec.Partners()| ensures Distinct(PartnerLists(spec, survivors)[k]) {
      assert spec.Partners()[k] in spec.Partners();
    }
  }
}
