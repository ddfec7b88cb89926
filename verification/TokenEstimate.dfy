/** The token heuristic of the trace compaction demo (`text_length`, `text_slice`, `truncate`,
    `estimate_tokens`).  Text is a sequence of UTF-16 code units; costs are in tenths of a token. */
module TokenEstimate {

  /** A UTF-16 code unit. */
  type Unit = int
  type Text = seq<Unit>

  function Units(s: string): (r: Text)
    ensures |r| == |s|
  {
    seq(|s|, i requires 0 <= i < |s| => s[i] as int)
  }

  predicate IsLetter(u: Unit) {
    'A' as int <= u <= 'Z' as int || 'a' as int <= u <= 'z' as int
  }

  predicate IsDigit(u: Unit) {
    '0' as int <= u <= '9' as int
  }

  /** The code units of Python's whitespace characters. */
  predicate IsSpace(u: Unit) {
    || 9 <= u <= 13 || 28 <= u <= 32 || u == 0x85 || u == 0xA0 || u == 0x1680 || 0x2000 <= u <= 0x200A
    || u == 0x2028 || u == 0x2029 || u == 0x202F || u == 0x205F || u == 0x3000
  }

  /** `not text.strip()` */
  predicate Blank(text: Text) {
    forall i :: 0 <= i < |text| ==> IsSpace(text[i])
  }

  /** `text[:limit - 1] + "…"` for text over the limit. */
  function Truncate(text: Text, limit: nat): (r: Text)
    requires limit > 0
    ensures |r| <= |text| && |r| <= limit
    ensures |text| <= limit ==> r == text
  {
    if |text| <= limit then text else text[..limit - 1] + [0x2026]
  }

  /** Letters at the end of a text. */
  function TailLetters(text: Text): (r: nat)
    ensures r <= |text|
  {
    if text == [] || !IsLetter(text[|text| - 1]) then 0 else TailLetters(text[..|text| - 1]) + 1
  }

  /** Letters at the start of a text. */
  function LeadLetters(text: Text): (r: nat)
    ensures r <= |text|
  {
    if text == [] then
      0
    else
      var n := |text| - 1;
      var lead := LeadLetters(text[..n]);
      if lead == n && IsLetter(text[n]) then n + 1 else lead
  }

  /** A run of n letters costs one token for every six begun. */
  function Sixes(n: nat): nat {
    if n == 0 then 0 else if n <= 6 then 1 else Sixes(n - 6) + 1
  }

  lemma {:induction false} SixesBegun(n: nat)
    requires n > 0
    ensures Sixes(n) == 1 + (n - 1) / 6
  {
    if n > 6 {
      SixesBegun(n - 6);
    }
  }

  lemma SixesGrow(n: nat)
    ensures Sixes(n) <= Sixes(n + 1)
  {
    SixesBegun(n + 1);
    if n > 0 {
      SixesBegun(n);
    }
  }

  /** The cost of a text in tenths: letters by the run, half a token a digit, 0.9 any other unit. */
  function Cost(text: Text): nat {
    if text == [] then
      0
    else
      var (front, u) := (text[..|text| - 1], text[|text| - 1]);
      Cost(front) + UnitCost(TailLetters(front), u)
  }

  /** What one more unit costs after a run of letters. */
  function UnitCost(run: nat, u: Unit): nat {
    SixesGrow(run);
    if IsLetter(u) then 10 * (Sixes(run + 1) - Sixes(run))
    else if IsDigit(u) then 5
    else if IsSpace(u) then 0
    else 9
  }

  lemma Snoc(text: Text, u: Unit)
    ensures Cost(text + [u]) == Cost(text) + UnitCost(TailLetters(text), u)
    ensures TailLetters(text + [u]) == if IsLetter(u) then TailLetters(text) + 1 else 0
    ensures LeadLetters(text + [u])
      == if LeadLetters(text) == |text| && IsLetter(u) then |text| + 1 else LeadLetters(text)
  {
    assert (text + [u])[..|text|] == text;
  }

  /** Runs joined at a seam are the only difference between a text's cost and its parts' costs. */
  ghost predicate Joined(a: Text, b: Text) {
    && TailLetters(a + b) == (if LeadLetters(b) == |b| then TailLetters(a) + |b| else TailLetters(b))
    && (LeadLetters(b) == |b| ==> TailLetters(b) == |b|)
    && Cost(a + b) == Cost(a) + Cost(b)
         + 10 * (Sixes(TailLetters(a) + LeadLetters(b)) - Sixes(TailLetters(a)) - Sixes(LeadLetters(b)))
  }

  lemma {:induction false} CostJoins(a: Text, b: Text)
    ensures Joined(a, b)
  {
    if b == [] {
      assert a + b == a;
    } else {
      CostJoins(a, b[..|b| - 1]);
      assert b == b[..|b| - 1] + [b[|b| - 1]];
      JoinedNext(a, b[..|b| - 1], b[|b| - 1]);
    }
  }

  lemma JoinedNext(a: Text, b: Text, u: Unit)
    requires Joined(a, b)
    ensures Joined(a, b + [u])
  {
    Snoc(b, u);
    Snoc(a + b, u);
    AppendLater(a, b, [u]);
  }

  lemma AppendLater(a: Text, b: Text, c: Text)
    ensures a + (b + c) == (a + b) + c
  {
  }

  lemma SixesJoin(m: nat, n: nat)
    ensures Sixes(m + n) <= Sixes(m) + Sixes(n)
  {
    if m > 0 && n > 0 {
      SixesBegun(m);
      SixesBegun(n);
      SixesBegun(m + n);
    }
  }

  /** Putting texts together never costs more. */
  lemma CostSubadditive(a: Text, b: Text)
    ensures Cost(a + b) <= Cost(a) + Cost(b)
  {
    CostJoins(a, b);
    SixesJoin(TailLetters(a), LeadLetters(b));
  }

  /** Nothing joins across a seam that a letter does not touch on one side. */
  lemma CostSeparate(a: Text, b: Text)
    requires TailLetters(a) == 0 || LeadLetters(b) == 0
    ensures Cost(a + b) == Cost(a) + Cost(b)
  {
    CostJoins(a, b);
  }

  lemma CommaCost()
    ensures Cost([',' as int]) == 9
  {
    var empty: Text := [];
    Snoc(empty, ',' as int);
    assert empty + [',' as int] == [',' as int];
  }

  /** What comes after a comma costs no more than it does alone, and the comma 0.9. */
  lemma AfterComma(before: Text, text: Text)
    ensures Cost(before + [',' as int] + text) <= Cost(before) + 9 + Cost(text)
  {
    CommaCost();
    CostSubadditive(before + [',' as int], text);
    CostSubadditive(before, [',' as int]);
  }

  function Ceiling(tenths: nat): (r: nat)
    ensures tenths <= 10 * r < tenths + 10
  {
    (tenths + 9) / 10
  }

  /** The end of the run of letters, or of digits, that starts at `start`. */
  method RunEnd(text: Text, start: nat, letters: bool) returns (end: nat)
    requires start < |text| && (if letters then IsLetter(text[start]) else IsDigit(text[start]))
    ensures start < end <= |text|
    ensures forall i :: start <= i < end ==> if letters then IsLetter(text[i]) else IsDigit(text[i])
    ensures end < |text| ==> if letters then !IsLetter(text[end]) else !IsDigit(text[end])
  {
    end := start + 1;
    while end < |text| && (if letters then IsLetter(text[end]) else IsDigit(text[end]))
      invariant start < end <= |text|
      invariant forall i :: start <= i < end ==> if letters then IsLetter(text[i]) else IsDigit(text[i])
    {
      end := end + 1;
    }
  }

  /** A whole run of letters is charged at once. */
  lemma {:induction false} LetterRun(text: Text, start: nat, end: nat)
    requires start <= end <= |text| && TailLetters(text[..start]) == 0
    requires forall i :: start <= i < end ==> IsLetter(text[i])
    ensures TailLetters(text[..end]) == end - start
    ensures Cost(text[..end]) == Cost(text[..start]) + 10 * Sixes(end - start)
    decreases end
  {
    if start < end {
      LetterRun(text, start, end - 1);
      assert text[..end][..end - 1] == text[..end - 1];
    }
  }

  lemma {:induction false} DigitRun(text: Text, start: nat, end: nat)
    requires start < end <= |text| && forall i :: start <= i < end ==> IsDigit(text[i])
    ensures TailLetters(text[..end]) == 0
    ensures Cost(text[..end]) == Cost(text[..start]) + 5 * (end - start)
    decreases end
  {
    assert text[..end][..end - 1] == text[..end - 1];
    if start < end - 1 {
      DigitRun(text, start, end - 1);
    }
  }

  /** `estimate_tokens`: piece by piece, as the pattern matches them. */
  method EstimateTokens(text: Text) returns (tokens: nat)
    ensures tokens == Ceiling(Cost(text))
  {
    var (at, total) := (0, 0);
    while at < |text|
      invariant at <= |text| && total == Cost(text[..at])
      invariant TailLetters(text[..at]) == 0 || (at < |text| && !IsLetter(text[at])) || at == |text|
    {
      if IsLetter(text[at]) {
        var end := RunEnd(text, at, true);
        LetterRun(text, at, end);
        SixesBegun(end - at);
        total := total + 10 * (1 + (end - at - 1) / 6);
        at := end;
      } else if IsDigit(text[at]) {
        var end := RunEnd(text, at, false);
        DigitRun(text, at, end);
        total := total + 5 * (end - at);
        at := end;
      } else {
        assert text[..at + 1][..at] == text[..at];
        total := total + (if IsSpace(text[at]) then 0 else 9);
        at := at + 1;
      }
    }
    assert text[..|text|] == text;
    tokens := Ceiling(total);
  }
}
