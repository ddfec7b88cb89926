module Common {
  datatype Option<T> = None | Some(value: T)

  /** A cell of a table: a document, and one of its stages or fields. */
  type Cell = (nat, nat)

  function Max(a: int, b: int): int {
    if a < b then b else a
  }

  function Min(a: int, b: int): int {
    if a < b then a else b
  }

  function Sum(s: seq<nat>): nat {
    if s == [] then 0 else Sum(s[..|s| - 1]) + s[|s| - 1]
  }

  function Copies<T>(n: nat, x: T): (r: seq<T>)
    ensures |r| == n && forall i :: 0 <= i < n ==> r[i] == x
  {
    seq(n, _ => x)
  }

  lemma AnyMember<T>(s: set<T>) returns (x: T)
    requires s != {}
    ensures x in s
  {
    x :| x in s;
  }

  method Any<T>(s: set<T>) returns (x: T)
    requires s != {}
    ensures x in s
  {
    x :| x in s;
  }

  lemma TakeNext<T>(s: seq<T>, i: nat)
    requires i < |s|
    ensures s[..i + 1] == s[..i] + [s[i]]
  {
  }

  lemma {:induction false} SubsetSize<T>(a: set<T>, b: set<T>)
    requires a <= b
    ensures |a| <= |b|
  {
    if a != {} {
      var x :| x in a;
      SubsetSize(a - {x}, b - {x});
    }
  }

  /** A quotient is at least q exactly when the dividend holds q divisors. */
  lemma Quotient(n: int, d: nat, q: int)
    requires d >= 1
    ensures n / d >= q <==> n >= q * d
  {
    var (k, r) := (n / d, n % d);
    assert n == k * d + r && 0 <= r < d;
    if k >= q {
      assert (k - q) * d >= 0;
    } else {
      assert (q - k - 1) * d >= 0;
    }
  }
}
