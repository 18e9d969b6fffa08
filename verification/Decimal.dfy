/** Decimal numerals, and the search for a numbered name that is not yet used. */
module Decimal {
  import opened Prelude

  predicate IsDigit(c: char) { '0' <= c <= '9' }

  function Digit(d: nat): char
    requires d < 10
    ensures IsDigit(Digit(d))
  {
    '0' + d as char
  }

  /** The decimal numeral of `n`, without leading zeros. */
  function Digits(n: nat): (s: string)
    ensures s != [] && forall c :: c in s ==> IsDigit(c)
  {
    if n < 10 then [Digit(n)] else Digits(n / 10) + [Digit(n % 10)]
  }

  function ValueOf(s: string): nat
    requires forall c :: c in s ==> IsDigit(c)
  {
    if s == [] then 0
    else
      var last := s[|s| - 1];
      assert last in s && IsDigit(last);
      10 * ValueOf(s[..|s| - 1]) + (last as int - '0' as int)
  }

  lemma {:induction false} DigitsDenote(n: nat)
    ensures ValueOf(Digits(n)) == n
  {
    if n < 10 {
      assert Digits(n)[..0] == [];
    } else {
      DigitsDenote(n / 10);
      assert Digits(n)[..|Digits(n)| - 1] == Digits(n / 10);
    }
  }

  lemma DigitsInjective(m: nat, n: nat)
    requires Digits(m) == Digits(n)
    ensures m == n
  {
    DigitsDenote(m);
    DigitsDenote(n);
  }

  /** A numeral followed by a non-digit can be read back. */
  lemma {:induction false} NumeralsArePrefixFree(a: string, b: string, sep: char, x: string, y: string)
    requires (forall c :: c in a ==> IsDigit(c)) && (forall c :: c in b ==> IsDigit(c)) && !IsDigit(sep)
    requires a + [sep] + x == b + [sep] + y
    ensures a == b && x == y
    decreases |a|
  {
    var left, right := a + [sep] + x, b + [sep] + y;
    assert left[0] == if a == [] then sep else a[0];
    assert right[0] == if b == [] then sep else b[0];
    assert (a != [] ==> a[0] in a) && (b != [] ==> b[0] in b);
    if a == [] {
      assert left[1..] == x && right[1..] == y;
    } else {
      assert left[1..] == a[1..] + [sep] + x && right[1..] == b[1..] + [sep] + y;
      NumeralsArePrefixFree(a[1..], b[1..], sep, x, y);
    }
  }

  /** What follows the last separator of a text that ends in a numeral is that numeral. */
  lemma {:induction false} NumeralsAreSuffixFree(x: string, y: string, sep: char, a: string, b: string)
    requires (forall c :: c in a ==> IsDigit(c)) && (forall c :: c in b ==> IsDigit(c)) && !IsDigit(sep)
    requires x + [sep] + a == y + [sep] + b
    ensures a == b && x == y
    decreases |a|
  {
    var left, right := x + [sep] + a, y + [sep] + b;
    assert left[|left| - 1] == if a == [] then sep else a[|a| - 1];
    assert right[|right| - 1] == if b == [] then sep else b[|b| - 1];
    assert (a != [] ==> a[|a| - 1] in a) && (b != [] ==> b[|b| - 1] in b);
    if a == [] {
      assert left[..|left| - 1] == x && right[..|right| - 1] == y;
    } else {
      assert left[..|left| - 1] == x + [sep] + a[..|a| - 1] && right[..|right| - 1] == y + [sep] + b[..|b| - 1];
      NumeralsAreSuffixFree(x, y, sep, a[..|a| - 1], b[..|b| - 1]);
      assert a == a[..|a| - 1] + [a[|a| - 1]] && b == b[..|b| - 1] + [b[|b| - 1]];
    }
  }

  // ----- fresh names --------------------------------------------------------

  ghost predicate Injective(f: nat -> string) {
    forall i, j :: f(i) == f(j) ==> i == j
  }

  ghost function Taken(f: nat -> string, used: set<string>, k: nat): set<string> {
    set name | name in used && exists j :: j >= k && f(j) == name
  }

  lemma TakenShrinks(f: nat -> string, used: set<string>, k: nat)
    requires Injective(f) && f(k) in used
    ensures |Taken(f, used, k + 1)| < |Taken(f, used, k)|
  {
    assert f(k) in Taken(f, used, k) && f(k) !in Taken(f, used, k + 1);
    SubsetCount(Taken(f, used, k + 1), Taken(f, used, k) - {f(k)});
  }

  /** The least number from `k` on whose name is not used; there is one, because only finitely many are. */
  function Search(f: nat -> string, used: set<string>, k: nat): (j: nat)
    requires Injective(f)
    ensures k <= j && f(j) !in used
    ensures forall i :: k <= i < j ==> f(i) in used
    decreases |Taken(f, used, k)|
  {
    if f(k) !in used then k
    else
      TakenShrinks(f, used, k);
      Search(f, used, k + 1)
  }
}
