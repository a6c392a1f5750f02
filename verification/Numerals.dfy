/** Decimal numerals, and why identifiers built from them do not collide. */
module Numerals {
  predicate IsDigit(c: char) {
    '0' <= c <= '9'
  }

  predicate AllDigits(s: string) {
    forall i :: 0 <= i < |s| ==> IsDigit(s[i])
  }

  /** Python's `str` of a natural number. */
  function Decimal(n: nat): (s: string)
    ensures s != [] && AllDigits(s)
  {
    if n < 10 then ['0' + n as char] else Decimal(n / 10) + ['0' + (n % 10) as char]
  }

  /** The ten digit characters. */
  lemma DigitOf(d: nat)
    requires d < 10
    ensures ['0' + d as char] == ["0123456789"[d]]
  {
    var digits := "0123456789";
    if d <= 4 {
      assert d == 0 || d == 1 || d == 2 || d == 3 || d == 4;
    } else {
      assert d == 5 || d == 6 || d == 7 || d == 8 || d == 9;
    }
  }

  /** Digits from the last to the first. */
  lemma DecimalDigits(n: nat)
    ensures n < 10 ==> Decimal(n) == ["0123456789"[n]]
    ensures n >= 10 ==> Decimal(n) == Decimal(n / 10) + ["0123456789"[n % 10]]
  {
    DigitOf(n % 10);
  }

  function Value(s: string): nat
    requires AllDigits(s)
  {
    if s == [] then 0 else Value(s[..|s| - 1]) * 10 + (s[|s| - 1] - '0') as int
  }

  lemma {:induction false} ValueOfDecimal(n: nat)
    ensures Value(Decimal(n)) == n
  {
    if n >= 10 {
      ValueOfDecimal(n / 10);
      var s := Decimal(n);
      assert s[..|s| - 1] == Decimal(n / 10);
    } else {
      assert Decimal(n)[..0] == [];
    }
  }

  lemma DecimalInjective(m: nat, n: nat)
    requires Decimal(m) == Decimal(n)
    ensures m == n
  {
    ValueOfDecimal(m);
    ValueOfDecimal(n);
  }

  lemma NotShorter(m: nat, x: string, n: nat, y: string)
    requires Decimal(m) + x == Decimal(n) + y && (x == [] || !IsDigit(x[0]))
    ensures |Decimal(m)| >= |Decimal(n)|
  {
    var a, b := Decimal(m), Decimal(n);
    assert forall i :: 0 <= i < |b| ==> IsDigit((a + x)[i]);
    assert x != [] ==> (a + x)[|a|] == x[0];
  }

  /** A numeral ends where the first character that is no digit stands. */
  lemma NumeralsEndTogether(m: nat, x: string, n: nat, y: string)
    requires Decimal(m) + x == Decimal(n) + y
    requires x == [] || !IsDigit(x[0])
    requires y == [] || !IsDigit(y[0])
    ensures m == n && x == y
  {
    var a, b := Decimal(m), Decimal(n);
    var whole := a + x;
    NotShorter(m, x, n, y);
    NotShorter(n, y, m, x);
    assert whole[..|a|] == a && whole[..|b|] == b;
    assert whole[|a|..] == x && whole[|b|..] == y;
    DecimalInjective(m, n);
  }
}
