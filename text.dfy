/** Decimal rendering of natural numbers, as Python's `str(n)` and
    `strftime('%d')` produce it, and the suffix structure of renamed columns. */
module Text {

  predicate IsDigit(c: char) {
    '0' <= c <= '9'
  }

  predicate AllDigits(s: string) {
    forall i :: 0 <= i < |s| ==> IsDigit(s[i])
  }

  function DigitChar(d: nat): (c: char)
    requires d < 10
    ensures IsDigit(c)
  {
    ('0' as int + d) as char
  }

  function DigitValue(c: char): (d: nat)
    requires IsDigit(c)
    ensures d < 10 && DigitChar(d) == c
  {
    c as int - '0' as int
  }

  /** The value a string of decimal digits denotes. */
  function ParseNat(s: string): nat
    requires AllDigits(s)
  {
    if s == [] then 0 else 10 * ParseNat(s[..|s| - 1]) + DigitValue(s[|s| - 1])
  }

  /** `str(n)` for a non-negative integer: no sign, no leading zero. */
  function NatToString(n: nat): (s: string)
    ensures 1 <= |s| && AllDigits(s)
    ensures s[0] == '0' ==> n == 0
  {
    if n < 10 then [DigitChar(n)] else NatToString(n / 10) + [DigitChar(n % 10)]
  }

  /** Rendering and parsing are inverse: the digits denote n. */
  lemma {:induction false} NatToStringRoundTrip(n: nat)
    ensures ParseNat(NatToString(n)) == n
  {
    if n >= 10 {
      var s := NatToString(n);
      assert s[..|s| - 1] == NatToString(n / 10);
      NatToStringRoundTrip(n / 10);
    }
  }

  /** Distinct numbers have distinct renderings. */
  lemma NatToStringInjective(m: nat, n: nat)
    requires NatToString(m) == NatToString(n)
    ensures m == n
  {
    NatToStringRoundTrip(m);
    NatToStringRoundTrip(n);
  }

  /** Four-digit numbers (the years Python formats) render as four characters. */
  lemma NatToStringFourDigits(n: nat)
    requires 1000 <= n <= 9999
    ensures |NatToString(n)| == 4
  {
    assert NatToString(n) == NatToString(n / 10) + [DigitChar(n % 10)];
    assert NatToString(n / 10) == NatToString(n / 100) + [DigitChar(n / 10 % 10)];
    assert NatToString(n / 100) == NatToString(n / 1000) + [DigitChar(n / 100 % 10)];
  }

  /** Two-digit zero-padded rendering, as `strftime` writes `%d` and `%m`. */
  function Pad2(n: nat): (s: string)
    requires n < 100
    ensures |s| == 2 && AllDigits(s) && ParseNat(s) == n
  {
    NatToStringRoundTrip(n);
    if n < 10 then ['0'] + NatToString(n) else NatToString(n)
  }

  /** `name + '_' + unit`: the column name a per-unit copy gets. */
  function Suffixed(name: string, unit: string): string {
    name + "_" + unit
  }

  /** The part of a name after its last underscore (the whole name if it has none). */
  function AfterLastUnderscore(s: string): (r: string)
    ensures '_' !in r
  {
    if s == [] || s[|s| - 1] == '_' then [] else AfterLastUnderscore(s[..|s| - 1]) + [s[|s| - 1]]
  }

  lemma {:induction false} AfterLastUnderscoreOfSuffixed(c: string, u: string)
    requires '_' !in u
    ensures AfterLastUnderscore(Suffixed(c, u)) == u
  {
    var s := Suffixed(c, u);
    if u != [] {
      assert s[..|s| - 1] == Suffixed(c, u[..|u| - 1]);
      AfterLastUnderscoreOfSuffixed(c, u[..|u| - 1]);
    }
  }

  /** A unit name without underscores is recovered from any suffixed name:
      it is what follows the last underscore. Hence suffixing with such names
      never makes two different (column, unit) pairs collide. */
  lemma SuffixedInjective(c1: string, u1: string, c2: string, u2: string)
    requires '_' !in u1 && '_' !in u2
    requires Suffixed(c1, u1) == Suffixed(c2, u2)
    ensures c1 == c2 && u1 == u2
  {
    var s := Suffixed(c1, u1);
    AfterLastUnderscoreOfSuffixed(c1, u1);
    AfterLastUnderscoreOfSuffixed(c2, u2);
    assert c1 == s[..|s| - |u1| - 1] == c2;
  }
}
