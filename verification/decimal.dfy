/** Decimal rendering of natural numbers, as `operator<<` writes a line
    number into a stream, together with the parser that inverts it. */
module Decimal {

  predicate IsDigit(c: char) {
    '0' <= c <= '9'
  }

  predicate IsDigits(s: string) {
    forall i :: 0 <= i < |s| ==> IsDigit(s[i])
  }

  /** A canonical decimal numeral: at least one digit and no leading zero. */
  predicate IsCanonical(s: string) {
    1 <= |s| && IsDigits(s) && (|s| > 1 ==> s[0] != '0')
  }

  function DigitValue(c: char): (d: nat)
    requires IsDigit(c)
    ensures d < 10
  {
    c as int - '0' as int
  }

  function DigitChar(d: nat): (c: char)
    requires d < 10
    ensures IsDigit(c) && DigitValue(c) == d
  {
    ('0' as int + d) as char
  }

  /** The number a string of digits denotes, most significant digit first. */
  function Value(s: string): nat
    requires IsDigits(s)
  {
    if |s| == 0 then 0 else Value(s[..|s| - 1]) * 10 + DigitValue(s[|s| - 1])
  }

  /** The decimal text of `n`, as a stream prints an unsigned integer. */
  function Render(n: nat): (r: string)
    ensures IsCanonical(r)
    ensures Value(r) == n
  {
    if n < 10 then [DigitChar(n)]
    else
      var r := Render(n / 10) + [DigitChar(n % 10)];
      assert r[..|r| - 1] == Render(n / 10);
      r
  }

  /** A canonical numeral with more than one digit denotes at least 10. */
  lemma {:induction false} ValueOfLongCanonical(s: string)
    requires IsCanonical(s) && |s| > 1
    ensures Value(s) >= 10
  {
    var p := s[..|s| - 1];
    assert IsCanonical(p) && p[0] == s[0];
    if |p| > 1 {
      ValueOfLongCanonical(p);
    } else {
      assert Value(p) == DigitValue(p[0]) >= 1;
    }
  }

  /** Rendering inverts parsing on canonical numerals. */
  lemma {:induction false} RenderValue(s: string)
    requires IsCanonical(s)
    ensures Render(Value(s)) == s
  {
    if |s| > 1 {
      var p := s[..|s| - 1];
      assert IsCanonical(p) && p[0] == s[0];
      var d := DigitValue(s[|s| - 1]);
      assert Value(s) == Value(p) * 10 + d;
      ValueOfLongCanonical(s);
      RenderValue(p);
      DivMod10(Value(p), d);
      assert s == p + [s[|s| - 1]];
    }
  }

  lemma DivMod10(a: nat, d: nat)
    requires d < 10
    ensures (a * 10 + d) / 10 == a && (a * 10 + d) % 10 == d
  {
  }

  /** Decimal text determines the number: distinct line numbers render differently. */
  lemma RenderInjective(m: nat, n: nat)
    ensures Render(m) == Render(n) <==> m == n
  {
  }

}
