/**
 * Base-10 rendering of a non-negative integer, as the `%d` verb of Go's
 * formatted printing writes it (no sign, no leading zeros), and its
 * inverse.
 */
module Decimal {

  predicate IsDigit(c: char) {
    '0' <= c <= '9'
  }

  function DigitChar(d: nat): (c: char)
    requires d < 10
    ensures IsDigit(c) && c as int - '0' as int == d
  {
    ('0' as int + d) as char
  }

  function DigitValue(c: char): (d: nat)
    ensures d < 10
    ensures IsDigit(c) ==> DigitChar(d) == c
  {
    if IsDigit(c) then c as int - '0' as int else 0
  }

  /** `n` written in base 10, most significant digit first. */
  function Render(n: nat): (s: string)
    ensures |s| >= 1
    ensures forall i :: 0 <= i < |s| ==> IsDigit(s[i])
    ensures |s| > 1 ==> s[0] != '0'
  {
    if n < 10 then [DigitChar(n)] else Render(n / 10) + [DigitChar(n % 10)]
  }

  /** The value of a string of digits, read most significant digit first. */
  function Parse(s: string): nat
  {
    if s == [] then 0 else Parse(s[..|s| - 1]) * 10 + DigitValue(s[|s| - 1])
  }

  /** `s` is the canonical rendering of some number. */
  predicate IsCanonical(s: string) {
    Render(Parse(s)) == s
  }

  /** Reading a rendered number gives the number back. */
  lemma {:induction false} ParseRender(n: nat)
    ensures Parse(Render(n)) == n
  {
    var s := Render(n);
    if n >= 10 {
      ParseRender(n / 10);
      assert s[..|s| - 1] == Render(n / 10);
    }
  }

  /** Distinct numbers have distinct renderings. */
  lemma RenderInjective(a: nat, b: nat)
    requires Render(a) == Render(b)
    ensures a == b
  {
    ParseRender(a);
    ParseRender(b);
  }
}
