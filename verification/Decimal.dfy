/** Decimal text of natural numbers. */
module Decimal {

  predicate IsDigit(c: char) {
    '0' <= c <= '9'
  }

  predicate AllDigits(s: string) {
    forall i :: 0 <= i < |s| ==> IsDigit(s[i])
  }

  function Digit(d: nat): (c: char)
    requires d < 10
    ensures IsDigit(c)
  {
    '0' + d as char
  }

  function DigitValue(c: char): (d: nat)
    requires IsDigit(c)
    ensures d < 10
  {
    (c - '0') as nat
  }

  /** What `str(n)` prints. */
  function Text(n: nat): (s: string)
    ensures s != [] && AllDigits(s)
  {
    if n < 10 then [Digit(n)] else Text(n / 10) + [Digit(n % 10)]
  }

  /** What `int(s)` reads. */
  function Value(s: string): nat
    requires AllDigits(s)
  {
    if s == [] then 0 else 10 * Value(s[..|s| - 1]) + DigitValue(s[|s| - 1])
  }

  lemma {:induction false} ValueOfText(n: nat)
    ensures Value(Text(n)) == n
  {
    if n >= 10 {
      ValueOfText(n / 10);
      assert Text(n)[..|Text(n)| - 1] == Text(n / 10);
    }
  }

  lemma TextInjective(m: nat, n: nat)
    requires Text(m) == Text(n)
    ensures m == n
  {
    ValueOfText(m);
    ValueOfText(n);
  }

  predicate EndsPlain(a: string) {
    a != [] ==> !IsDigit(a[|a| - 1])
  }

  lemma NotLonger(a: string, m: string, b: string, n: string)
    requires AllDigits(m) && a + m == b + n && EndsPlain(b)
    ensures |b| <= |a|
  {
    if b != [] {
      assert (b + n)[|b| - 1] == b[|b| - 1];
    }
  }

  /** A name that does not end in a digit and a number can be read off their concatenation. */
  lemma NumberedInjective(a: string, m: nat, b: string, n: nat)
    requires EndsPlain(a) && EndsPlain(b) && a + Text(m) == b + Text(n)
    ensures a == b && m == n
  {
    NotLonger(a, Text(m), b, Text(n));
    NotLonger(b, Text(n), a, Text(m));
    assert (a + Text(m))[..|a|] == a && (b + Text(n))[..|b|] == b;
    assert (a + Text(m))[|a|..] == Text(m) && (b + Text(n))[|b|..] == Text(n);
    TextInjective(m, n);
  }
}
