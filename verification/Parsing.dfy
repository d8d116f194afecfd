/** What the parsers share: whitespace, runs of digits, and results that carry the text still to read
    (resotocore/core/parse_util.py). */
module Parsing {
  import opened Decimal

  datatype Parsed<T> = Fail | Done(value: T, rest: string)

  predicate IsSpace(c: char) {
    c == ' ' || '\t' <= c <= '\r' || '\U{1c}' <= c <= '\U{1f}'
  }

  predicate AllSpaces(s: string) {
    forall i :: 0 <= i < |s| ==> IsSpace(s[i])
  }

  /** `\s*` */
  function SkipSpaces(s: string): (r: string)
    ensures |r| <= |s| && (r == [] || !IsSpace(r[0]))
  {
    if s == [] || !IsSpace(s[0]) then s else SkipSpaces(s[1..])
  }

  lemma {:induction false} SkipSpacesPlus(w: string, s: string)
    requires AllSpaces(w)
    ensures SkipSpaces(w + s) == SkipSpaces(s)
  {
    if w == [] {
      assert w + s == s;
    } else {
      assert (w + s)[1..] == w[1..] + s;
      SkipSpacesPlus(w[1..], s);
    }
  }

  lemma NoSpaces(s: string)
    requires s == [] || !IsSpace(s[0])
    ensures SkipSpaces(s) == s
  {
  }

  /** `[0-9]*` */
  function Digits(s: string): (d: string)
    ensures AllDigits(d) && d <= s
  {
    if s == [] || !IsDigit(s[0]) then [] else [s[0]] + Digits(s[1..])
  }

  lemma {:induction false} DigitsPlus(d: string, s: string)
    requires AllDigits(d) && (s == [] || !IsDigit(s[0]))
    ensures Digits(d + s) == d
  {
    if d == [] {
      assert d + s == s;
    } else {
      assert (d + s)[1..] == d[1..] + s;
      DigitsPlus(d[1..], s);
    }
  }

  /** What is left after a prefix. */
  lemma After(a: string, s: string)
    ensures (a + s)[|a|..] == s && a <= a + s
  {
  }

  // ----- numbers -----

  function Power10(k: nat): (p: nat)
    ensures p > 0
  {
    if k == 0 then 1 else 10 * Power10(k - 1)
  }

  function SignOf(s: string): (sign: string)
    ensures sign <= s
  {
    if s != [] && (s[0] == '+' || s[0] == '-') then s[..1] else []
  }

  function Signed(sign: string, x: real): real {
    if sign == "-" then -x else x
  }

  function Fraction(whole: string, frac: string): real
    requires AllDigits(whole) && AllDigits(frac)
  {
    Value(whole) as real + Value(frac) as real / Power10(|frac|) as real
  }

  /** `[+-]?[0-9]+\.[0-9]+` */
  function FloatDp(s: string): (r: Parsed<real>)
    ensures r.Done? ==> |r.rest| < |s|
  {
    var sign := SignOf(s);
    var whole := Digits(s[|sign|..]);
    var t := s[|sign|..][|whole|..];
    var frac := if t != [] && t[0] == '.' then Digits(t[1..]) else [];
    if whole == [] || frac == [] then Fail
    else Done(Signed(sign, Fraction(whole, frac)), t[1..][|frac|..])
  }

  /** `[+-]?[0-9]+` */
  function IntegerDp(s: string): (r: Parsed<real>)
    ensures r.Done? ==> |r.rest| < |s|
  {
    var sign := SignOf(s);
    var whole := Digits(s[|sign|..]);
    if whole == [] then Fail else Done(Signed(sign, Value(whole) as real), s[|sign|..][|whole|..])
  }

  lemma FloatParses(sign: string, whole: string, frac: string, rest: string)
    requires (sign == "" || sign == "+" || sign == "-") && whole != [] && AllDigits(whole) && frac != []
        && AllDigits(frac)
    requires rest == [] || !IsDigit(rest[0])
    ensures FloatDp(sign + (whole + ("." + (frac + rest)))) == Done(Signed(sign, Fraction(whole, frac)), rest)
  {
    hide Value, Fraction, Digits, Signed;
    var tail := "." + (frac + rest);
    assert IsDigit(whole[0]);
    assert SignOf(sign + (whole + tail)) == sign;
    DigitsPlus(whole, tail);
    After(sign, whole + tail);
    After(whole, tail);
    After(".", frac + rest);
    DigitsPlus(frac, rest);
    After(frac, rest);
  }

  lemma IntegerParses(sign: string, whole: string, rest: string)
    requires (sign == "" || sign == "+" || sign == "-") && whole != [] && AllDigits(whole)
    requires rest == [] || (!IsDigit(rest[0]) && rest[0] != '.')
    ensures FloatDp(sign + (whole + rest)).Fail?
    ensures IntegerDp(sign + (whole + rest)) == Done(Signed(sign, Value(whole) as real), rest)
  {
    hide Value, Fraction, Digits, Signed;
    assert IsDigit(whole[0]);
    assert SignOf(sign + (whole + rest)) == sign;
    DigitsPlus(whole, rest);
    After(sign, whole + rest);
    After(whole, rest);
  }
}
