/** Durations as text: the printer delta_to_str and the parser parse_delta of
    resotolib/resotolib/utils.py, and the parser duration_parser of resotocore/core/durations.py that reads
    what a plugin embeds in a query. */
module Durations {
  import opened Decimal
  import opened Options
  import opened Parsing

  const MINUTE := 60
  const HOUR := 3600
  const DAY := 24 * HOUR
  const WEEK := 7 * DAY

  // ----- duration_parser -----

  /** `time_unit_parser`: ordered choice over the names in the order of time_units; the seconds of the
      unit and the length of the name. */
  function UnitAt(s: string): (r: Option<(nat, nat)>)
    ensures r.Some? ==> 0 < r.value.1 <= |s|
  {
    if "years" <= s then Some((365 * DAY, 5))
    else if "year" <= s then Some((365 * DAY, 4))
    else if "yr" <= s then Some((365 * DAY, 2))
    else if "y" <= s then Some((365 * DAY, 1))
    else if "month" <= s then Some((31 * DAY, 5))
    else if "mo" <= s then Some((31 * DAY, 2))
    else if "M" <= s then Some((31 * DAY, 1))
    else if "days" <= s then Some((DAY, 4))
    else if "day" <= s then Some((DAY, 3))
    else if "d" <= s then Some((DAY, 1))
    else if "weeks" <= s then Some((WEEK, 5))
    else if "week" <= s then Some((WEEK, 4))
    else if "w" <= s then Some((WEEK, 1))
    else if "hours" <= s then Some((HOUR, 5))
    else if "hour" <= s then Some((HOUR, 4))
    else if "h" <= s then Some((HOUR, 1))
    else if "minutes" <= s then Some((MINUTE, 7))
    else if "minute" <= s then Some((MINUTE, 6))
    else if "min" <= s then Some((MINUTE, 3))
    else if "m" <= s then Some((MINUTE, 1))
    else if "seconds" <= s then Some((1, 7))
    else if "second" <= s then Some((1, 6))
    else if "s" <= s then Some((1, 1))
    else None
  }

  /** `float_p | integer_p`, with the whitespace around. */
  function Number(s: string): (r: Parsed<real>)
    ensures r.Done? ==> |r.rest| < |s|
  {
    var t := SkipSpaces(s);
    var r := if FloatDp(t).Done? then FloatDp(t) else IntegerDp(t);
    if r.Fail? then Fail else Done(r.value, SkipSpaces(r.rest))
  }

  function Unit(s: string): (r: Parsed<nat>)
    ensures r.Done? ==> |r.rest| < |s|
  {
    var t := SkipSpaces(s);
    var u := UnitAt(t);
    if u.None? then Fail else Done(u.value.0, SkipSpaces(t[u.value.1..]))
  }

  function Times(x: real, k: nat): (r: real)
    ensures x >= 0.0 ==> r >= 0.0
  {
    x * k as real
  }

  function Single(s: string): (r: Parsed<real>)
    ensures r.Done? ==> |r.rest| < |s|
  {
    var n := Number(s);
    if n.Fail? then Fail
    else
      var u := Unit(n.rest);
      if u.Fail? then Fail else Done(Times(n.value, u.value), u.rest)
  }

  /** `time_unit_combination.optional()` */
  function Separator(s: string): (rest: string)
    ensures |rest| <= |s|
  {
    var t := SkipSpaces(s);
    if "," <= t then SkipSpaces(t[1..]) else if "and" <= t then SkipSpaces(t[3..]) else s
  }

  /** The durations after the first; a separator that no duration follows is not consumed. */
  function More(s: string): (seq<real>, string)
    decreases |s|
  {
    var r := Single(Separator(s));
    if r.Fail? then ([], s)
    else var (values, rest) := More(r.rest); ([r.value] + values, rest)
  }

  function Abs(x: real): real {
    if x < 0.0 then -x else x
  }

  function SumAbs(elems: seq<real>): (r: real)
    ensures r >= 0.0
  {
    if elems == [] then 0.0 else SumAbs(elems[..|elems| - 1]) + Abs(elems[|elems| - 1])
  }

  function Combined(elems: seq<real>): real
    requires elems != []
  {
    if elems[0] >= 0.0 then SumAbs(elems) else -SumAbs(elems)
  }

  /** combine_durations */
  method CombineDurations(elems: seq<real>) returns (result: real)
    requires elems != []
    ensures result == Combined(elems)
  {
    result := 0.0;
    for i := 0 to |elems|
      invariant result == SumAbs(elems[..i])
    {
      assert elems[..i + 1][..i] == elems[..i];
      result := result + Abs(elems[i]);
    }
    assert elems[..|elems|] == elems;
    if elems[0] < 0.0 {
      result := -result;
    }
  }

  /** `duration_parser.parse`: seconds, or nothing when the text is not a duration to its end. */
  function ParseDuration(s: string): Option<real> {
    var first := Single(s);
    if first.Fail? then None
    else
      var (values, rest) := More(first.rest);
      if rest != [] then None else Some(Combined([first.value] + values))
  }

  // ----- every written duration is read as its sum -----

  datatype Item = Item(before: string, sign: string, whole: string, frac: string, gap: string, unit: string,
      after: string)

  datatype Next = Next(sep: string, item: Item)

  /** The seconds of a unit with this very name. */
  function UnitSeconds(u: string): Option<nat> {
    if u == "years" || u == "year" || u == "yr" || u == "y" then Some(31536000)
    else if u == "month" || u == "mo" || u == "M" then Some(2678400)
    else if u == "weeks" || u == "week" || u == "w" then Some(604800)
    else if u == "days" || u == "day" || u == "d" then Some(86400)
    else if u == "hours" || u == "hour" || u == "h" then Some(3600)
    else if u == "minutes" || u == "minute" || u == "min" || u == "m" then Some(60)
    else if u == "seconds" || u == "second" || u == "s" then Some(1)
    else None
  }

  predicate IsUnit(u: string) {
    UnitSeconds(u).Some?
  }

  predicate ItemOk(i: Item) {
    && AllSpaces(i.before) && AllSpaces(i.gap) && AllSpaces(i.after)
    && (i.sign == "" || i.sign == "+" || i.sign == "-")
    && i.whole != [] && AllDigits(i.whole) && AllDigits(i.frac) && IsUnit(i.unit)
  }

  predicate NextOk(n: Next) {
    ItemOk(n.item) && (n.sep == "" || n.sep == "," || n.sep == "and")
  }

  function NumberText(i: Item): string {
    i.sign + (i.whole + if i.frac == [] then [] else "." + i.frac)
  }

  function ItemText(i: Item): string {
    i.before + (NumberText(i) + (i.gap + (i.unit + i.after)))
  }

  function NextsText(ns: seq<Next>): string {
    if ns == [] then [] else ns[0].sep + (ItemText(ns[0].item) + NextsText(ns[1..]))
  }

  function Count(i: Item): (r: real)
    requires ItemOk(i)
    ensures r >= 0.0
  {
    Value(i.whole) as real + if i.frac == [] then 0.0 else Value(i.frac) as real / Power10(|i.frac|) as real
  }

  function Magnitude(i: Item): (r: real)
    requires ItemOk(i)
    ensures r >= 0.0
  {
    Times(Count(i), UnitSeconds(i.unit).value)
  }

  predicate NextsOk(ns: seq<Next>) {
    forall n :: n in ns ==> NextOk(n)
  }

  function SumOf(ns: seq<Next>): (r: real)
    requires NextsOk(ns)
    ensures r >= 0.0
  {
    if ns == [] then 0.0
    else
      assert NextOk(ns[0]);
      Magnitude(ns[0].item) + SumOf(ns[1..])
  }

  /** What may follow the name of a unit: nothing that could make it a longer name. */
  predicate Follows(rest: string) {
    rest == [] || !('b' <= rest[0] <= 'z' || rest[0] == 'a') || "and" <= rest
  }

  lemma PrefixBeyond(v: string, u: string, rest: string)
    requires v <= u + rest && !(v <= u)
    ensures u < v && rest != [] && rest[0] == v[|u|] && (|u| + 1 < |v| ==> |rest| > 1 && rest[1] == v[|u| + 1])
  {
    assert forall k :: 0 <= k < |u| && k < |v| ==> u[k] == (u + rest)[k] == v[k];
    assert |u| < |v|;
    assert rest[0] == (u + rest)[|u|];
    if |u| + 1 < |v| {
      assert rest[1] == (u + rest)[|u| + 1];
    }
  }

  lemma PrefixPlus(v: string, u: string, rest: string)
    requires Follows(rest)
    requires u < v ==> 'b' <= v[|u|] <= 'z' || (v[|u|] == 'a' && |u| + 1 < |v| && v[|u| + 1] != 'n')
    ensures v <= u + rest <==> v <= u
  {
    if v <= u + rest && !(v <= u) {
      PrefixBeyond(v, u, rest);
    }
    if v <= u {
      assert forall k :: 0 <= k < |v| ==> v[k] == u[k] == (u + rest)[k];
    }
  }

  /** A name of a unit on its own is read to its end. */
  lemma UnitAlone(u: string)
    requires IsUnit(u)
    ensures UnitAt(u) == Some((UnitSeconds(u).value, |u|))
  {
    hide UnitAt, UnitSeconds;
    UnitStart(u);
    if u[0] == 'm' {
      UnitAloneM(u);
    } else if u[0] == 'y' || u[0] == 'M' {
      UnitAloneY(u);
    } else {
      UnitAloneD(u);
    }
  }

  lemma UnitAloneY(u: string)
    requires IsUnit(u) && u != [] && (u[0] == 'y' || u[0] == 'M')
    ensures UnitAt(u) == Some((UnitSeconds(u).value, |u|))
  {
  }

  lemma UnitAloneD(u: string)
    requires IsUnit(u) && u != [] && u[0] != 'y' && u[0] != 'm' && u[0] != 'M'
    ensures UnitAt(u) == Some((UnitSeconds(u).value, |u|))
  {
    if u[0] == 'd' {
    } else if u[0] == 'w' {
    } else if u[0] == 'h' {
    } else {
    }
  }

  lemma UnitAloneM(u: string)
    requires IsUnit(u) && u[0] == 'm'
    ensures UnitAt(u) == Some((UnitSeconds(u).value, |u|))
  {
    if |u| > 1 && u[1] == 'o' {
    } else {
      assert |u| > 1 ==> u[1] == 'i';
    }
  }

  /** The first unit that matches is the whole name that was written. */
  lemma UnitPlus(u: string, rest: string)
    requires IsUnit(u) && Follows(rest)
    ensures UnitAt(u + rest) == Some((UnitSeconds(u).value, |u|))
  {
    UnitAlone(u);
    UnitPrefixes(u, rest);
  }

  lemma UnitPrefixes(u: string, rest: string)
    requires UnitAt(u).Some? && UnitAt(u).value.1 == |u| && Follows(rest)
    ensures UnitAt(u + rest) == UnitAt(u)
  {
    hide Follows;
    YearPrefixes(u, rest);
    MonthPrefixes(u, rest);
    DayPrefixes(u, rest);
    HourPrefixes(u, rest);
  }

  lemma YearPrefixes(u: string, rest: string)
    requires UnitAt(u).Some? && UnitAt(u).value.1 == |u| && Follows(rest)
    ensures "years" <= u + rest <==> "years" <= u
    ensures "year" <= u + rest <==> "year" <= u
    ensures "yr" <= u + rest <==> "yr" <= u
    ensures "y" <= u + rest <==> "y" <= u
  {
    PrefixPlus("years", u, rest);
    PrefixPlus("year", u, rest);
    PrefixPlus("yr", u, rest);
    PrefixPlus("y", u, rest);
  }

  lemma MonthPrefixes(u: string, rest: string)
    requires UnitAt(u).Some? && UnitAt(u).value.1 == |u| && Follows(rest)
    ensures "month" <= u + rest <==> "month" <= u
    ensures "mo" <= u + rest <==> "mo" <= u
    ensures "M" <= u + rest <==> "M" <= u
    ensures "minutes" <= u + rest <==> "minutes" <= u
    ensures "minute" <= u + rest <==> "minute" <= u
    ensures "min" <= u + rest <==> "min" <= u
    ensures "m" <= u + rest <==> "m" <= u
  {
    PrefixPlus("month", u, rest);
    PrefixPlus("mo", u, rest);
    PrefixPlus("M", u, rest);
    PrefixPlus("minutes", u, rest);
    PrefixPlus("minute", u, rest);
    PrefixPlus("min", u, rest);
    PrefixPlus("m", u, rest);
  }

  lemma DayPrefixes(u: string, rest: string)
    requires UnitAt(u).Some? && UnitAt(u).value.1 == |u| && Follows(rest)
    ensures "days" <= u + rest <==> "days" <= u
    ensures "day" <= u + rest <==> "day" <= u
    ensures "d" <= u + rest <==> "d" <= u
    ensures "weeks" <= u + rest <==> "weeks" <= u
    ensures "week" <= u + rest <==> "week" <= u
    ensures "w" <= u + rest <==> "w" <= u
  {
    PrefixPlus("days", u, rest);
    PrefixPlus("day", u, rest);
    PrefixPlus("d", u, rest);
    PrefixPlus("weeks", u, rest);
    PrefixPlus("week", u, rest);
    PrefixPlus("w", u, rest);
  }

  lemma HourPrefixes(u: string, rest: string)
    requires UnitAt(u).Some? && UnitAt(u).value.1 == |u| && Follows(rest)
    ensures "hours" <= u + rest <==> "hours" <= u
    ensures "hour" <= u + rest <==> "hour" <= u
    ensures "h" <= u + rest <==> "h" <= u
    ensures "seconds" <= u + rest <==> "seconds" <= u
    ensures "second" <= u + rest <==> "second" <= u
    ensures "s" <= u + rest <==> "s" <= u
  {
    PrefixPlus("hours", u, rest);
    PrefixPlus("hour", u, rest);
    PrefixPlus("h", u, rest);
    PrefixPlus("seconds", u, rest);
    PrefixPlus("second", u, rest);
    PrefixPlus("s", u, rest);
  }

  /** Whitespace before a duration does not matter. */
  lemma SingleSkips(s: string)
    ensures Single(SkipSpaces(s)) == Single(s)
  {
    hide SkipSpaces, Number, Unit, Times;
    NumberSkips(s);
  }

  lemma NumberSkips(s: string)
    ensures Number(SkipSpaces(s)) == Number(s)
  {
    hide SkipSpaces, FloatDp, IntegerDp;
    NoSpaces(SkipSpaces(s));
  }

  lemma NumberOf(before: string, t: string)
    requires AllSpaces(before) && t != [] && !IsSpace(t[0])
    ensures var r := if FloatDp(t).Done? then FloatDp(t) else IntegerDp(t);
            Number(before + t) == if r.Fail? then Fail else Done(r.value, SkipSpaces(r.rest))
  {
    hide SkipSpaces, FloatDp, IntegerDp;
    SkipSpacesPlus(before, t);
    NoSpaces(t);
  }

  lemma NumberParses(i: Item, rest: string)
    requires ItemOk(i) && (rest == [] || (!IsDigit(rest[0]) && rest[0] != '.'))
    ensures Number(i.before + (NumberText(i) + rest)) == Done(Signed(i.sign, Count(i)), SkipSpaces(rest))
  {
    hide Value, Power10, Digits, SkipSpaces, FloatDp, IntegerDp, UnitAt, Signed, Number, IsUnit, NumberText;
    var t := NumberText(i) + rest;
    NumberStarts(i, rest);
    NumberOf(i.before, t);
    if i.frac == [] {
      IntegerParses(i.sign, i.whole, rest);
    } else {
      FloatParses(i.sign, i.whole, i.frac, rest);
    }
  }

  lemma NumberStarts(i: Item, rest: string)
    requires ItemOk(i)
    ensures var t := NumberText(i) + rest;
            && t != [] && (IsDigit(t[0]) || t[0] == '+' || t[0] == '-')
            && t == i.sign + (i.whole + if i.frac == [] then rest else "." + (i.frac + rest))
  {
    assert IsDigit(i.whole[0]);
    assert NumberText(i) + rest == i.sign + (i.whole + if i.frac == [] then rest else "." + (i.frac + rest));
  }

  lemma UnitParses(i: Item, rest: string)
    requires ItemOk(i) && Follows(i.after + rest)
    ensures Unit(i.gap + (i.unit + (i.after + rest))) == Done(UnitSeconds(i.unit).value, SkipSpaces(rest))
  {
    hide UnitAt, UnitSeconds, SkipSpaces, Follows;
    var t := i.unit + (i.after + rest);
    SkipSpacesPlus(i.gap, t);
    UnitStart(i.unit);
    NoSpaces(t);
    UnitPlus(i.unit, i.after + rest);
    After(i.unit, i.after + rest);
    SkipSpacesPlus(i.after, rest);
  }

  lemma UnitStart(u: string)
    requires IsUnit(u)
    ensures u != [] && !IsSpace(u[0]) && !IsDigit(u[0]) && u[0] != '.'
  {
  }

  /** What may follow a duration: its own whitespace, the end, a sign, a number or a separator. */
  predicate Continues(rest: string) {
    rest == [] || IsSpace(rest[0]) || IsDigit(rest[0]) || rest[0] in "+-," || "and" <= rest
  }

  lemma SingleParses(i: Item, rest: string)
    requires ItemOk(i) && Continues(rest)
    ensures Single(ItemText(i) + rest) == Done(Signed(i.sign, Magnitude(i)), SkipSpaces(rest))
  {
    hide UnitAt, UnitSeconds, Value, Fraction, Digits, SkipSpaces, Number, Unit, NumberText, Count, Signed, Times;
    var tail := i.gap + (i.unit + (i.after + rest));
    UnitStart(i.unit);
    assert ItemText(i) + rest == i.before + (NumberText(i) + tail);
    NumberParses(i, tail);
    UnitSkips(tail);
    assert Follows(i.after + rest) by { if i.after == [] { assert i.after + rest == rest; } }
    UnitParses(i, rest);
    SignedTimes(i.sign, Count(i), UnitSeconds(i.unit).value);
  }

  lemma SignedTimes(sign: string, x: real, k: nat)
    ensures Times(Signed(sign, x), k) == Signed(sign, Times(x, k))
  {
  }

  lemma UnitSkips(s: string)
    ensures Unit(SkipSpaces(s)) == Unit(s)
  {
    NoSpaces(SkipSpaces(s));
  }

  lemma {:induction false} MoreParses(ns: seq<Next>)
    requires NextsOk(ns)
    ensures Continues(NextsText(ns))
    ensures var (values, rest) := More(SkipSpaces(NextsText(ns))); rest == [] && AbsAre(values, ns)
    decreases |ns|
  {
    if ns == [] {
      assert Single("").Fail?;
    } else {
      hide Single, SkipSpaces, ItemText, Magnitude, Continues, Separator, Signed, More, AbsAre, NextOk, Abs;
      var n, tail := ns[0], NextsText(ns[1..]);
      assert NextOk(n);
      MoreParses(ns[1..]);
      NextParses(n, tail);
      AbsAreMore(ns, More(SkipSpaces(tail)).0);
    }
  }

  lemma NextParses(n: Next, tail: string)
    requires NextOk(n) && Continues(tail)
    ensures var text := n.sep + (ItemText(n.item) + tail);
            && Continues(text)
            && More(SkipSpaces(text))
               == ([Signed(n.item.sign, Magnitude(n.item))] + More(SkipSpaces(tail)).0, More(SkipSpaces(tail)).1)
  {
    hide Single, SkipSpaces, ItemText, Magnitude, Continues, Separator, Signed, ItemOk;
    SingleParses(n.item, tail);
    SingleSkips(ItemText(n.item) + tail);
    SeparatorSkips(n, tail);
  }

  lemma AbsAreMore(ns: seq<Next>, values: seq<real>)
    requires ns != [] && NextsOk(ns) && NextOk(ns[0]) && NextsOk(ns[1..]) && AbsAre(values, ns[1..])
    ensures AbsAre([Signed(ns[0].item.sign, Magnitude(ns[0].item))] + values, ns)
  {
    hide Magnitude, ItemOk, Signed;
    AbsSigned(ns[0].item);
    var all := [Signed(ns[0].item.sign, Magnitude(ns[0].item))] + values;
    forall k | 0 <= k < |ns|
      ensures NextOk(ns[k]) && Abs(all[k]) == Magnitude(ns[k].item)
    {
      if k > 0 {
        assert all[k] == values[k - 1] && ns[k] == ns[1..][k - 1];
      }
    }
  }

  lemma AbsSigned(i: Item)
    requires ItemOk(i)
    ensures Abs(Signed(i.sign, Magnitude(i))) == Magnitude(i)
  {
  }

  ghost predicate AbsAre(values: seq<real>, ns: seq<Next>)
    requires NextsOk(ns)
  {
    |values| == |ns| && forall k :: 0 <= k < |ns| ==> NextOk(ns[k]) && Abs(values[k]) == Magnitude(ns[k].item)
  }

  lemma ItemStarts(i: Item, tail: string)
    requires ItemOk(i)
    ensures var t := SkipSpaces(ItemText(i) + tail); t != [] && (IsDigit(t[0]) || t[0] == '+' || t[0] == '-')
  {
    hide SkipSpaces;
    var t := NumberText(i) + (i.gap + (i.unit + (i.after + tail)));
    assert ItemText(i) + tail == i.before + t;
    SkipSpacesPlus(i.before, t);
    assert IsDigit(i.whole[0]);
    NoSpaces(t);
  }

  lemma SeparatorSkips(n: Next, tail: string)
    requires NextOk(n)
    ensures var text := n.sep + (ItemText(n.item) + tail);
            && Continues(text)
            && (Separator(SkipSpaces(text)) == SkipSpaces(ItemText(n.item) + tail))
  {
    hide SkipSpaces, ItemText;
    var text := ItemText(n.item) + tail;
    ItemStarts(n.item, tail);
    if n.sep == "" {
      assert n.sep + text == text;
      NoSpaces(SkipSpaces(text));
      SkipsHead(text);
    } else {
      After(n.sep, text);
      NoSpaces(n.sep + text);
    }
  }

  /** A text that starts with whitespace, or with what is behind it. */
  lemma SkipsHead(s: string)
    ensures s != [] ==> IsSpace(s[0]) || SkipSpaces(s) == s
    ensures s == [] ==> SkipSpaces(s) == []
  {
  }

  lemma {:induction false} SumAbsHead(x: real, values: seq<real>)
    ensures SumAbs([x] + values) == Abs(x) + SumAbs(values)
  {
    var all := [x] + values;
    if values == [] {
      assert all[..0] == [];
    } else {
      assert all[..|all| - 1] == [x] + values[..|values| - 1];
      SumAbsHead(x, values[..|values| - 1]);
    }
  }

  lemma {:induction false} SumAbsIs(values: seq<real>, ns: seq<Next>)
    requires NextsOk(ns) && AbsAre(values, ns)
    ensures SumAbs(values) == SumOf(ns)
    decreases |ns|
  {
    hide Magnitude, Abs;
    if ns == [] {
      assert values == [];
    } else {
      assert values == [values[0]] + values[1..];
      assert AbsAre(values[1..], ns[1..]) by {
        forall k | 0 <= k < |ns| - 1
          ensures NextOk(ns[1..][k]) && Abs(values[1..][k]) == Magnitude(ns[1..][k].item)
        {
          assert NextOk(ns[k + 1]);
        }
      }
      SumAbsHead(values[0], values[1..]);
      SumAbsIs(values[1..], ns[1..]);
    }
  }

  /** Every duration that is written as numbers with unit names, in any order, spacing and separation, is
      read as the sum of its parts; a minus in front of the first one counts unless that part is zero. */
  lemma PhraseParses(first: Item, ns: seq<Next>)
    requires ItemOk(first) && NextsOk(ns)
    ensures var total := Magnitude(first) + SumOf(ns);
            ParseDuration(ItemText(first) + NextsText(ns))
            == Some(if first.sign == "-" && Magnitude(first) > 0.0 then -total else total)
  {
    hide Single, SkipSpaces, ItemText, Magnitude, Continues, More, SumAbs, SumOf;
    MoreParses(ns);
    SingleParses(first, NextsText(ns));
    var values := More(SkipSpaces(NextsText(ns))).0;
    SumAbsIs(values, ns);
    SumAbsHead(Signed(first.sign, Magnitude(first)), values);
    AbsSigned(first);
  }
}
