/** Time deltas as text: delta_to_str and parse_delta of resotolib/resotolib/utils.py, and what
    resotocore's duration_parser makes of the printed text. Deltas are whole seconds. */
module DeltaStrings {
  import opened Decimal
  import opened Options
  import opened Parsing
  import Durations

  // ----- delta_to_str -----

  const UNITS: seq<(char, nat)> := [('m', 60), ('h', 60), ('d', 24), ('w', 7)]

  /** Minutes, counting a started one. */
  function Minutes(seconds: nat): nat {
    (seconds + 59) / 60
  }

  /** A count and the letter of its unit. */
  type Part = (nat, char)

  function Joined(parts: seq<Part>): string {
    if parts == [] then [] else Text(parts[0].0) + [parts[0].1] + Joined(parts[1..])
  }

  function NonZero(n: nat, unit: char): seq<Part> {
    if n == 0 then [] else [(n, unit)]
  }

  /** Weeks, days, hours and minutes, without those that are zero. */
  function Parts(minutes: nat): seq<Part> {
    NonZero(minutes / 10080, 'w') + (NonZero(minutes / 1440 % 7, 'd')
    + (NonZero(minutes / 60 % 24, 'h') + NonZero(minutes % 60, 'm')))
  }

  function Magnitude(seconds: int): nat {
    if seconds < 0 then -seconds else seconds
  }

  function DeltaText(seconds: int): string {
    if seconds == 0 then "0m"
    else (if seconds < 0 then "-" else "") + Joined(Parts(Minutes(Magnitude(seconds))))
  }

  /** delta_to_str: the loop peels off units from the smallest and returns when nothing remains. */
  method DeltaToStr(seconds: int) returns (r: string)
    ensures r == DeltaText(seconds)
  {
    var remaining: nat := if seconds < 0 then -seconds else seconds;
    var deltaStr := "";
    if remaining == 0 {
      return "0m";
    }
    ghost var minutes := Minutes(remaining);
    for i := 0 to |UNITS|
      invariant i == 0 ==> remaining == Magnitude(seconds) && deltaStr == ""
      invariant i > 0 ==> remaining == Left(minutes, i) && deltaStr == Joined(Low(minutes, i)) && minutes > 0
      invariant i > 1 ==> remaining > 0
    {
      var count := UNITS[i].1;
      var remainder := remaining % count;
      remaining := remaining / count;
      if i == 0 {
        if remainder > 0 {
          remaining := remaining + 1;
        }
      } else {
        PeelOff(minutes, i);
        JoinedOne(remainder, UNITS[i - 1].0, Low(minutes, i));
        if remainder != 0 {
          deltaStr := Text(remainder) + [UNITS[i - 1].0] + deltaStr;
        }
      }
      if remaining == 0 && i > 0 {
        AllPeeled(minutes, i + 1);
        return (if seconds < 0 then "-" else "") + deltaStr;
      }
    }
    JoinedOne(remaining, 'w', Low(minutes, 4));
    deltaStr := Text(remaining) + ['w'] + deltaStr;
    r := (if seconds < 0 then "-" else "") + deltaStr;
  }

  /** What is left of the minutes after `i` units, and the parts printed by then. */
  function Left(minutes: nat, i: nat): nat
    requires 1 <= i <= 4
  {
    if i == 1 then minutes else if i == 2 then minutes / 60 else if i == 3 then minutes / 1440 else minutes / 10080
  }

  function Low(minutes: nat, i: nat): seq<Part>
    requires 1 <= i <= 4
  {
    if i == 1 then []
    else if i == 2 then NonZero(minutes % 60, 'm')
    else if i == 3 then NonZero(minutes / 60 % 24, 'h') + NonZero(minutes % 60, 'm')
    else NonZero(minutes / 1440 % 7, 'd') + (NonZero(minutes / 60 % 24, 'h') + NonZero(minutes % 60, 'm'))
  }

  lemma PeelOff(minutes: nat, i: nat)
    requires 1 <= i < 4
    ensures var count := UNITS[i].1;
            && Left(minutes, i) / count == Left(minutes, i + 1)
            && Low(minutes, i + 1) == NonZero(Left(minutes, i) % count, UNITS[i - 1].0) + Low(minutes, i)
  {
  }

  lemma JoinedOne(n: nat, unit: char, parts: seq<Part>)
    ensures Joined(NonZero(n, unit) + parts) == (if n == 0 then "" else Text(n) + [unit]) + Joined(parts)
  {
    if n == 0 {
      assert NonZero(n, unit) + parts == parts;
    } else {
      assert ([(n, unit)] + parts)[1..] == parts;
    }
  }

  lemma AllPeeled(minutes: nat, i: nat)
    requires 2 <= i <= 4 && Left(minutes, i) == 0
    ensures Low(minutes, i) == Parts(minutes)
  {
  }

  // ----- parse_delta -----

  /** `\D*` */
  function NonDigits(s: string): (n: string)
    ensures n <= s
  {
    if s == [] || IsDigit(s[0]) then [] else [s[0]] + NonDigits(s[1..])
  }

  /** The chunks that `(\d+)\s*(\D+)\s*` finds: a run of digits and the run of anything else behind it. */
  function Chunks(s: string): seq<(string, string)>
    decreases |s|
  {
    if s == [] then []
    else if !IsDigit(s[0]) then Chunks(s[1..])
    else
      var count := Digits(s);
      var unit := NonDigits(s[|count|..]);
      if unit == [] then [] else [(count, unit)] + Chunks(s[|count|..][|unit|..])
  }

  function StripEnd(s: string): string {
    if s != [] && IsSpace(s[|s| - 1]) then StripEnd(s[..|s| - 1]) else s
  }

  function Strip(s: string): string {
    StripEnd(SkipSpaces(s))
  }

  datatype Arg = Weeks | Days | Hours | Minutes_

  /** The first argument that starts with the unit. */
  function ArgOf(unit: string): Option<Arg> {
    if unit <= "weeks" then Some(Weeks)
    else if unit <= "days" then Some(Days)
    else if unit <= "hours" then Some(Hours)
    else if unit <= "minutes" then Some(Minutes_)
    else None
  }

  type Kwargs = map<Arg, nat>

  /** A later chunk with the same unit replaces the earlier one. */
  function Collect(chunks: seq<(string, string)>, kwargs: Kwargs): Option<Kwargs>
    requires forall c :: c in chunks ==> AllDigits(c.0)
  {
    if chunks == [] then Some(kwargs)
    else
      assert chunks[0] in chunks;
      var arg := ArgOf(Strip(chunks[0].1));
      if arg.None? then None else Collect(chunks[1..], kwargs[arg.value := Value(chunks[0].0)])
  }

  lemma {:induction false} ChunksAreCounts(s: string)
    ensures forall c :: c in Chunks(s) ==> AllDigits(c.0)
    decreases |s|
  {
    if s != [] {
      if !IsDigit(s[0]) {
        ChunksAreCounts(s[1..]);
      } else {
        var count := Digits(s);
        var unit := NonDigits(s[|count|..]);
        assert count != [];
        ChunksAreCounts(s[|count|..][|unit|..]);
      }
    }
  }

  function Get(kwargs: Kwargs, arg: Arg): nat {
    if arg in kwargs then kwargs[arg] else 0
  }

  function Scale(arg: Arg): nat {
    match arg case Weeks => 604800 case Days => 86400 case Hours => 3600 case Minutes_ => 60
  }

  /** `timedelta(**kwargs)` in seconds. */
  function Timedelta(kwargs: Kwargs): nat {
    604800 * Get(kwargs, Weeks) + 86400 * Get(kwargs, Days) + 3600 * Get(kwargs, Hours) + 60 * Get(kwargs, Minutes_)
  }

  function DeltaValue(s: string): Option<nat> {
    ChunksAreCounts(s);
    var kwargs := Collect(Chunks(s), map[]);
    if kwargs.None? || kwargs.value == map[] then None else Some(Timedelta(kwargs.value))
  }

  /** parse_delta; nothing where the source raises. */
  method ParseDelta(delta: string) returns (r: Option<nat>)
    ensures r == DeltaValue(delta)
  {
    ChunksAreCounts(delta);
    var kwargs: Kwargs, chunks, i := map[], Chunks(delta), 0;
    while i < |chunks|
      invariant 0 <= i <= |chunks|
      invariant Collect(chunks[i..], kwargs) == Collect(chunks, map[])
    {
      assert chunks[i..][1..] == chunks[i + 1..];
      var arg := ArgOf(Strip(chunks[i].1));
      if arg.None? {
        return None;
      }
      kwargs, i := kwargs[arg.value := Value(chunks[i].0)], i + 1;
    }
    r := if kwargs == map[] then None else Some(Timedelta(kwargs));
  }

  function ArgName(arg: Arg): string {
    match arg case Weeks => "weeks" case Days => "days" case Hours => "hours" case Minutes_ => "minutes"
  }

  /** A unit may be cut short; a blank one is taken for weeks. */
  lemma UnitsCutShort(unit: string, arg: Arg)
    ensures ArgOf(unit) == Some(arg) <==> if unit == "" then arg == Weeks else unit <= ArgName(arg)
  {
    if unit != "" {
      assert unit <= ArgName(arg) ==> unit[0] == ArgName(arg)[0];
      assert ArgOf(unit).Some? ==> unit[0] == ArgName(ArgOf(unit).value)[0];
    }
  }

  /** Some count is followed by something that no unit starts with. */
  predicate UnknownUnit(chunks: seq<(string, string)>) {
    exists c :: c in chunks && forall arg :: !(Strip(c.1) <= ArgName(arg))
  }

  lemma {:induction false} CollectRaises(chunks: seq<(string, string)>, kwargs: Kwargs)
    requires forall c :: c in chunks ==> AllDigits(c.0)
    ensures Collect(chunks, kwargs).None? <==> UnknownUnit(chunks)
    decreases |chunks|
  {
    if chunks != [] {
      var c, rest := chunks[0], chunks[1..];
      assert chunks == [c] + rest;
      var unit := Strip(c.1);
      UnitsCutShort(unit, Weeks);
      UnitsCutShort(unit, Days);
      UnitsCutShort(unit, Hours);
      UnitsCutShort(unit, Minutes_);
      hide Strip, ArgOf;
      if ArgOf(unit).None? {
        assert forall arg :: !(unit <= ArgName(arg));
        assert c in chunks;
      } else {
        assert unit <= ArgName(ArgOf(unit).value);
        CollectRaises(rest, kwargs[ArgOf(unit).value := Value(c.0)]);
        if x :| x in rest && forall arg :: !(Strip(x.1) <= ArgName(arg)) {
          assert x in chunks;
        }
      }
    }
  }

  lemma {:induction false} CollectGrows(chunks: seq<(string, string)>, kwargs: Kwargs)
    requires forall c :: c in chunks ==> AllDigits(c.0)
    ensures Collect(chunks, kwargs).Some? ==>
              kwargs.Keys <= Collect(chunks, kwargs).value.Keys && (chunks != [] ==> Collect(chunks, kwargs).value != map[])
    decreases |chunks|
  {
    if chunks != [] {
      hide ArgOf, Strip;
      var arg := ArgOf(Strip(chunks[0].1));
      assert chunks == [chunks[0]] + chunks[1..];
      if arg.Some? {
        var more := kwargs[arg.value := Value(chunks[0].0)];
        CollectGrows(chunks[1..], more);
        assert arg.value in more.Keys;
        assert Collect(chunks, kwargs).Some? ==> arg.value in Collect(chunks, kwargs).value;
      }
    }
  }

  lemma NothingCollected()
    ensures Collect([], map[]) == Some(map[])
  {
  }

  /** parse_delta raises exactly when it finds no count with something behind it, or one with an unknown unit. */
  lemma DeltaRaises(s: string)
    ensures DeltaValue(s).None? <==> Chunks(s) == [] || UnknownUnit(Chunks(s))
  {
    hide Chunks, UnknownUnit, Collect;
    ChunksAreCounts(s);
    CollectRaises(Chunks(s), map[]);
    CollectGrows(Chunks(s), map[]);
    assert Chunks(s) == [] ==> Collect(Chunks(s), map[]) == Some(map[]) by { NothingCollected(); }
  }

  // ----- both parsers on printed parts -----

  predicate IsUnit(unit: char) {
    unit == 'w' || unit == 'd' || unit == 'h' || unit == 'm'
  }

  predicate PartsOk(parts: seq<Part>) {
    forall p :: p in parts ==> IsUnit(p.1)
  }

  function ArgFor(unit: char): Arg
    requires IsUnit(unit)
  {
    if unit == 'w' then Weeks else if unit == 'd' then Days else if unit == 'h' then Hours else Minutes_
  }

  function PartSeconds(p: Part): nat
    requires IsUnit(p.1)
  {
    p.0 * Scale(ArgFor(p.1))
  }

  function Sum(parts: seq<Part>): nat
    requires PartsOk(parts)
  {
    if parts == [] then 0
    else
      assert parts[0] in parts;
      PartSeconds(parts[0]) + Sum(parts[1..])
  }

  function LastWins(parts: seq<Part>, kwargs: Kwargs): Kwargs
    requires PartsOk(parts)
  {
    if parts == [] then kwargs
    else
      assert parts[0] in parts;
      LastWins(parts[1..], kwargs[ArgFor(parts[0].1) := parts[0].0])
  }

  lemma NonDigitsPlus(unit: char, s: string)
    requires !IsDigit(unit) && (s == [] || IsDigit(s[0]))
    ensures NonDigits([unit] + s) == [unit]
  {
    assert ([unit] + s)[1..] == s;
  }

  lemma JoinedStarts(parts: seq<Part>)
    ensures Joined(parts) == [] || IsDigit(Joined(parts)[0])
  {
    if parts != [] {
      assert Joined(parts)[0] == Text(parts[0].0)[0];
    }
  }

  function ChunksOf(parts: seq<Part>): seq<(string, string)> {
    if parts == [] then [] else [(Text(parts[0].0), [parts[0].1])] + ChunksOf(parts[1..])
  }

  lemma ChunkStep(count: string, unit: char, rest: string)
    requires count != [] && AllDigits(count) && IsUnit(unit) && (rest == [] || IsDigit(rest[0]))
    ensures Chunks(count + ([unit] + rest)) == [(count, [unit])] + Chunks(rest)
  {
    hide Digits, NonDigits;
    assert IsDigit(count[0]);
    DigitsPlus(count, [unit] + rest);
    NonDigitsPlus(unit, rest);
    After(count, [unit] + rest);
    After([unit], rest);
  }

  lemma ChunksHead(parts: seq<Part>)
    requires parts != []
    ensures Joined(parts) == Text(parts[0].0) + ([parts[0].1] + Joined(parts[1..]))
    ensures ChunksOf(parts) == [(Text(parts[0].0), [parts[0].1])] + ChunksOf(parts[1..])
  {
    hide Text;
    Assoc(Text(parts[0].0), [parts[0].1], Joined(parts[1..]));
  }

  lemma Assoc(a: string, b: string, c: string)
    ensures a + b + c == a + (b + c)
  {
  }

  lemma {:induction false} ChunksOfJoined(parts: seq<Part>)
    requires PartsOk(parts)
    ensures Chunks(Joined(parts)) == ChunksOf(parts)
    decreases |parts|
  {
    if parts != [] {
      hide *;
      PartsTail(parts);
      ChunksOfJoined(parts[1..]);
      JoinedStarts(parts[1..]);
      ChunksHead(parts);
      ChunkStep(Text(parts[0].0), parts[0].1, Joined(parts[1..]));
    } else {
      assert Joined(parts) == "";
    }
  }

  lemma StripUnit(unit: char)
    requires IsUnit(unit)
    ensures Strip([unit]) == [unit] && ArgOf([unit]) == Some(ArgFor(unit))
  {
  }

  lemma {:induction false} CollectIs(parts: seq<Part>, kwargs: Kwargs)
    requires PartsOk(parts) && forall c :: c in ChunksOf(parts) ==> AllDigits(c.0)
    ensures Collect(ChunksOf(parts), kwargs) == Some(LastWins(parts, kwargs))
    decreases |parts|
  {
    if parts != [] {
      hide Strip, ArgOf, Text, Value;
      var (n, unit) := parts[0];
      assert parts[0] in parts;
      StripUnit(unit);
      ValueOfText(n);
      assert ChunksOf(parts)[1..] == ChunksOf(parts[1..]);
      CollectIs(parts[1..], kwargs[ArgFor(unit) := n]);
    }
  }

  /** parse_delta on printed parts: the last part of each unit counts, and a sign in front does not. */
  lemma DeltaOfJoined(sign: string, parts: seq<Part>)
    requires PartsOk(parts) && parts != [] && (sign == "" || sign == "-")
    ensures DeltaValue(sign + Joined(parts)) == Some(Timedelta(LastWins(parts, map[])))
  {
    hide Chunks, Collect, ChunksOf;
    ChunksOfJoined(parts);
    ChunksAreCounts(sign + Joined(parts));
    SignIsNoChunk(sign, Joined(parts));
    CollectIs(parts, map[]);
    LastWinsNotEmpty(parts, map[]);
  }

  lemma SignIsNoChunk(sign: string, s: string)
    requires sign == "" || sign == "-"
    ensures Chunks(sign + s) == Chunks(s)
  {
    if sign == "" {
      assert sign + s == s;
    } else {
      assert (sign + s)[1..] == s;
    }
  }

  lemma {:induction false} LastWinsNotEmpty(parts: seq<Part>, kwargs: Kwargs)
    requires PartsOk(parts) && (parts != [] || kwargs != map[])
    ensures LastWins(parts, kwargs) != map[]
    decreases |parts|
  {
    if parts != [] {
      assert parts[0] in parts;
      var more := kwargs[ArgFor(parts[0].1) := parts[0].0];
      assert ArgFor(parts[0].1) in more;
      LastWinsNotEmpty(parts[1..], more);
    }
  }

  function ItemOf(sign: string, p: Part): Durations.Item {
    Durations.Item("", sign, Text(p.0), "", "", [p.1], "")
  }

  function NextsOf(parts: seq<Part>): seq<Durations.Next> {
    if parts == [] then [] else [Durations.Next("", ItemOf("", parts[0]))] + NextsOf(parts[1..])
  }

  lemma ItemFits(sign: string, p: Part)
    requires IsUnit(p.1) && (sign == "" || sign == "-")
    ensures Durations.ItemOk(ItemOf(sign, p)) && Durations.ItemText(ItemOf(sign, p)) == sign + (Text(p.0) + [p.1])
    ensures Durations.Magnitude(ItemOf(sign, p)) == PartSeconds(p) as real
  {
    hide Text, Value, Durations.Times;
    ValueOfText(p.0);
    TimesIsScale(p.0, p.1);
  }

  lemma TimesIsScale(n: nat, unit: char)
    requires IsUnit(unit)
    ensures Durations.UnitSeconds([unit]).Some?
    ensures Durations.Times(n as real, Durations.UnitSeconds([unit]).value) == (n * Scale(ArgFor(unit))) as real
  {
    UnitScale([unit]);
  }

  lemma UnitScale(u: string)
    requires |u| == 1 && IsUnit(u[0])
    ensures Durations.UnitSeconds(u).Some? && Durations.UnitSeconds(u).value == Scale(ArgFor(u[0]))
  {
  }

  lemma NextsMore(n: Durations.Next, ns: seq<Durations.Next>)
    requires Durations.NextOk(n) && Durations.NextsOk(ns)
    ensures Durations.NextsOk([n] + ns)
    ensures Durations.NextsText([n] + ns) == n.sep + (Durations.ItemText(n.item) + Durations.NextsText(ns))
    ensures Durations.SumOf([n] + ns) == Durations.Magnitude(n.item) + Durations.SumOf(ns)
  {
    hide Durations.ItemText, Durations.Magnitude, Durations.NextOk;
    assert ([n] + ns)[1..] == ns;
  }

  lemma PartsTail(parts: seq<Part>)
    requires PartsOk(parts) && parts != []
    ensures parts[0] in parts && IsUnit(parts[0].1) && PartsOk(parts[1..])
    ensures Sum(parts) == PartSeconds(parts[0]) + Sum(parts[1..])
  {
    assert parts[0] in parts;
  }

  lemma {:induction false} NextsFit(parts: seq<Part>)
    requires PartsOk(parts)
    ensures Durations.NextsOk(NextsOf(parts)) && Durations.NextsText(NextsOf(parts)) == Joined(parts)
    ensures Durations.SumOf(NextsOf(parts)) == Sum(parts) as real
    decreases |parts|
  {
    hide *;
    if parts == [] {
      NoNexts();
    } else {
      PartsTail(parts);
      ItemFits("", parts[0]);
      NextsFit(parts[1..]);
      var n, ns := Durations.Next("", ItemOf("", parts[0])), NextsOf(parts[1..]);
      NextFits(n, parts[0]);
      NextsMore(n, ns);
      NextsHead(parts);
      RealPlus(PartSeconds(parts[0]), Sum(parts[1..]));
    }
  }

  lemma NoNexts()
    ensures NextsOf([]) == [] && Joined([]) == [] && PartsOk([]) && Sum([]) == 0
    ensures Durations.NextsOk([]) && Durations.NextsText([]) == [] && Durations.SumOf([]) == 0.0
  {
  }

  lemma NextFits(n: Durations.Next, p: Part)
    requires n.sep == "" && Durations.ItemOk(n.item)
    ensures Durations.NextOk(n)
  {
  }

  lemma NextsHead(parts: seq<Part>)
    requires parts != []
    ensures NextsOf(parts) == [Durations.Next("", ItemOf("", parts[0]))] + NextsOf(parts[1..])
    ensures Joined(parts) == Text(parts[0].0) + [parts[0].1] + Joined(parts[1..])
  {
  }

  lemma RealPlus(a: nat, b: nat)
    ensures (a + b) as real == a as real + b as real
  {
  }

  /** duration_parser on printed parts: their sum, with the sign in front. */
  lemma DurationOfJoined(sign: string, parts: seq<Part>)
    requires PartsOk(parts) && parts != [] && (sign == "" || (sign == "-" && parts[0].0 > 0))
    ensures Durations.ParseDuration(sign + Joined(parts))
         == Some(if sign == "-" then -(Sum(parts) as real) else Sum(parts) as real)
  {
    hide Text, Durations.ItemText, Durations.Magnitude, Durations.ParseDuration, Durations.ItemOk;
    assert parts[0] in parts;
    ItemFits(sign, parts[0]);
    NextsFit(parts[1..]);
    Durations.PhraseParses(ItemOf(sign, parts[0]), NextsOf(parts[1..]));
    assert sign + Joined(parts) == sign + (Text(parts[0].0) + [parts[0].1]) + Joined(parts[1..]);
  }

  /** A count that a later one of the same unit replaces is zero. */
  predicate NothingLost(parts: seq<Part>) {
    forall i, j :: 0 <= i < j < |parts| && parts[i].1 == parts[j].1 ==> parts[i].0 == 0
  }

  predicate Untaken(parts: seq<Part>, kwargs: Kwargs)
    requires PartsOk(parts)
  {
    forall p :: p in parts ==> Get(kwargs, ArgFor(p.1)) == 0
  }

  lemma TimedeltaUpdate(kwargs: Kwargs, arg: Arg, n: nat)
    ensures var more := kwargs[arg := n];
            if Get(kwargs, arg) > 0 then Timedelta(more) < Timedelta(kwargs) + n * Scale(arg)
            else Timedelta(more) == Timedelta(kwargs) + n * Scale(arg)
  {
    match arg
    case Weeks =>
    case Days =>
    case Hours =>
    case Minutes_ =>
  }

  lemma SumHead(parts: seq<Part>, kwargs: Kwargs)
    requires PartsOk(parts) && parts != [] && parts[0] in parts
    ensures Sum(parts) == parts[0].0 * Scale(ArgFor(parts[0].1)) + Sum(parts[1..])
    ensures LastWins(parts, kwargs) == LastWins(parts[1..], kwargs[ArgFor(parts[0].1) := parts[0].0])
  {
  }

  lemma RepeatHead(parts: seq<Part>, kwargs: Kwargs, n: nat)
    requires PartsOk(parts) && parts != [] && parts[0] in parts && n == parts[0].0
    ensures var arg := ArgFor(parts[0].1);
            NothingLost(parts) && Untaken(parts, kwargs)
            <==> Get(kwargs, arg) == 0 && NothingLost(parts[1..]) && Untaken(parts[1..], kwargs[arg := n])
  {
    var arg, rest := ArgFor(parts[0].1), parts[1..];
    assert forall i :: 0 < i < |parts| ==> parts[i] == rest[i - 1];
    if NothingLost(parts) && Untaken(parts, kwargs) {
      forall p | p in rest
        ensures Get(kwargs[arg := n], ArgFor(p.1)) == 0
      {
        var i :| 0 <= i < |rest| && rest[i] == p;
        assert p == parts[i + 1];
        SameArg(p.1, parts[0].1);
      }
    }
    if Get(kwargs, arg) == 0 && NothingLost(rest) && Untaken(rest, kwargs[arg := n]) {
      UntakenCons(parts, kwargs, n);
    }
  }

  lemma SameArg(a: char, b: char)
    requires IsUnit(a) && IsUnit(b)
    ensures ArgFor(a) == ArgFor(b) <==> a == b
  {
  }

  lemma UntakenCons(parts: seq<Part>, kwargs: Kwargs, n: nat)
    requires PartsOk(parts) && parts != [] && parts[0] in parts && n == parts[0].0
    requires Get(kwargs, ArgFor(parts[0].1)) == 0
    requires NothingLost(parts[1..]) && Untaken(parts[1..], kwargs[ArgFor(parts[0].1) := n])
    ensures NothingLost(parts) && Untaken(parts, kwargs)
  {
    hide IsUnit, ArgFor;
    var rest := parts[1..];
    assert parts == [parts[0]] + rest;
    forall i, j | 0 <= i < j < |parts| && parts[i].1 == parts[j].1
      ensures parts[i].0 == 0
    {
      assert parts[j] == rest[j - 1] && rest[j - 1] in rest;
      if i > 0 {
        assert parts[i] == rest[i - 1];
      }
    }
  }

  lemma {:induction false} LastWinsSum(parts: seq<Part>, kwargs: Kwargs)
    requires PartsOk(parts)
    ensures Timedelta(LastWins(parts, kwargs)) <= Timedelta(kwargs) + Sum(parts)
    ensures Timedelta(LastWins(parts, kwargs)) == Timedelta(kwargs) + Sum(parts)
       <==> NothingLost(parts) && Untaken(parts, kwargs)
    decreases |parts|
  {
    if parts != [] {
      var (n, unit) := parts[0];
      assert parts[0] in parts;
      var arg := ArgFor(unit);
      var more := kwargs[arg := n];
      hide Scale, Timedelta, Get, LastWins, Sum, ArgFor, Untaken, NothingLost, IsUnit;
      LastWinsSum(parts[1..], more);
      TimedeltaUpdate(kwargs, arg, n);
      RepeatHead(parts, kwargs, n);
      SumHead(parts, kwargs);
    }
  }

  /** The two parsers agree on parts without a sign if and only if every count that a later count of the
      same unit replaces is zero. */
  lemma ParsersAgree(parts: seq<Part>)
    requires PartsOk(parts) && parts != []
    ensures var delta := DeltaValue(Joined(parts));
            && delta.Some?
            && (Durations.ParseDuration(Joined(parts)) == Some(delta.value as real) <==> NothingLost(parts))
  {
    hide Joined, DeltaValue, Durations.ParseDuration, Timedelta, Sum, LastWins;
    assert "" + Joined(parts) == Joined(parts);
    assert parts[0] in parts;
    DeltaOfJoined("", parts);
    DurationOfJoined("", parts);
    LastWinsSum(parts, map[]);
    EmptyDelta();
  }

  lemma EmptyDelta()
    ensures Timedelta(map[]) == 0
  {
  }

  // ----- the round trips -----

  /** The magnitude rounded up to a whole minute. */
  function Rounded(seconds: int): nat {
    60 * Minutes(Magnitude(seconds))
  }

  lemma PartsFacts(minutes: nat)
    requires minutes > 0
    ensures var parts := Parts(minutes);
            && parts != [] && PartsOk(parts) && (forall p :: p in parts ==> p.0 > 0)
            && NothingLost(parts) && Sum(parts) == 60 * minutes
  {
    hide Sum;
    MinutesSplit(minutes);
    var (w, d, h, m) := (minutes / 10080, minutes / 1440 % 7, minutes / 60 % 24, minutes % 60);
    FourParts(w, d, h, m);
  }

  lemma MinutesSplit(minutes: nat)
    ensures minutes == minutes / 10080 * 10080 + minutes / 1440 % 7 * 1440 + minutes / 60 % 24 * 60 + minutes % 60
  {
    var hours := minutes / 60;
    var days := hours / 24;
    assert days == minutes / 1440 && days / 7 == minutes / 10080;
  }

  lemma FourParts(w: nat, d: nat, h: nat, m: nat)
    ensures var parts := NonZero(w, 'w') + (NonZero(d, 'd') + (NonZero(h, 'h') + NonZero(m, 'm')));
            && (w + d + h + m > 0 ==> parts != []) && PartsOk(parts) && (forall p :: p in parts ==> p.0 > 0)
            && NothingLost(parts) && Sum(parts) == 604800 * w + 86400 * d + 3600 * h + 60 * m
  {
    hide Sum;
    SumPlus(m, 'm', []);
    assert NonZero(m, 'm') + [] == NonZero(m, 'm');
    SumPlus(h, 'h', NonZero(m, 'm'));
    SumPlus(d, 'd', NonZero(h, 'h') + NonZero(m, 'm'));
    SumPlus(w, 'w', NonZero(d, 'd') + (NonZero(h, 'h') + NonZero(m, 'm')));
    assert Sum([]) == 0 by { NoSum(); }
  }

  lemma NoSum()
    ensures PartsOk([]) && Sum([]) == 0
  {
  }

  lemma SumPlus(n: nat, unit: char, parts: seq<Part>)
    requires IsUnit(unit) && PartsOk(parts)
    ensures PartsOk(NonZero(n, unit) + parts)
    ensures Sum(NonZero(n, unit) + parts) == n * Scale(ArgFor(unit)) + Sum(parts)
  {
    if n == 0 {
      assert NonZero(n, unit) + parts == parts;
    } else {
      assert ([(n, unit)] + parts)[1..] == parts;
    }
  }

  /** Printed by resotolib and read by resotocore: the sign is kept, the magnitude is rounded up to a minute. */
  lemma DurationRoundTrip(seconds: int)
    ensures Durations.ParseDuration(DeltaText(seconds))
         == Some(if seconds < 0 then -(Rounded(seconds) as real) else Rounded(seconds) as real)
  {
    hide Parts, Durations.ParseDuration;
    if seconds == 0 {
      ItemFits("", (0, 'm'));
      NextsFit([]);
      Durations.PhraseParses(ItemOf("", (0, 'm')), []);
      assert DeltaText(0) == Text(0) + ['m'];
      assert "" + DeltaText(0) + [] == DeltaText(0);
    } else {
      PartsFacts(Minutes(Magnitude(seconds)));
      var parts := Parts(Minutes(Magnitude(seconds)));
      assert parts[0] in parts;
      DurationOfJoined(if seconds < 0 then "-" else "", parts);
    }
  }

  /** Printed and read by resotolib: the magnitude comes back, the sign does not. */
  lemma DeltaRoundTrip(seconds: int)
    ensures DeltaValue(DeltaText(seconds)) == Some(Rounded(seconds))
  {
    hide Parts, DeltaValue;
    if seconds == 0 {
      DeltaOfJoined("", [(0, 'm')]);
      assert DeltaText(0) == "" + Joined([(0, 'm')]);
    } else {
      PartsFacts(Minutes(Magnitude(seconds)));
      var parts := Parts(Minutes(Magnitude(seconds)));
      DeltaOfJoined(if seconds < 0 then "-" else "", parts);
      LastWinsSum(parts, map[]);
    }
  }

  /** delta_to_str promises a format that parse_delta reverses: that holds for whole minutes that are not
      negative, and for nothing else. */
  lemma ReversibleExactly(seconds: int)
    ensures var r := DeltaValue(DeltaText(seconds));
            r.Some? && (r.value == seconds <==> seconds >= 0 && seconds % 60 == 0)
  {
    hide DeltaValue, DeltaText;
    DeltaRoundTrip(seconds);
  }
}
