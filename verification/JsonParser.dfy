/** The JSON value parser of resotocore/core/parse_util.py, with `|` as ordered choice, and the proof of what
    it makes of every text of section 2 of RFC 8259: the value the text stands for, except where an empty object
    holds whitespace or a number has an exponent. Escapes of surrogates are left out. */
module JsonParser {
  import opened Decimal
  import opened Parsing
  import opened Options

  datatype Json = Null | Bool(b: bool) | Num(n: real) | Str(s: string) | Arr(vs: seq<Json>) | Obj(kvs: map<string,
      Json>)

  // ----- strings -----

  predicate IsHex(c: char) {
    IsDigit(c) || 'a' <= c <= 'f' || 'A' <= c <= 'F'
  }

  function HexValue(c: char): (d: nat)
    requires IsHex(c)
    ensures d < 16
  {
    if IsDigit(c) then (c - '0') as nat
    else if 'a' <= c then (c - 'a') as nat + 10
    else (c - 'A') as nat + 10
  }

  function Hex4(s: string): (n: nat)
    requires |s| == 4 && forall i :: 0 <= i < 4 ==> IsHex(s[i])
    ensures n < 0x10000
  {
    4096 * HexValue(s[0]) + 256 * HexValue(s[1]) + 16 * HexValue(s[2]) + HexValue(s[3])
  }

  predicate IsSurrogate(n: nat) {
    0xD800 <= n < 0xE000
  }

  /** The character that a single letter behind the backslash stands for. */
  function Short(c: char): (r: Parsed<char>)
    ensures r.Done? ==> r.rest == ""
  {
    if c == '\\' || c == '/' || c == '"' then Done(c, "")
    else if c == 'b' then Done('\U{8}', "")
    else if c == 'f' then Done('\U{c}', "")
    else if c == 'n' then Done('\n', "")
    else if c == 'r' then Done('\r', "")
    else if c == 't' then Done('\t', "")
    else Fail
  }

  predicate IsHex4(s: string) {
    |s| == 4 && (forall i :: 0 <= i < 4 ==> IsHex(s[i])) && !IsSurrogate(Hex4(s))
  }

  /** string_esc_dp */
  function EscapeDp(s: string): (r: Parsed<char>)
    ensures r.Done? ==> |r.rest| < |s|
  {
    if |s| < 2 || s[0] != '\\' then Fail
    else if Short(s[1]).Done? then Done(Short(s[1]).value, s[2..])
    else if s[1] == 'u' && |s| >= 6 && IsHex4(s[2..6]) then Done(Hex4(s[2..6]) as char, s[6..])
    else Fail
  }

  /** double_quoted_string_part_or_esc_dp: everything up to a quote or a backslash that is no escape. */
  function Chars(s: string): (r: (string, string))
    ensures |r.1| <= |s|
    decreases |s|
  {
    if s == [] || s[0] == '"' then ([], s)
    else if s[0] != '\\' then var (cs, rest) := Chars(s[1..]); ([s[0]] + cs, rest)
    else
      var e := EscapeDp(s);
      if e.Fail? then ([], s) else var (cs, rest) := Chars(e.rest); ([e.value] + cs, rest)
  }

  /** double_quoted_string_dp */
  function QuotedDp(s: string): (r: Parsed<string>)
    ensures r.Done? ==> |r.rest| < |s|
  {
    if s == [] || s[0] != '"' then Fail
    else
      var (cs, rest) := Chars(s[1..]);
      if rest == [] || rest[0] != '"' then Fail else Done(cs, rest[1..])
  }

  // ----- unquoted strings -----

  predicate IsLetter(c: char) {
    'a' <= c <= 'z' || 'A' <= c <= 'Z'
  }

  predicate Allowed(c: char) {
    IsLetter(c) || IsDigit(c) || c == '_' || c == '-' || c == ':' || c == '/'
  }

  predicate EndsUnquoted(c: char) {
    c == ',' || c == '[' || c == ']' || c == ')' || c == '(' || c == '}' || c == '{' || IsSpace(c)
  }

  /** Everything up to the next delimiter. */
  function Word(s: string): (w: string)
    ensures w <= s
  {
    if s == [] || EndsUnquoted(s[0]) then [] else [s[0]] + Word(s[1..])
  }

  /** Digits, or a minus at the start, could still be a number. */
  predicate NoNumber(w: string, i: nat)
    requires i < |w|
  {
    !IsDigit(w[i]) && !(i == 0 && w[i] == '-')
  }

  predicate AllAllowed(w: string) {
    forall i :: 0 <= i < |w| ==> Allowed(w[i])
  }

  predicate Unnumbered(w: string) {
    exists i :: 0 <= i < |w| && NoNumber(w, i)
  }

  lemma {:induction false} WordPlus(w: string, rest: string)
    requires (forall i :: 0 <= i < |w| ==> !EndsUnquoted(w[i])) && (rest == [] || EndsUnquoted(rest[0]))
    ensures Word(w + rest) == w
  {
    if w == [] {
      assert w + rest == rest;
    } else {
      assert (w + rest)[1..] == w[1..] + rest;
      WordPlus(w[1..], rest);
    }
  }

  /** A word of allowed characters that is not a number. */
  function UnquotedDp(s: string): (r: Parsed<string>)
    ensures r.Done? ==> |r.rest| < |s|
  {
    var w := Word(s);
    if AllAllowed(w) && Unnumbered(w) then Done(w, s[|w|..]) else Fail
  }

  lemma UnnumberedMore(w: string, c: char)
    ensures Unnumbered(w + [c]) <==> Unnumbered(w) || (!IsDigit(c) && !(w == [] && c == '-'))
  {
    var more := w + [c];
    assert forall i :: 0 <= i < |w| ==> (NoNumber(w, i) <==> NoNumber(more, i));
    assert NoNumber(more, |w|) <==> !IsDigit(c) && !(w == [] && c == '-');
    if Unnumbered(w) {
      var i :| 0 <= i < |w| && NoNumber(w, i);
      assert NoNumber(more, i);
    }
  }

  lemma NothingYet()
    ensures !Unnumbered("") && AllAllowed("")
  {
  }

  lemma AllAllowedMore(w: string, c: char)
    ensures AllAllowed(w + [c]) <==> AllAllowed(w) && Allowed(c)
  {
    var more := w + [c];
    assert forall i :: 0 <= i < |w| ==> more[i] == w[i];
    assert more[|w|] == c;
  }

  lemma ReadMore(s: string, start: nat, i: nat, read: string)
    requires start <= i < |s| && !EndsUnquoted(s[i]) && read == s[start..i]
    requires Word(s[start..]) == read + Word(s[i..])
    ensures var more, c := read + [s[i]], s[i];
            && more == s[start..i + 1] && Word(s[start..]) == more + Word(s[i + 1..])
            && (AllAllowed(more) <==> AllAllowed(read) && Allowed(c))
            && (Unnumbered(more) <==> Unnumbered(read) || (!IsDigit(c) && !(i == start && c == '-')))
  {
    hide Unnumbered, AllAllowed, Allowed, EndsUnquoted;
    UnnumberedMore(read, s[i]);
    AllAllowedMore(read, s[i]);
    assert s[i..][1..] == s[i + 1..];
    assert read + ([s[i]] + Word(s[i + 1..])) == read + [s[i]] + Word(s[i + 1..]);
  }

  /** unquoted_string_parser, from `start` in the stream. */
  method UnquotedString(stream: string, start: nat) returns (r: Parsed<string>)
    requires start <= |stream|
    ensures r == UnquotedDp(stream[start..])
  {
    hide *;
    var index, foundNoNumber, validChars := start, false, true;
    ghost var read := "";
    NothingYet();
    while index < |stream| && validChars && !EndsUnquoted(stream[index])
      invariant start <= index <= |stream| && read == stream[start..index]
      invariant Word(stream[start..]) == read + Word(stream[index..])
      invariant validChars <==> AllAllowed(read)
      invariant foundNoNumber <==> Unnumbered(read)
    {
      var c := stream[index];
      ReadMore(stream, start, index, read);
      if !foundNoNumber {
        foundNoNumber := !IsDigit(c) && !(start == index && c == '-');
      }
      read := read + [c];
      validChars := Allowed(c);
      index := index + 1;
    }
    if validChars && foundNoNumber {
      r := Done(stream[start..index], stream[index..]);
    } else {
      r := Fail;
    }
    assert stream[start..] == read + stream[index..];
    WordRead(stream[start..], read, stream[index..]);
  }

  /** The loop stops behind the word, or at a character that rules the word out. */
  lemma WordRead(s: string, read: string, rest: string)
    requires Word(s) == read + Word(rest) && s == read + rest
    requires rest == [] || EndsUnquoted(rest[0]) || !AllAllowed(read)
    ensures UnquotedDp(s) == if AllAllowed(read) && Unnumbered(read) then Done(read, rest) else Fail
  {
    hide Unnumbered, EndsUnquoted, Allowed;
    NotAllowed(read, Word(rest));
    if AllAllowed(read) {
      assert Word(rest) == [] && Word(s) == read;
      After(read, rest);
    }
  }

  lemma NotAllowed(a: string, b: string)
    ensures AllAllowed(a + b) ==> AllAllowed(a)
  {
    assert forall i :: 0 <= i < |a| ==> (a + b)[i] == a[i];
  }

  // ----- values -----

  /** A character with whitespace around, as in l_bracket_p. */
  function Token(c: char, s: string): (r: Parsed<()>)
    ensures r.Done? ==> |r.rest| < |s|
  {
    var t := SkipSpaces(s);
    if t == [] || t[0] != c then Fail else Done((), SkipSpaces(t[1..]))
  }

  function Literal(s: string, word: string, v: Json): (r: Parsed<Json>)
    requires word != []
    ensures r.Done? ==> |r.rest| < |s|
  {
    if word <= s then Done(v, s[|word|..]) else Fail
  }

  function OrElse<T>(a: Parsed<T>, b: Parsed<T>): Parsed<T> {
    if a.Done? then a else b
  }

  function AsStr(r: Parsed<string>): Parsed<Json> {
    if r.Done? then Done(Str(r.value), r.rest) else Fail
  }

  function AsNum(r: Parsed<real>): Parsed<Json> {
    if r.Done? then Done(Num(r.value), r.rest) else Fail
  }

  /** What is tried after strings, arrays and objects. */
  function SimpleDp(s: string): (r: Parsed<Json>)
    ensures r.Done? ==> |r.rest| < |s|
  {
    OrElse(Literal(s, "true", Bool(true)),
    OrElse(Literal(s, "false", Bool(false)),
    OrElse(Literal(s, "null", Null),
    OrElse(AsStr(UnquotedDp(s)),
    OrElse(AsNum(FloatDp(s)), AsNum(IntegerDp(s)))))))
  }

  /** json_value_dp */
  function ValueDp(s: string): (r: Parsed<Json>)
    ensures r.Done? ==> |r.rest| < |s|
    decreases |s|, 3
  {
    OrElse(AsStr(QuotedDp(s)), OrElse(ArrayDp(s), OrElse(ObjectDp(s), SimpleDp(s))))
  }

  /** json_value_p */
  function ValueP(s: string): (r: Parsed<Json>)
    ensures r.Done? ==> |r.rest| < |s|
    decreases |s|, 4
  {
    var r := ValueDp(SkipSpaces(s));
    if r.Fail? then Fail else Done(r.value, SkipSpaces(r.rest))
  }

  /** json_array_parser */
  function ArrayDp(s: string): (r: Parsed<Json>)
    ensures r.Done? ==> |r.rest| < |s|
    decreases |s|, 2
  {
    var open := Token('[', s);
    if open.Fail? then Fail
    else
      var first := ValueP(open.rest);
      var (values, t) := if first.Fail? then ([], open.rest)
                         else var (more, t) := MoreValues(first.rest); ([first.value] + more, t);
      var close := Token(']', t);
      if close.Fail? then Fail else Done(Arr(values), close.rest)
  }

  function MoreValues(s: string): (r: (seq<Json>, string))
    ensures |r.1| <= |s|
    decreases |s|, 5
  {
    var comma := Token(',', s);
    if comma.Fail? then ([], s)
    else
      var v := ValueP(comma.rest);
      if v.Fail? then ([], s)
      else var (more, t) := MoreValues(v.rest); ([v.value] + more, t)
  }

  /** `[A-Za-z0-9][A-Za-z0-9_\-]*` */
  function LiteralRun(s: string): (w: string)
    ensures w <= s
  {
    if s != [] && (IsLetter(s[0]) || IsDigit(s[0]) || s[0] == '_' || s[0]
        == '-') then [s[0]] + LiteralRun(s[1..]) else []
  }

  function LiteralDp(s: string): (r: Parsed<string>)
    ensures r.Done? ==> |r.rest| < |s|
  {
    if s == [] || !(IsLetter(s[0]) || IsDigit(s[0])) then Fail
    else Done(LiteralRun(s), s[|LiteralRun(s)|..])
  }

  /** `quoted_string_p | literal_p` */
  function KeyP(s: string): (r: Parsed<string>)
    ensures r.Done? ==> |r.rest| < |s|
  {
    var t := SkipSpaces(s);
    var r := OrElse(QuotedDp(t), LiteralDp(t));
    if r.Fail? then Fail else Done(r.value, SkipSpaces(r.rest))
  }

  /** json_object_pair */
  function PairP(s: string): (r: Parsed<(string, Json)>)
    ensures r.Done? ==> |r.rest| < |s|
    decreases |s|, 5
  {
    var key := KeyP(s);
    if key.Fail? then Fail
    else
      var colon := Token(':', key.rest);
      if colon.Fail? then Fail
      else
        var v := ValueP(colon.rest);
        if v.Fail? then Fail else Done((key.value, v.value), v.rest)
  }

  /** `dict`: a later pair with the same key wins. */
  function Dict(kvs: seq<(string, Json)>): map<string, Json> {
    if kvs == [] then map[] else Dict(kvs[..|kvs| - 1])[kvs[|kvs| - 1].0 := kvs[|kvs| - 1].1]
  }

  /** json_object_p: the braces and the comma are taken without whitespace around. */
  function ObjectDp(s: string): (r: Parsed<Json>)
    ensures r.Done? ==> |r.rest| < |s|
    decreases |s|, 2
  {
    if s == [] || s[0] != '{' then Fail
    else
      var first := PairP(s[1..]);
      var (pairs, t) := if first.Fail? then ([], s[1..])
                        else var (more, t) := MorePairs(first.rest); ([first.value] + more, t);
      if t == [] || t[0] != '}' then Fail else Done(Obj(Dict(pairs)), t[1..])
  }

  function MorePairs(s: string): (r: (seq<(string, Json)>, string))
    ensures |r.1| <= |s|
    decreases |s|, 6
  {
    if s == [] || s[0] != ',' then ([], s)
    else
      var p := PairP(s[1..]);
      if p.Fail? then ([], s)
      else var (more, t) := MorePairs(p.rest); ([p.value] + more, t)
  }

  // ----- texts of RFC 8259 -----

  /** A character of a string as it is written: itself, a short escape (by its letter), or four hex digits. */
  datatype Piece = Plain(c: char) | Escaped(letter: char) | Hex(digits: string)

  /** A value as it is written, with the whitespace around every part. */
  datatype Text =
    | NullText
    | BoolText(b: bool)
    | NumText(minus: bool, whole: string, frac: string)
    | ExpText(minus: bool, whole: string, frac: string, exp: Exponent)
    | StrText(pieces: seq<Piece>)
    | ArrText(blank: string, elems: seq<Elem>)
    | ObjText(blank: string, members: seq<Member>)

  /** `e` or `E`, no sign or one, and digits. */
  datatype Exponent = Exponent(mark: char, sign: string, digits: string)

  datatype Elem = Elem(before: string, text: Text, after: string)

  datatype Member = Member(before: string, key: seq<Piece>, gap: string, elem: Elem)

  /** The characters that section 7 of RFC 8259 abbreviates. */
  function Abbreviated(letter: char): Option<char> {
    match letter
    case '"' => Some('"')
    case '\\' => Some('\\')
    case '/' => Some('/')
    case 'b' => Some(8 as char)
    case 'f' => Some(12 as char)
    case 'n' => Some(10 as char)
    case 'r' => Some(13 as char)
    case 't' => Some(9 as char)
    case _ => None
  }

  predicate HexDigits(digits: string) {
    forall i :: 0 <= i < |digits| ==>
      '0' <= digits[i] <= '9' || 'a' <= digits[i] <= 'f' || 'A' <= digits[i] <= 'F'
  }

  /** The number that hex digits stand for. */
  function HexNumber(digits: string): nat
    requires HexDigits(digits)
  {
    if digits == [] then 0
    else
      var c := digits[|digits| - 1];
      16 * HexNumber(digits[..|digits| - 1])
      + if c <= '9' then c as nat - 48 else if c <= 'F' then c as nat - 55 else c as nat - 87
  }

  predicate PieceOk(p: Piece) {
    match p
    case Plain(c) => c != '"' && c != '\\'
    case Escaped(letter) => Abbreviated(letter).Some?
    case Hex(digits) => |digits| == 4 && HexDigits(digits) && !(55296 <= HexNumber(digits) <= 57343)
  }

  predicate PiecesOk(ps: seq<Piece>) {
    forall p :: p in ps ==> PieceOk(p)
  }

  predicate ExponentOk(exp: Exponent) {
    && (exp.mark == 'e' || exp.mark == 'E') && (exp.sign == "" || exp.sign == "+" || exp.sign == "-")
    && exp.digits != [] && AllDigits(exp.digits)
  }

  predicate TextOk(t: Text)
    decreases t
  {
    match t
    case NumText(_, whole, frac) => whole != [] && AllDigits(whole) && AllDigits(frac)
    case ExpText(_, whole, frac, exp) => whole != [] && AllDigits(whole) && AllDigits(frac) && ExponentOk(exp)
    case StrText(ps) => PiecesOk(ps)
    case ArrText(blank, elems) => AllSpaces(blank) && ElemsOk(elems)
    case ObjText(blank, members) => AllSpaces(blank) && MembersOk(members)
    case _ => true
  }

  predicate Spaced(e: Elem) {
    AllSpaces(e.before) && AllSpaces(e.after)
  }

  predicate KeyOk(m: Member) {
    AllSpaces(m.before) && PiecesOk(m.key) && AllSpaces(m.gap) && Spaced(m.elem)
  }

  predicate ElemsOk(es: seq<Elem>)
    decreases es
  {
    es == [] || (Spaced(es[0]) && TextOk(es[0].text) && ElemsOk(es[1..]))
  }

  predicate MembersOk(ms: seq<Member>)
    decreases ms
  {
    ms == [] || (KeyOk(ms[0]) && TextOk(ms[0].elem.text) && MembersOk(ms[1..]))
  }

  function PieceText(p: Piece): string {
    match p
    case Plain(c) => [c]
    case Escaped(letter) => ['\\', letter]
    case Hex(digits) => ['\\', 'u'] + digits
  }

  function PiecesText(ps: seq<Piece>): string {
    if ps == [] then [] else PieceText(ps[0]) + PiecesText(ps[1..])
  }

  function Quoted(ps: seq<Piece>): string {
    ['"'] + (PiecesText(ps) + ['"'])
  }

  function Number(minus: bool, whole: string, frac: string): string {
    (if minus then "-" else "") + (whole + if frac == [] then [] else "." + frac)
  }

  function ExponentText(exp: Exponent): string {
    [exp.mark] + (exp.sign + exp.digits)
  }

  function Render(t: Text): string
    decreases t
  {
    match t
    case NullText => "null"
    case BoolText(b) => if b then "true" else "false"
    case NumText(minus, whole, frac) => Number(minus, whole, frac)
    case ExpText(minus, whole, frac, exp) => Number(minus, whole, frac) + ExponentText(exp)
    case StrText(ps) => Quoted(ps)
    case ArrText(blank, elems) =>
      ['['] + ((if elems == [] then blank else ElemText(elems[0]) + MoreElems(elems[1..])) + [']'])
    case ObjText(blank, members) =>
      ['{'] + ((if members == [] then blank else MemberText(members[0]) + MoreMembers(members[1..])) + ['}'])
  }

  function ElemText(e: Elem): string
    decreases e
  {
    e.before + (Render(e.text) + e.after)
  }

  function MoreElems(es: seq<Elem>): string
    decreases es
  {
    if es == [] then [] else [','] + (ElemText(es[0]) + MoreElems(es[1..]))
  }

  function MemberText(m: Member): string
    decreases m
  {
    m.before + (Quoted(m.key) + (m.gap + ([':'] + ElemText(m.elem))))
  }

  function MoreMembers(ms: seq<Member>): string
    decreases ms
  {
    if ms == [] then [] else [','] + (MemberText(ms[0]) + MoreMembers(ms[1..]))
  }

  lemma HexNumberLast(digits: string)
    requires digits != [] && HexDigits(digits)
    ensures var last := |digits| - 1;
            HexDigits(digits[..last]) && IsHex(digits[last])
            && HexNumber(digits) == 16 * HexNumber(digits[..last]) + HexValue(digits[last])
  {
  }

  lemma HexNumberSmall(digits: string)
    requires |digits| == 4 && HexDigits(digits)
    ensures HexNumber(digits) < 65536
    ensures forall i :: 0 <= i < 4 ==> IsHex(digits[i])
    ensures HexNumber(digits) == Hex4(digits)
  {
    hide HexNumber, HexValue, HexDigits, IsHex;
    var a, b, c := digits[..3], digits[..2], digits[..1];
    assert a[..2] == b && b[..1] == c && c[..0] == [];
    HexNumberLast(digits);
    HexNumberLast(a);
    HexNumberLast(b);
    HexNumberLast(c);
    NoHexDigits();
  }

  lemma NoHexDigits()
    ensures HexDigits([]) && HexNumber([]) == 0
  {
  }

  function PieceChar(p: Piece): char
    requires PieceOk(p)
  {
    match p
    case Plain(c) => c
    case Escaped(letter) => Abbreviated(letter).value
    case Hex(digits) =>
      HexNumberSmall(digits);
      HexNumber(digits) as char
  }

  function StringOf(ps: seq<Piece>): string
    requires PiecesOk(ps)
  {
    if ps == [] then []
    else
      assert ps[0] in ps;
      [PieceChar(ps[0])] + StringOf(ps[1..])
  }

  /** The value that the text stands for; but a number with an exponent is no number to the parser, and its
      text stands for itself. */
  function ReadAs(t: Text): Json
    requires TextOk(t)
    decreases t
  {
    match t
    case NullText => Null
    case BoolText(b) => Bool(b)
    case NumText(minus, whole, frac) =>
      var n := Value(whole) as real + if frac == [] then 0.0 else Value(frac) as real / Power10(|frac|) as real;
      Num(if minus then -n else n)
    case ExpText(minus, whole, frac, exp) => Str(Number(minus, whole, frac) + ExponentText(exp))
    case StrText(ps) => Str(StringOf(ps))
    case ArrText(_, elems) => Arr(ReadAsAll(elems))
    case ObjText(_, members) => Obj(Dict(Pairs(members)))
  }

  function ReadAsAll(es: seq<Elem>): seq<Json>
    requires ElemsOk(es)
    decreases es
  {
    if es == [] then [] else [ReadAs(es[0].text)] + ReadAsAll(es[1..])
  }

  function Pairs(ms: seq<Member>): seq<(string, Json)>
    requires MembersOk(ms)
    decreases ms
  {
    if ms == [] then [] else [(StringOf(ms[0].key), ReadAs(ms[0].elem.text))] + Pairs(ms[1..])
  }

  /** At any depth, no empty object has whitespace between its braces, and a number with an exponent has
      neither a fraction nor a plus sign. */
  predicate Readable(t: Text)
    decreases t
  {
    match t
    case ExpText(_, _, frac, exp) => frac == [] && exp.sign != "+"
    case ArrText(_, elems) => ReadableElems(elems)
    case ObjText(blank, members) => (members == [] ==> blank == []) && ReadableMembers(members)
    case _ => true
  }

  predicate ReadableElems(es: seq<Elem>)
    decreases es
  {
    es == [] || (Readable(es[0].text) && ReadableElems(es[1..]))
  }

  predicate ReadableMembers(ms: seq<Member>)
    decreases ms
  {
    ms == [] || (Readable(ms[0].elem.text) && ReadableMembers(ms[1..]))
  }

  // ----- strings are read back -----

  lemma EscapeParses(p: Piece, rest: string)
    requires PieceOk(p) && !p.Plain?
    ensures EscapeDp(PieceText(p) + rest) == Done(PieceChar(p), rest)
  {
    var s := PieceText(p) + rest;
    if p.Hex? {
      HexNumberSmall(p.digits);
      assert s[2..6] == p.digits && s[6..] == rest;
    } else {
      assert s[2..] == rest;
    }
  }

  lemma {:induction false} CharsParse(ps: seq<Piece>, rest: string)
    requires PiecesOk(ps)
    ensures Chars(PiecesText(ps) + (['"'] + rest)) == (StringOf(ps), ['"'] + rest)
    decreases |ps|
  {
    hide EscapeDp, PieceText;
    var end := ['"'] + rest;
    if ps == [] {
      assert PiecesText(ps) + end == end;
    } else {
      assert ps[0] in ps;
      var tail := PiecesText(ps[1..]) + end;
      var s := PiecesText(ps) + end;
      assert s == PieceText(ps[0]) + tail;
      CharsParse(ps[1..], rest);
      if ps[0].Plain? {
        PlainText(ps[0]);
        assert s[1..] == tail;
      } else {
        EscapedText(ps[0]);
        EscapeParses(ps[0], tail);
      }
    }
  }

  lemma PlainText(p: Piece)
    requires p.Plain?
    ensures PieceText(p) == [p.c]
  {
  }

  lemma EscapedText(p: Piece)
    requires !p.Plain?
    ensures |PieceText(p)| > 0 && PieceText(p)[0] == '\\'
  {
  }

  lemma QuotedParses(ps: seq<Piece>, rest: string)
    requires PiecesOk(ps)
    ensures QuotedDp(Quoted(ps) + rest) == Done(StringOf(ps), rest)
  {
    hide Chars, StringOf;
    CharsParse(ps, rest);
    var s := Quoted(ps) + rest;
    assert s[1..] == PiecesText(ps) + (['"'] + rest);
    assert (['"'] + rest)[1..] == rest;
  }

  // ----- numbers and words -----

  /** What may follow a value: the end, whitespace, a comma or a closing bracket. */
  predicate Ends(rest: string) {
    rest == [] || IsSpace(rest[0]) || rest[0] == ',' || rest[0] == ']' || rest[0] == '}'
  }

  lemma NumberOrWord(s: string)
    requires s != [] && (IsDigit(s[0]) || s[0] == '-')
    ensures ValueDp(s) == OrElse(AsStr(UnquotedDp(s)), OrElse(AsNum(FloatDp(s)), AsNum(IntegerDp(s))))
  {
    hide UnquotedDp, FloatDp, IntegerDp;
    NoSpaces(s);
    assert !("true" <= s) && !("false" <= s) && !("null" <= s);
    assert QuotedDp(s).Fail? && ArrayDp(s).Fail? && ObjectDp(s).Fail?;
  }

  /** The parsers of words and numbers do not take each other's texts. */
  lemma NumberParses(minus: bool, whole: string, frac: string, rest: string)
    requires whole != [] && AllDigits(whole) && AllDigits(frac) && Ends(rest)
    ensures ValueDp(Number(minus, whole, frac) + rest) == Done(ReadAs(NumText(minus, whole, frac)), rest)
  {
    hide Value, FloatDp, IntegerDp, UnquotedDp, Power10, ValueDp;
    var sign := if minus then "-" else "";
    var s := Number(minus, whole, frac) + rest;
    assert IsDigit(whole[0]);
    assert s[0] == (if minus then '-' else whole[0]);
    NumberOrWord(s);
    NumberIsNoWord(minus, whole, frac, rest);
    if frac == [] {
      assert s == sign + (whole + rest);
      IntegerParses(sign, whole, rest);
    } else {
      assert s == sign + (whole + ("." + (frac + rest)));
      FloatParses(sign, whole, frac, rest);
    }
  }

  /** A word to the parser if there is no character in it that rules a word out; otherwise the number stops
      at the exponent. */
  lemma ExponentParses(minus: bool, whole: string, frac: string, exp: Exponent, rest: string)
    requires whole != [] && AllDigits(whole) && AllDigits(frac) && ExponentOk(exp) && Ends(rest)
    ensures Reads(ExpText(minus, whole, frac, exp), rest)
  {
    hide Value, FloatDp, IntegerDp, UnquotedDp, Power10, ValueDp;
    var sign := if minus then "-" else "";
    var tail := ExponentText(exp) + rest;
    var s := Render(ExpText(minus, whole, frac, exp)) + rest;
    assert s == Number(minus, whole, frac) + tail;
    assert IsDigit(whole[0]);
    assert s[0] == (if minus then '-' else whole[0]);
    assert tail[0] == exp.mark;
    NumberOrWord(s);
    ExponentWord(minus, whole, frac, exp, rest);
    if frac != [] {
      assert s == sign + (whole + ("." + (frac + tail)));
      FloatParses(sign, whole, frac, tail);
    } else if exp.sign == "+" {
      assert s == sign + (whole + tail);
      IntegerParses(sign, whole, tail);
    }
  }

  lemma ExponentWord(minus: bool, whole: string, frac: string, exp: Exponent, rest: string)
    requires whole != [] && AllDigits(whole) && AllDigits(frac) && ExponentOk(exp) && Ends(rest)
    ensures var w := Number(minus, whole, frac) + ExponentText(exp);
            UnquotedDp(w + rest) == if frac == [] && exp.sign != "+" then Done(w, rest) else Fail
  {
    hide Number, ExponentText, Allowed, EndsUnquoted, ExponentOk, AllAllowed, Unnumbered;
    var n, x := Number(minus, whole, frac), ExponentText(exp);
    NumberChars(minus, whole, frac);
    ExponentChars(exp);
    forall i | 0 <= i < |n + x|
      ensures !EndsUnquoted((n + x)[i])
    {
      assert (n + x)[i] == if i < |n| then n[i] else x[i - |n|];
    }
    EndsWord(rest);
    WordPlus(n + x, rest);
    After(n + x, rest);
    AllowedBoth(n, x);
    MarkUnnumbered(n, x);
  }

  lemma EndsWord(rest: string)
    requires Ends(rest)
    ensures rest == [] || EndsUnquoted(rest[0])
  {
  }

  lemma MarkUnnumbered(n: string, x: string)
    requires n != [] && x != [] && IsMark(x[0])
    ensures Unnumbered(n + x)
  {
    assert NoNumber(n + x, |n|);
  }

  lemma NumberChars(minus: bool, whole: string, frac: string)
    requires whole != [] && AllDigits(whole) && AllDigits(frac)
    ensures var n := Number(minus, whole, frac);
            n != [] && (AllAllowed(n) <==> frac == []) && forall i :: 0 <= i < |n| ==> !EndsUnquoted(n[i])
  {
    var n := Number(minus, whole, frac);
    assert forall i :: 0 <= i < |n| ==> IsDigit(n[i]) || n[i] == '-' || (n[i] == '.' && frac != []);
    if frac != [] {
      assert n[|n| - |frac| - 1] == '.';
    }
  }

  lemma ExponentChars(exp: Exponent)
    requires ExponentOk(exp)
    ensures var x := ExponentText(exp);
            && x != [] && IsMark(x[0]) && (AllAllowed(x) <==> exp.sign != "+")
            && forall i :: 0 <= i < |x| ==> !EndsUnquoted(x[i])
  {
    var x := ExponentText(exp);
    assert forall i :: 0 <= i < |x| ==> x[i] == exp.mark || x[i] in exp.sign || IsDigit(x[i]);
    assert exp.sign != "" ==> x[1] == exp.sign[0];
  }

  lemma AllowedBoth(a: string, b: string)
    ensures AllAllowed(a + b) <==> AllAllowed(a) && AllAllowed(b)
  {
    assert forall i :: 0 <= i < |a| ==> (a + b)[i] == a[i];
    assert forall i :: 0 <= i < |b| ==> (a + b)[i + |a|] == b[i];
  }

  lemma NumberIsNoWord(minus: bool, whole: string, frac: string, rest: string)
    requires whole != [] && AllDigits(whole) && AllDigits(frac) && Ends(rest)
    ensures UnquotedDp(Number(minus, whole, frac) + rest).Fail?
  {
    var w := Number(minus, whole, frac);
    forall i | 0 <= i < |w|
      ensures !EndsUnquoted(w[i])
    {
      assert IsDigit(w[i]) || w[i] == '-' || w[i] == '.';
    }
    WordPlus(w, rest);
    if frac == [] {
      forall i | 0 <= i < |w|
        ensures !NoNumber(w, i)
      {
        assert IsDigit(w[i]) || (i == 0 && w[i] == '-');
      }
    } else {
      var dot := |w| - |frac| - 1;
      assert w[dot] == '.';
      assert !AllAllowed(w);
    }
  }

  lemma WordsParse(t: Text, rest: string)
    requires t.NullText? || t.BoolText?
    ensures ValueDp(Render(t) + rest) == Done(ReadAs(t), rest)
  {
    hide UnquotedDp, FloatDp, IntegerDp;
    After(Render(t), rest);
    var s := Render(t) + rest;
    assert s[0] == Render(t)[0];
    assert SkipSpaces(s) == s;
    assert QuotedDp(s).Fail? && ArrayDp(s).Fail? && ObjectDp(s).Fail?;
    if t == BoolText(false) {
      assert s[0] == 'f' && !("true" <= s);
    } else if t == NullText {
      assert s[0] == 'n' && !("true" <= s) && !("false" <= s);
    }
  }

  lemma StringParses(ps: seq<Piece>, rest: string)
    requires PiecesOk(ps)
    ensures ValueDp(Render(StrText(ps)) + rest) == Done(Str(StringOf(ps)), rest)
  {
    hide QuotedDp, SimpleDp, ArrayDp, ObjectDp;
    QuotedParses(ps, rest);
  }

  /** Nothing but an array or an object starts with a bracket, and nothing with a comma. */
  lemma BracketFails(s: string)
    requires s != [] && (s[0] == '[' || s[0] == ']' || s[0] == '{' || s[0] == '}' || s[0] == ',')
    ensures QuotedDp(s).Fail? && SimpleDp(s).Fail?
    ensures s[0] != '[' ==> ArrayDp(s).Fail?
    ensures s[0] != '{' ==> ObjectDp(s).Fail?
    ensures s[0] != '[' && s[0] != '{' ==> ValueP(s).Fail?
  {
    assert Word(s) == [] && !Unnumbered(Word(s));
    assert SignOf(s) == [] && s[0..] == s && Digits(s) == [];
    assert SkipSpaces(s) == s;
  }

  lemma RenderStarts(t: Text)
    requires TextOk(t)
    ensures var s := Render(t);
            s != [] && !IsSpace(s[0]) && s[0] != ']' && s[0] != '}' && s[0] != ','
  {
    if t.NumText? || t.ExpText? {
      assert IsDigit(t.whole[0]);
    }
  }

  lemma ValueSkips(s: string)
    ensures ValueP(SkipSpaces(s)) == ValueP(s)
  {
    hide ValueDp;
    assert SkipSpaces(SkipSpaces(s)) == SkipSpaces(s);
  }

  lemma EndsPlus(after: string, rest: string)
    requires AllSpaces(after) && Ends(rest)
    ensures Ends(after + rest)
  {
    if after == [] {
      assert after + rest == rest;
    }
  }

  predicate IsMark(c: char) {
    c == 'e' || c == 'E'
  }

  /** Not read, or read only up to an exponent. */
  predicate Stuck<T>(r: Parsed<T>) {
    r.Fail? || (r.rest != [] && IsMark(r.rest[0]))
  }

  /** What a list of values that cannot be read in full leaves. */
  predicate Unread(s: string) {
    s != [] && (s[0] == ',' || IsMark(s[0]))
  }

  /** How the parser reads the text of a value that something else follows. */
  ghost predicate Reads(t: Text, rest: string)
    requires TextOk(t)
  {
    var r := ValueDp(Render(t) + rest);
    if Readable(t) then r.Done? && r.value == ReadAs(t) && SkipSpaces(r.rest) == SkipSpaces(rest) else Stuck(r)
  }

  lemma {:induction false} ValueParses(t: Text, rest: string)
    requires TextOk(t) && Ends(rest)
    ensures Reads(t, rest)
    decreases t, 1
  {
    match t
    case NullText => WordsParse(t, rest);
    case BoolText(_) => WordsParse(t, rest);
    case NumText(minus, whole, frac) => NumberParses(minus, whole, frac, rest);
    case ExpText(minus, whole, frac, exp) => ExponentParses(minus, whole, frac, exp, rest);
    case StrText(ps) => StringParses(ps, rest);
    case ArrText(_, _) => ArrayParses(t, rest);
    case ObjText(_, _) => ObjectParses(t, rest);
  }

  lemma StuckStays(r: Parsed<Json>)
    requires Stuck(r)
    ensures r.Done? ==> SkipSpaces(r.rest) == r.rest
  {
  }

  lemma {:induction false} ElemParses(e: Elem, rest: string)
    requires Spaced(e) && TextOk(e.text) && Ends(rest)
    ensures var r := ValueP(ElemText(e) + rest);
            if Readable(e.text) then r == Done(ReadAs(e.text), SkipSpaces(rest)) else Stuck(r)
    decreases e
  {
    hide ValueDp, SkipSpaces, ReadAs, Readable, Render;
    var tail := e.after + rest;
    var body := Render(e.text) + tail;
    assert ElemText(e) + rest == e.before + body;
    SkipSpacesPlus(e.before, body);
    RenderStarts(e.text);
    NoSpaces(body);
    EndsPlus(e.after, rest);
    ValueParses(e.text, tail);
    SkipSpacesPlus(e.after, rest);
    if !Readable(e.text) {
      StuckStays(ValueDp(body));
    }
  }

  lemma MoreValuesStep(s: string)
    ensures var v := ValueP(s);
            MoreValues([','] + s) == if v.Fail? then ([], [','] + s)
                                     else ([v.value] + MoreValues(v.rest).0, MoreValues(v.rest).1)
  {
    hide SkipSpaces, ValueP;
    NoSpaces([','] + s);
    After([','], s);
    ValueSkips(s);
  }

  lemma MoreValuesEnd(rest: string)
    ensures MoreValues([']'] + rest) == ([], [']'] + rest)
  {
    hide ValueP;
  }

  /** Behind a value that is read only up to an exponent there is no further one. */
  lemma StuckValues(r: Parsed<Json>)
    requires Stuck(r) && r.Done?
    ensures MoreValues(r.rest) == ([], r.rest)
  {
    hide ValueP;
    NoSpaces(r.rest);
  }

  lemma {:induction false} MoreElemsParse(es: seq<Elem>, rest: string)
    requires ElemsOk(es)
    ensures var end := [']'] + rest;
            var (values, t) := MoreValues(MoreElems(es) + end);
            && Ends(MoreElems(es) + end)
            && if ReadableElems(es) then values == ReadAsAll(es) && t == end else Unread(t)
    decreases es
  {
    hide ValueP, MoreValues, SkipSpaces, ReadAs, Readable, ElemText, TextOk, Spaced, Token, PiecesOk, StringOf;
    var end := [']'] + rest;
    if es == [] {
      assert MoreElems(es) + end == end;
      MoreValuesEnd(rest);
    } else {
      var tail := MoreElems(es[1..]) + end;
      assert MoreElems(es) + end == [','] + (ElemText(es[0]) + tail);
      MoreElemsParse(es[1..], rest);
      EndsStart(es[1..], end);
      ElemParses(es[0], tail);
      MoreValuesStep(ElemText(es[0]) + tail);
      var v := ValueP(ElemText(es[0]) + tail);
      if !Readable(es[0].text) && v.Done? {
        StuckValues(v);
      }
    }
  }

  /** What is read behind an opening bracket. */
  lemma ArrayStep(inner: string)
    ensures var s, first := ['['] + inner, ValueP(SkipSpaces(inner));
            var (values, t) := if first.Fail? then ([], SkipSpaces(inner))
                               else ([first.value] + MoreValues(first.rest).0, MoreValues(first.rest).1);
            var close := Token(']', t);
            ValueDp(s) == if close.Fail? then Fail else Done(Arr(values), close.rest)
  {
    hide SkipSpaces, QuotedDp, SimpleDp, ObjectDp, ValueP, MoreValues;
    var s := ['['] + inner;
    BracketFails(s);
    NoSpaces(s);
    After(['['], inner);
    assert Token('[', s) == Done((), SkipSpaces(inner));
  }

  lemma TokenHere(c: char, rest: string)
    requires !IsSpace(c)
    ensures Token(c, [c] + rest) == Done((), SkipSpaces(rest))
  {
    hide SkipSpaces;
    NoSpaces([c] + rest);
    After([c], rest);
  }

  lemma TokenNot(c: char, s: string)
    requires s != [] && s[0] != c && !IsSpace(s[0])
    ensures Token(c, s).Fail?
  {
  }

  lemma {:induction false} ArrayParses(t: Text, rest: string)
    requires t.ArrText? && TextOk(t)
    ensures Reads(t, rest)
    decreases t, 0
  {
    hide SkipSpaces, ValueDp, ValueP, MoreValues, ReadAsAll, ReadableElems, ElemText, MoreElems, Token;
    var end := [']'] + rest;
    var es := t.elems;
    TokenHere(']', rest);
    SkipIdle(rest);
    if es == [] {
      assert Render(t) + rest == ['['] + (t.blank + end);
      ArrayStep(t.blank + end);
      SkipSpacesPlus(t.blank, end);
      NoSpaces(end);
      BracketFails(end);
      ElemsUnfold(es);
    } else {
      var tail := MoreElems(es[1..]) + end;
      var inner := ElemText(es[0]) + tail;
      assert Render(t) + rest == ['['] + inner;
      ArrayStep(inner);
      ElemsUnfold(es);
      MoreElemsParse(es[1..], rest);
      EndsStart(es[1..], end);
      ElemParses(es[0], tail);
      ValueSkips(inner);
      ElemStarts(es[0], tail);
      if !Readable(es[0].text) {
        StuckArray(inner, es[0], tail);
      } else if !ReadableElems(es[1..]) {
        TokenNot(']', MoreValues(tail).1);
      }
    }
  }

  /** A value that is not read in full ends the array before the bracket. */
  lemma StuckArray(inner: string, e: Elem, tail: string)
    requires inner == ElemText(e) + tail && Spaced(e) && TextOk(e.text) && Stuck(ValueP(inner))
    ensures var first := ValueP(SkipSpaces(inner));
            first.Fail? || MoreValues(first.rest) == ([], first.rest)
    ensures var first := ValueP(SkipSpaces(inner));
            Token(']', if first.Fail? then SkipSpaces(inner) else first.rest).Fail?
  {
    hide ValueP, SkipSpaces, Token, TextOk, Spaced, ElemText;
    ValueSkips(inner);
    ElemStarts(e, tail);
    var first := ValueP(inner);
    if first.Fail? {
      TokenNot(']', SkipSpaces(inner));
    } else {
      TokenNot(']', first.rest);
      TokenNot(',', first.rest);
    }
  }

  lemma SkipIdle(s: string)
    ensures SkipSpaces(SkipSpaces(s)) == SkipSpaces(s)
  {
  }

  lemma ElemsUnfold(es: seq<Elem>)
    requires ElemsOk(es)
    ensures if es == [] then ReadAsAll(es) == [] && ReadableElems(es)
            else
              && Spaced(es[0]) && TextOk(es[0].text) && ElemsOk(es[1..])
              && ReadAsAll(es) == [ReadAs(es[0].text)] + ReadAsAll(es[1..])
              && (ReadableElems(es) <==> Readable(es[0].text) && ReadableElems(es[1..]))
  {
  }

  /** What follows an element needs no skipping. */
  lemma EndsStart(es: seq<Elem>, end: string)
    requires end != [] && end[0] == ']'
    ensures SkipSpaces(MoreElems(es) + end) == MoreElems(es) + end
  {
  }

  lemma ElemStarts(e: Elem, tail: string)
    requires Spaced(e) && TextOk(e.text)
    ensures var s := SkipSpaces(ElemText(e) + tail); s != [] && s[0] != ']' && s[0] != '}' && s[0] != ','
  {
    hide Render, SkipSpaces;
    var body := Render(e.text) + (e.after + tail);
    assert ElemText(e) + tail == e.before + body;
    SkipSpacesPlus(e.before, body);
    RenderStarts(e.text);
    NoSpaces(body);
  }

  lemma KeyParses(m: Member, rest: string)
    requires AllSpaces(m.before) && PiecesOk(m.key)
    ensures KeyP(m.before + (Quoted(m.key) + rest)) == Done(StringOf(m.key), SkipSpaces(rest))
  {
    hide QuotedDp, LiteralDp, SkipSpaces, PiecesText, StringOf;
    var s := Quoted(m.key) + rest;
    SkipSpacesPlus(m.before, s);
    NoSpaces(s);
    QuotedParses(m.key, rest);
  }

  lemma {:induction false} MemberParses(m: Member, rest: string)
    requires KeyOk(m) && TextOk(m.elem.text) && Ends(rest)
    ensures var r := PairP(MemberText(m) + rest);
            if Readable(m.elem.text) then r == Done((StringOf(m.key), ReadAs(m.elem.text)), SkipSpaces(rest))
            else Stuck(r)
    decreases m
  {
    hide KeyP, ValueP, SkipSpaces, StringOf, Quoted, ElemText, ReadAs, TextOk, Readable, PiecesOk;
    var value := ElemText(m.elem) + rest;
    var colon := [':'] + value;
    assert MemberText(m) + rest == m.before + (Quoted(m.key) + (m.gap + colon));
    KeyParses(m, m.gap + colon);
    SkipSpacesPlus(m.gap, colon);
    NoSpaces(colon);
    After([':'], value);
    ElemParses(m.elem, rest);
    ValueSkips(value);
  }

  lemma MorePairsStep(s: string)
    ensures var p := PairP(s);
            MorePairs([','] + s) == if p.Fail? then ([], [','] + s)
                                    else ([p.value] + MorePairs(p.rest).0, MorePairs(p.rest).1)
  {
    hide PairP;
    After([','], s);
  }

  lemma MorePairsEnd(rest: string)
    ensures MorePairs(['}'] + rest) == ([], ['}'] + rest)
  {
    hide PairP;
  }

  /** Behind a value that is read only up to an exponent there is no pair. */
  lemma StuckPairs(r: Parsed<(string, Json)>)
    requires Stuck(r) && r.Done?
    ensures MorePairs(r.rest) == ([], r.rest)
  {
    hide PairP;
  }

  lemma {:induction false} MoreMembersParse(ms: seq<Member>, rest: string)
    requires MembersOk(ms)
    ensures var end := ['}'] + rest;
            var (pairs, t) := MorePairs(MoreMembers(ms) + end);
            && Ends(MoreMembers(ms) + end) && SkipSpaces(MoreMembers(ms) + end) == MoreMembers(ms) + end
            && if ReadableMembers(ms) then pairs == Pairs(ms) && t == end else Unread(t)
    decreases ms
  {
    var end := ['}'] + rest;
    hide PairP, MorePairs, SkipSpaces, ReadAs, Readable, MemberText, TextOk, StringOf, KeyOk;
    NoSpaces(MoreMembers(ms) + end);
    if ms == [] {
      assert MoreMembers(ms) + end == end;
      MorePairsEnd(rest);
    } else {
      var tail := MoreMembers(ms[1..]) + end;
      assert MoreMembers(ms) + end == [','] + (MemberText(ms[0]) + tail);
      MoreMembersParse(ms[1..], rest);
      MemberParses(ms[0], tail);
      MorePairsStep(MemberText(ms[0]) + tail);
      var p := PairP(MemberText(ms[0]) + tail);
      if !Readable(ms[0].elem.text) && p.Done? {
        StuckPairs(p);
      }
    }
  }

  lemma MembersUnfold(ms: seq<Member>)
    requires MembersOk(ms)
    ensures if ms == [] then Pairs(ms) == [] && ReadableMembers(ms)
            else
              && KeyOk(ms[0]) && TextOk(ms[0].elem.text) && MembersOk(ms[1..])
              && Pairs(ms) == [(StringOf(ms[0].key), ReadAs(ms[0].elem.text))] + Pairs(ms[1..])
              && (ReadableMembers(ms) <==> Readable(ms[0].elem.text) && ReadableMembers(ms[1..]))
  {
  }

  /** Whitespace and a closing brace are no pair. */
  lemma NoPair(blank: string, rest: string)
    requires AllSpaces(blank)
    ensures PairP(blank + (['}'] + rest)).Fail?
  {
    SkipSpacesPlus(blank, ['}'] + rest);
    NoSpaces(['}'] + rest);
  }

  lemma MemberStarts(m: Member, tail: string)
    requires KeyOk(m)
    ensures MemberText(m) + tail != [] && (MemberText(m) + tail)[0] != '}'
  {
    if m.before != [] {
      assert (MemberText(m) + tail)[0] == m.before[0];
    } else {
      assert (MemberText(m) + tail)[0] == '"';
    }
  }

  /** What is read behind an opening brace. */
  lemma ObjectStep(inner: string)
    ensures var s, first := ['{'] + inner, PairP(inner);
            var (pairs, t) := if first.Fail? then ([], inner)
                              else ([first.value] + MorePairs(first.rest).0, MorePairs(first.rest).1);
            ValueDp(s) == if t == [] || t[0] != '}' then Fail else Done(Obj(Dict(pairs)), t[1..])
  {
    hide SkipSpaces, QuotedDp, SimpleDp, ArrayDp, PairP, MorePairs, Dict;
    BracketFails(['{'] + inner);
    After(['{'], inner);
  }

  lemma {:induction false} ObjectParses(t: Text, rest: string)
    requires t.ObjText? && TextOk(t)
    ensures Reads(t, rest)
    decreases t, 0
  {
    hide SkipSpaces, ValueDp, PairP, MorePairs, Pairs, ReadableMembers, MemberText, MoreMembers, Dict, StringOf, KeyOk;
    var end := ['}'] + rest;
    var ms := t.members;
    After(['}'], rest);
    if ms == [] {
      assert Render(t) + rest == ['{'] + (t.blank + end);
      ObjectStep(t.blank + end);
      NoPair(t.blank, rest);
      MembersUnfold(ms);
      if t.blank == [] {
        assert t.blank + end == end;
      }
    } else {
      var tail := MoreMembers(ms[1..]) + end;
      var inner := MemberText(ms[0]) + tail;
      assert Render(t) + rest == ['{'] + inner;
      ObjectStep(inner);
      MembersUnfold(ms);
      MoreMembersParse(ms[1..], rest);
      MemberParses(ms[0], tail);
      MemberStarts(ms[0], tail);
      if !Readable(ms[0].elem.text) && PairP(inner).Done? {
        StuckPairs(PairP(inner));
      }
    }
  }

  // ----- the round trip -----

  /** json_value_p.parse: a value and nothing behind it. */
  function Parse(s: string): Parsed<Json> {
    var r := ValueP(s);
    if r.Done? && r.rest == [] then r else Fail
  }

  /** Every text of a JSON value, with whitespace around it, is read as the value it stands for, but numbers
      with an exponent as their text, if and only if no empty object in it holds whitespace and no exponent
      follows a fraction or has a plus sign; otherwise it is not read at all. */
  lemma ParseRender(before: string, t: Text, after: string)
    requires AllSpaces(before) && AllSpaces(after) && TextOk(t)
    ensures Parse(before + Render(t) + after) == if Readable(t) then Done(ReadAs(t), "") else Fail
  {
    hide ValueP, TextOk, Readable, ReadAs, Render;
    var e := Elem(before, t, after);
    assert before + Render(t) + after == ElemText(e) + "";
    ElemParses(e, "");
  }

  /** A key of an object has the value of its last pair. */
  lemma {:induction false} DictLastWins(kvs: seq<(string, Json)>, i: nat)
    requires i < |kvs| && forall j :: i < j < |kvs| ==> kvs[j].0 != kvs[i].0
    ensures kvs[i].0 in Dict(kvs) && Dict(kvs)[kvs[i].0] == kvs[i].1
    decreases |kvs|
  {
    if i < |kvs| - 1 {
      DictLastWins(kvs[..|kvs| - 1], i);
    }
  }

  lemma AllowedIsPlain(c: char)
    requires Allowed(c)
    ensures !EndsUnquoted(c) && !IsSpace(c) && c != '"'
  {
  }

  predicate StartsLikeLiteral(w: string) {
    "true" <= w || "false" <= w || "null" <= w
  }

  /** Letters, digits and a few marks, and not a number. */
  predicate PlainWord(w: string) {
    && (forall i :: 0 <= i < |w| ==>
          'a' <= w[i] <= 'z' || 'A' <= w[i] <= 'Z' || '0' <= w[i] <= '9' || w[i] in ['_', '-', ':', '/'])
    && (exists i :: 0 <= i < |w| && !('0' <= w[i] <= '9') && (i > 0 || w[i] != '-'))
  }

  lemma PlainIsWord(w: string)
    ensures PlainWord(w) <==> AllAllowed(w) && Unnumbered(w)
  {
    assert forall i :: 0 <= i < |w| ==>
      (NoNumber(w, i) <==> !('0' <= w[i] <= '9') && (i > 0 || w[i] != '-'));
  }

  /** The characters of an object's key without quotes. */
  predicate PlainKey(k: string) {
    && k != [] && k[0] != '_' && k[0] != '-'
    && forall i :: 0 <= i < |k| ==>
      'a' <= k[i] <= 'z' || 'A' <= k[i] <= 'Z' || '0' <= k[i] <= '9' || k[i] == '_' || k[i] == '-'
  }

  lemma {:induction false} LiteralRunPlus(k: string, rest: string)
    requires forall i :: 0 <= i < |k| ==> IsLetter(k[i]) || IsDigit(k[i]) || k[i] == '_' || k[i] == '-'
    requires rest == [] || !(IsLetter(rest[0]) || IsDigit(rest[0]) || rest[0] == '_' || rest[0] == '-')
    ensures LiteralRun(k + rest) == k
  {
    if k == [] {
      assert k + rest == rest;
    } else {
      assert (k + rest)[1..] == k[1..] + rest;
      LiteralRunPlus(k[1..], rest);
    }
  }

  /** A key may be written without quotes. */
  lemma PlainKeyParses(before: string, k: string, rest: string)
    requires AllSpaces(before) && PlainKey(k) && rest != [] && (rest[0] == ':' || IsSpace(rest[0]))
    ensures KeyP(before + (k + rest)) == Done(k, SkipSpaces(rest))
  {
    hide SkipSpaces;
    SkipSpacesPlus(before, k + rest);
    NoSpaces(k + rest);
    LiteralRunPlus(k, rest);
    After(k, rest);
  }

  /** A word without quotes is read as itself if and only if it does not start with true, false or null;
      these are read as values, and a longer word that starts with one of them is not read. */
  lemma WordExactly(w: string)
    requires PlainWord(w)
    ensures Parse(w) == if !StartsLikeLiteral(w) then Done(Str(w), "")
                        else if w == "true" || w == "false" then Done(Bool(w == "true"), "")
                        else if w == "null" then Done(Null, "")
                        else Fail
  {
    hide Unnumbered, Allowed, EndsUnquoted, FloatDp, IntegerDp, QuotedDp, ArrayDp, ObjectDp, PlainWord;
    PlainIsWord(w);
    forall i | 0 <= i < |w|
      ensures !EndsUnquoted(w[i])
    {
      AllowedIsPlain(w[i]);
    }
    assert w + "" == w;
    WordPlus(w, "");
    NotEmpty(w);
    AllowedIsPlain(w[0]);
    NoSpaces(w);
    NoBrackets(w);
    assert w[|w|..] == "";
    assert UnquotedDp(w) == Done(w, "");
    assert ValueDp(w) == SimpleDp(w);
    if !StartsLikeLiteral(w) {
      assert SimpleDp(w) == Done(Str(w), "");
    } else {
      var n := if "false" <= w then 5 else 4;
      assert SimpleDp(w).Done? && SimpleDp(w).rest == w[n..];
      assert w == w[..n] + w[n..];
      if |w| > n {
        AllowedIsPlain(w[n]);
      }
      NoSpaces(w[n..]);
    }
  }

  lemma NotEmpty(w: string)
    requires Unnumbered(w)
    ensures w != []
  {
  }

  lemma NoBrackets(s: string)
    requires s != [] && Allowed(s[0])
    ensures QuotedDp(s).Fail? && ArrayDp(s).Fail? && ObjectDp(s).Fail?
  {
    NoSpaces(s);
  }

  /** A number with an exponent is never read as a number: it is taken for a word if it has no fraction
      and no plus sign in the exponent, as in 1e5, and is not read otherwise, as in 1e+5 and 1.5e3. */
  lemma ExponentExactly(minus: bool, whole: string, frac: string, exp: Exponent)
    requires whole != [] && AllDigits(whole) && AllDigits(frac) && ExponentOk(exp)
    ensures var s := Number(minus, whole, frac) + ExponentText(exp);
            Parse(s) == if frac == "" && exp.sign != "+" then Done(Str(s), "") else Fail
  {
    hide Parse;
    var t := ExpText(minus, whole, frac, exp);
    ParseRender("", t, "");
    assert "" + Render(t) + "" == Render(t);
  }
}
