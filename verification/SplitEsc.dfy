/** Splitting with an escapable delimiter (split_esc in resotolib/resotolib/utils.py), and the proof that for
    a delimiter of one character it is a bijection between strings and non-empty lists of strings. */
module SplitEsc {
  import opened Options

  /** `s.find(delim)` */
  function Find(s: string, delim: string): (j: Option<nat>)
    ensures j.Some? ==> j.value + |delim| <= |s|
  {
    if delim <= s then Some(0)
    else if s == [] then None
    else
      var j := Find(s[1..], delim);
      if j.Some? then Some(j.value + 1) else None
  }

  lemma {:induction false} FindPrefix(s: string, delim: string)
    requires Find(s, delim).Some?
    ensures delim <= s[Find(s, delim).value..]
  {
    if !(delim <= s) {
      FindPrefix(s[1..], delim);
      assert s[1..][Find(s[1..], delim).value..] == s[Find(s, delim).value..];
    }
  }

  /** How many backslashes a string ends with. */
  function Escapes(s: string): (e: nat)
    ensures e <= |s|
  {
    if s != [] && s[|s| - 1] == '\\' then 1 + Escapes(s[..|s| - 1]) else 0
  }

  function Kept(s: string, dropped: nat): string
    requires dropped <= |s|
  {
    s[..|s| - dropped]
  }

  /** The parts of `s`; `buf` is what the first of them starts with. */
  function Split(s: string, delim: string, buf: string): (parts: seq<string>)
    requires delim != []
    ensures parts != []
    decreases |s|, 1
  {
    var j := Find(s, delim);
    if j.None? then [buf + s] else SplitFrom(s, delim, buf, j.value)
  }

  /** With the first delimiter at `j`, escaped or not. */
  function SplitFrom(s: string, delim: string, buf: string, j: nat): (parts: seq<string>)
    requires delim != [] && j + |delim| <= |s|
    ensures parts != []
    decreases |s|, 0
  {
    var front, e := s[..j], Escapes(s[..j]);
    if e % 2 == 1 then Split(s[j + 1..], delim, buf + Kept(front, e / 2 + 1) + [s[j]])
    else [buf + Kept(front, e / 2)] + Split(s[j + |delim|..], delim, "")
  }

  predicate Trails(s: string, e: nat) {
    && e <= |s|
    && (forall k :: |s| - e <= k < |s| ==> s[k] == '\\')
    && (e < |s| ==> s[|s| - e - 1] != '\\')
  }

  lemma {:induction false} EscapesIs(s: string, e: nat)
    requires Trails(s, e)
    ensures Escapes(s) == e
  {
    if e > 0 {
      assert s[|s| - 1] == '\\';
      EscapesIs(s[..|s| - 1], e - 1);
    }
  }

  lemma {:induction false} EscapesTrail(s: string)
    ensures Trails(s, Escapes(s))
  {
    if s != [] && s[|s| - 1] == '\\' {
      EscapesTrail(s[..|s| - 1]);
    }
  }

  /** The inner loop of split_esc: it runs back over the whole string, but stops behind the last
      delimiter, which is no backslash. */
  method CountEscapes(s: string, ghost i: nat, j: nat) returns (e: nat)
    requires i <= j <= |s| && (i > 0 ==> s[i - 1] != '\\')
    ensures e == Escapes(s[i..j])
  {
    hide *;
    e := 0;
    while j - e > 0 && s[j - e - 1] == '\\'
      invariant 0 <= e <= j - i && e + Escapes(s[i..j - e]) == Escapes(s[i..j])
    {
      EscapesSlice(s, i, j - e);
      e := e + 1;
    }
    EscapesSlice(s, i, j - e);
  }

  /** split_esc */
  method SplitEscaped(s: string, delim: string) returns (res: seq<string>)
    requires delim != [] && '\\' !in delim
    ensures res == Split(s, delim, "")
  {
    hide Find, Split, Escapes, Kept;
    var i, buf := 0, "";
    res := [];
    assert s[0..] == s;
    while true
      invariant 0 <= i <= |s| && (i > 0 ==> s[i - 1] != '\\')
      invariant res + Split(s[i..], delim, buf) == Split(s, delim, "")
      decreases |s| - i
    {
      var found := Find(s[i..], delim);
      SplitStep(s, i, delim, buf);
      if found.None? {
        return res + [buf + s[i..]];
      }
      var j := i + found.value;
      DelimiterHere(s, i, j, delim);
      var e := CountEscapes(s, i, j);
      var d := e / 2;
      KeptSlice(s, i, j, d);
      if e != d * 2 {
        KeptSlice(s, i, j, d + 1);
        buf := buf + s[i..j - d - 1] + [s[j]];
        i := j + 1;
      } else {
        Assoc(res, [buf + s[i..j - d]], Split(s[j + |delim|..], delim, ""));
        res := res + [buf + s[i..j - d]];
        i, buf := j + |delim|, "";
      }
    }
  }

  /** One round of splitting. */
  lemma SplitUnfold(s: string, delim: string, buf: string)
    requires delim != [] && Find(s, delim).Some?
    ensures var j := Find(s, delim).value;
            var front, e := s[..j], Escapes(s[..j]);
            Split(s, delim, buf)
            == if e % 2 == 1 then Split(s[j + 1..], delim, buf + Kept(front, e / 2 + 1) + [s[j]])
               else [buf + Kept(front, e / 2)] + Split(s[j + |delim|..], delim, "")
  {
    hide *;
    SplitHere(s, delim, buf);
    SplitFromIs(s, delim, buf, Find(s, delim).value);
  }

  lemma SplitHere(s: string, delim: string, buf: string)
    requires delim != [] && Find(s, delim).Some?
    ensures Split(s, delim, buf) == SplitFrom(s, delim, buf, Find(s, delim).value)
  {
    hide Find, SplitFrom;
  }

  lemma SplitFromIs(s: string, delim: string, buf: string, j: nat)
    requires delim != [] && j + |delim| <= |s|
    ensures var front, e := s[..j], Escapes(s[..j]);
            SplitFrom(s, delim, buf, j)
            == if e % 2 == 1 then Split(s[j + 1..], delim, buf + Kept(front, e / 2 + 1) + [s[j]])
               else [buf + Kept(front, e / 2)] + Split(s[j + |delim|..], delim, "")
  {
    hide Escapes, Split, Kept;
  }

  lemma NotFound(s: string, delim: string, buf: string)
    requires delim != [] && Find(s, delim).None?
    ensures Split(s, delim, buf) == [buf + s]
  {
  }

  lemma Slice(s: string, i: nat, n: nat)
    requires i + n <= |s|
    ensures s[i..][..n] == s[i..i + n] && s[i..][n..] == s[i + n..]
  {
  }

  /** One round, with positions in the whole string. */
  lemma SplitStep(s: string, i: nat, delim: string, buf: string)
    requires i <= |s| && delim != []
    ensures var found := Find(s[i..], delim);
            if found.None? then Split(s[i..], delim, buf) == [buf + s[i..]]
            else
              var j := i + found.value;
              var e := Escapes(s[i..j]);
              && j + |delim| <= |s|
              && Split(s[i..], delim, buf)
                 == if e % 2 == 1 then Split(s[j + 1..], delim, buf + Kept(s[i..j], e / 2 + 1) + [s[j]])
                    else [buf + Kept(s[i..j], e / 2)] + Split(s[j + |delim|..], delim, "")
  {
    hide *;
    var t := s[i..];
    var found := Find(t, delim);
    if found.None? {
      NotFound(t, delim, buf);
    } else {
      SplitUnfold(t, delim, buf);
      var j := i + found.value;
      Slice(s, i, found.value);
      Slice(s, i, found.value + 1);
      Slice(s, i, found.value + |delim|);
    }
  }

  lemma Assoc(a: seq<string>, b: seq<string>, c: seq<string>)
    ensures a + (b + c) == a + b + c
  {
  }

  lemma EscapesSlice(s: string, i: nat, m: nat)
    requires i <= m <= |s|
    ensures i < m && s[m - 1] == '\\' ==> Escapes(s[i..m]) == 1 + Escapes(s[i..m - 1])
    ensures i == m || s[m - 1] != '\\' ==> Escapes(s[i..m]) == 0
  {
    if i < m {
      assert s[i..m][..m - i - 1] == s[i..m - 1];
    }
  }

  lemma KeptSlice(s: string, i: nat, j: nat, m: nat)
    requires i <= j - m && j <= |s|
    ensures Kept(s[i..j], m) == s[i..j - m]
  {
  }

  lemma DelimiterHere(s: string, i: nat, j: nat, delim: string)
    requires i <= j <= |s| && delim != [] && '\\' !in delim && Find(s[i..], delim) == Some(j - i)
    ensures j + |delim| <= |s| && s[j] != '\\' && s[j + |delim| - 1] != '\\'
  {
    FindPrefix(s[i..], delim);
    assert s[i..][j - i..][0] == delim[0] && s[i..][j - i..][|delim| - 1] == delim[|delim| - 1];
    assert delim[0] in delim && delim[|delim| - 1] in delim;
  }

  // ----- the inverse for a delimiter of one character -----

  function Backslashes(n: nat): (s: string)
    ensures |s| == n && forall k :: 0 <= k < n ==> s[k] == '\\'
  {
    seq(n, _ => '\\')
  }

  function Size(parts: seq<string>): nat {
    if parts == [] then 0 else |parts[0]| + 1 + Size(parts[1..])
  }

  /** Doubles the backslashes before a separator, and doubles them and adds one before a literal delimiter. */
  function Join(parts: seq<string>, c: char): string
    requires parts != []
    decreases Size(parts)
  {
    var p, j := parts[0], Find(parts[0], [c]);
    if j.Some? then
      p[..j.value] + Backslashes(Escapes(p[..j.value]) + 1) + ([c] + Join([p[j.value + 1..]] + parts[1..], c))
    else if |parts| == 1 then p
    else p + Backslashes(Escapes(p)) + ([c] + Join(parts[1..], c))
  }

  lemma {:induction false} FindNone(s: string, c: char)
    ensures Find(s, [c]).None? <==> c !in s
  {
    if s != [] && s[0] != c {
      FindNone(s[1..], c);
      assert s == [s[0]] + s[1..];
    } else if s != [] {
      assert [c] <= s;
    }
  }

  lemma {:induction false} FindFirst(s: string, c: char)
    requires Find(s, [c]).Some?
    ensures var j := Find(s, [c]).value; s[j] == c && c !in s[..j]
  {
    var j := Find(s, [c]).value;
    FindPrefix(s, [c]);
    assert s[j..][0] == c;
    if j > 0 {
      FindFirst(s[1..], c);
      assert s[..j] == [s[0]] + s[1..][..j - 1];
    }
  }

  lemma {:induction false} FindPlus(a: string, c: char, rest: string)
    requires c !in a
    ensures Find(a + ([c] + rest), [c]) == Some(|a|)
  {
    var s := a + ([c] + rest);
    if a == [] {
      assert [c] <= s;
    } else {
      assert s[1..] == a[1..] + ([c] + rest);
      FindPlus(a[1..], c, rest);
      assert s[0] == a[0];
    }
  }

  lemma EscapesMore(a: string, n: nat)
    ensures Escapes(a + Backslashes(n)) == Escapes(a) + n
  {
    EscapesTrail(a);
    EscapesIs(a + Backslashes(n), Escapes(a) + n);
  }

  lemma NotIn(a: string, n: nat, c: char)
    requires c !in a && c != '\\'
    ensures c !in a + Backslashes(n)
  {
  }

  /** What is read behind `a` and backslashes up to the delimiter. */
  lemma SplitAt(a: string, n: nat, c: char, rest: string, buf: string)
    requires c !in a && c != '\\'
    ensures var front, e := a + Backslashes(n), Escapes(a) + n;
            && e <= |front|
            && Split(front + ([c] + rest), [c], buf)
               == if e % 2 == 1 then Split(rest, [c], buf + Kept(front, e / 2 + 1) + [c])
                  else [buf + Kept(front, e / 2)] + Split(rest, [c], "")
  {
    hide *;
    var front := a + Backslashes(n);
    var s := front + ([c] + rest);
    NotIn(a, n, c);
    FindPlus(front, c, rest);
    EscapesMore(a, n);
    SplitUnfold(s, [c], buf);
    assert s[..|front|] == front && s[|front|] == c && s[|front| + 1..] == rest;
  }

  lemma KeptFront(a: string, n: nat)
    ensures Kept(a + Backslashes(n), n) == a
  {
  }

  lemma Whole(buf: string, p: string, j: nat)
    ensures j < |p| ==> buf + p[..j] + [p[j]] + p[j + 1..] == buf + p
    ensures buf == "" ==> buf + p == p
  {
  }

  lemma Cons(p: string, parts: seq<string>)
    ensures ([p] + parts)[0] == p && ([p] + parts)[1..] == parts
  {
  }

  lemma HeadTail(parts: seq<string>)
    requires parts != []
    ensures [parts[0]] + parts[1..] == parts
  {
  }

  lemma JoinUnfold(parts: seq<string>, c: char)
    requires parts != []
    ensures var p, j := parts[0], Find(parts[0], [c]);
            if j.Some? then
              var rest := [p[j.value + 1..]] + parts[1..];
              && Size(rest) < Size(parts)
              && Join(parts, c) == p[..j.value] + Backslashes(Escapes(p[..j.value]) + 1) + ([c] + Join(rest, c))
            else if |parts| == 1 then Join(parts, c) == p
            else
              && Size(parts[1..]) < Size(parts)
              && Join(parts, c) == p + Backslashes(Escapes(p)) + ([c] + Join(parts[1..], c))
  {
    hide Find, Escapes, Backslashes;
  }

  /** Splitting what was joined gives back every non-empty list of strings. */
  lemma {:induction false} SplitJoin(parts: seq<string>, c: char, buf: string)
    requires parts != [] && c != '\\'
    ensures Split(Join(parts, c), [c], buf) == [buf + parts[0]] + parts[1..]
    decreases Size(parts)
  {
    hide *;
    var p, j := parts[0], Find(parts[0], [c]);
    JoinUnfold(parts, c);
    if j.Some? {
      FindFirst(p, c);
      var head, rest := p[..j.value], [p[j.value + 1..]] + parts[1..];
      var k := Escapes(head);
      SplitAt(head, k + 1, c, Join(rest, c), buf);
      KeptFront(head, k + 1);
      SplitJoin(rest, c, buf + head + [c]);
      Whole(buf, p, j.value);
      Cons(p[j.value + 1..], parts[1..]);
    } else {
      FindNone(p, c);
      if |parts| == 1 {
        NotFound(p, [c], buf);
      } else {
        SplitAt(p, Escapes(p), c, Join(parts[1..], c), buf);
        KeptFront(p, Escapes(p));
        SplitJoin(parts[1..], c, "");
        Whole("", parts[1..][0], 0);
        HeadTail(parts[1..]);
      }
    }
  }

  /** What is in the buffer comes before the first part. */
  lemma {:induction false} SplitBuf(s: string, c: char, buf: string)
    ensures Split(s, [c], buf) == [buf + Split(s, [c], "")[0]] + Split(s, [c], "")[1..]
    decreases |s|
  {
    hide Find, Split, Escapes, Kept;
    var j := Find(s, [c]);
    if j.None? {
      NotFound(s, [c], buf);
      NotFound(s, [c], "");
      assert "" + s == s;
    } else {
      SplitUnfold(s, [c], buf);
      SplitUnfold(s, [c], "");
      var front, e, rest := s[..j.value], Escapes(s[..j.value]), s[j.value + 1..];
      if e % 2 == 1 {
        var head := Kept(front, e / 2 + 1);
        SplitBuf(rest, c, buf + head + [s[j.value]]);
        SplitBuf(rest, c, "" + head + [s[j.value]]);
        var first := Split(rest, [c], "")[0];
        assert buf + head + [s[j.value]] + first == buf + ("" + head + [s[j.value]] + first);
      } else {
        assert "" + Kept(front, e / 2) == Kept(front, e / 2);
      }
    }
  }

  lemma JoinLiteral(head: string, c: char, q: seq<string>)
    requires q != [] && c !in head
    ensures Join([head + [c] + q[0]] + q[1..], c) == head + Backslashes(Escapes(head) + 1) + ([c] + Join(q, c))
  {
    hide Find, Escapes, Backslashes;
    var p := head + [c] + q[0];
    assert p == head + ([c] + q[0]);
    FindPlus(head, c, q[0]);
    assert p[..|head|] == head && p[|head| + 1..] == q[0];
    assert ([p] + q[1..])[1..] == q[1..] && [q[0]] + q[1..] == q;
  }

  lemma JoinSeparator(head: string, c: char, q: seq<string>)
    requires q != [] && c !in head
    ensures Join([head] + q, c) == head + Backslashes(Escapes(head)) + ([c] + Join(q, c))
  {
    hide Find, Escapes, Backslashes;
    FindNone(head, c);
    assert ([head] + q)[1..] == q;
  }

  lemma EscapesLess(s: string, m: nat)
    requires m <= Escapes(s)
    ensures Escapes(Kept(s, m)) == Escapes(s) - m && s == Kept(s, m) + Backslashes(m)
  {
    EscapesTrail(s);
    hide Escapes;
    var t := Kept(s, m);
    forall k | 0 <= k < |s|
      ensures s[k] == (t + Backslashes(m))[k]
    {
    }
    EscapesIs(t, Escapes(s) - m);
  }

  /** The parts read up to a delimiter, and those behind it. */
  function Rejoined(front: string, c: char, q: seq<string>): seq<string>
    requires q != []
  {
    var e := Escapes(front);
    if e % 2 == 1 then [Kept(front, e / 2 + 1) + [c] + q[0]] + q[1..] else [Kept(front, e / 2)] + q
  }

  lemma SplitAround(s: string, c: char)
    requires Find(s, [c]).Some?
    ensures var j := Find(s, [c]).value;
            s[j] == c && Split(s, [c], "") == Rejoined(s[..j], c, Split(s[j + 1..], [c], ""))
  {
    hide Find, Escapes, Split, Kept;
    var j := Find(s, [c]).value;
    FindFirst(s, c);
    SplitUnfold(s, [c], "");
    var front, rest := s[..j], s[j + 1..];
    var m := if Escapes(front) % 2 == 1 then Escapes(front) / 2 + 1 else Escapes(front) / 2;
    assert "" + Kept(front, m) == Kept(front, m);
    SplitBuf(rest, c, Kept(front, m) + [c]);
  }

  lemma JoinAround(front: string, c: char, q: seq<string>)
    requires c !in front && q != []
    ensures Join(Rejoined(front, c, q), c) == front + ([c] + Join(q, c))
  {
    hide Find, Escapes, Join, Kept, Backslashes;
    var m := if Escapes(front) % 2 == 1 then Escapes(front) / 2 + 1 else Escapes(front) / 2;
    EscapesLess(front, m);
    KeptIn(front, m, c);
    if Escapes(front) % 2 == 1 {
      JoinLiteral(Kept(front, m), c, q);
    } else {
      JoinSeparator(Kept(front, m), c, q);
    }
  }

  /** Joining what was split gives back every string. */
  lemma {:induction false} JoinSplit(s: string, c: char)
    requires c != '\\'
    ensures Join(Split(s, [c], ""), c) == s
    decreases |s|
  {
    hide *;
    var j := Find(s, [c]);
    if j.None? {
      NotFound(s, [c], "");
      assert "" + s == s;
      JoinOne(s, c);
    } else {
      FindFirst(s, c);
      SplitAround(s, c);
      JoinSplit(s[j.value + 1..], c);
      JoinAround(s[..j.value], c, Split(s[j.value + 1..], [c], ""));
      CutAt(s, j.value);
    }
  }

  lemma CutAt(s: string, j: nat)
    requires j < |s|
    ensures s == s[..j] + ([s[j]] + s[j + 1..])
  {
  }

  lemma KeptIn(s: string, m: nat, c: char)
    requires m <= |s| && c !in s
    ensures c !in Kept(s, m)
  {
  }

  lemma JoinOne(s: string, c: char)
    requires Find(s, [c]).None?
    ensures Join([s], c) == s
  {
  }

  /** split_esc is a bijection: no two strings split alike and every non-empty list is a split. */
  lemma Bijection(s: string, t: string, parts: seq<string>, c: char)
    requires c != '\\' && parts != []
    ensures Split(s, [c], "") == Split(t, [c], "") ==> s == t
    ensures exists u :: Split(u, [c], "") == parts
  {
    hide Split, Join;
    JoinSplit(s, c);
    JoinSplit(t, c);
    SplitJoin(parts, c, "");
    assert "" + parts[0] == parts[0] && [parts[0]] + parts[1..] == parts;
    assert Split(Join(parts, c), [c], "") == parts;
  }
}
