/** The part of AQL that a filter uses: values in their type order with null below everything,
    expressions over named placeholders, and what an expression selects. */
module Aql {
  import opened Options

  datatype Value = Null | Bool(b: bool) | Num(n: real) | Str(s: string) | List(vs: seq<Value>)

  function Rank(v: Value): nat {
    match v
    case Null => 0
    case Bool(_) => 1
    case Num(_) => 2
    case Str(_) => 3
    case List(_) => 4
  }

  predicate StrLess(a: string, b: string) {
    b != [] && (a == [] || a[0] < b[0] || (a[0] == b[0] && StrLess(a[1..], b[1..])))
  }

  /** null < bool < number < string < array, and the usual order within a type. */
  predicate Less(a: Value, b: Value)
    decreases a
  {
    if Rank(a) != Rank(b) then Rank(a) < Rank(b)
    else
      match a
      case Null => false
      case Bool(x) => !x && b.b
      case Num(x) => x < b.n
      case Str(x) => StrLess(x, b.s)
      case List(xs) => ListLess(xs, b.vs)
  }

  predicate ListLess(a: seq<Value>, b: seq<Value>)
    decreases a
  {
    b != [] && (a == [] || Less(a[0], b[0]) || (a[0] == b[0] && ListLess(a[1..], b[1..])))
  }

  datatype Op = Lt | Le | Gt | Ge | Eq | Ne | In | NotIn | Match | NotMatch

  datatype Node = Node(key: string, kinds: seq<string>, doc: map<string, Value>, attrs: map<string, set<string>>)

  /** A missing attribute reads as null. */
  function At(node: Node, path: string): Value {
    if path in node.doc then node.doc[path] else Null
  }

  function Attributes(node: Node, path: string): set<string> {
    if path in node.attrs then node.attrs[path] else {}
  }

  /** The database's own functions that a filter calls: REGEX_TEST, IPV4_TO_NUMBER, and HAS with a
      name that is not a string. */
  datatype Functions = Functions(
    rx: (Value, Value) -> bool,
    ip: Value -> Option<nat>,
    hasOther: (set<string>, Value) -> bool)

  predicate Holds(fns: Functions, x: Value, op: Op, y: Value) {
    match op
    case Lt => Less(x, y)
    case Le => !Less(y, x)
    case Gt => Less(y, x)
    case Ge => !Less(x, y)
    case Eq => x == y
    case Ne => x != y
    case In => y.List? && x in y.vs
    case NotIn => !(y.List? && x in y.vs)
    case Match => fns.rx(x, y)
    case NotMatch => !fns.rx(x, y)
  }

  datatype Expr =
    | Always
    | Compare(path: string, op: Op, bind: string)
    | Present(path: string)
    | KeyIs(bind: string)
    | AnyKind(binds: seq<string>)
    | Both(left: Expr, right: Expr)
    | Either(left: Expr, right: Expr)
    | No(e: Expr)
    | Differ(path: string, other: string)
    | InNet(path: string, mask: nat, bind: string)
    | HasKey(path: string, bind: string)
    | HasAll(path: string, bind: string)

  type Binds = map<string, Value>

  function Bound(binds: Binds, name: string): Value {
    if name in binds then binds[name] else Null
  }

  function Number(w: nat): Value {
    Num(w as real)
  }

  predicate Eval(fns: Functions, binds: Binds, node: Node, e: Expr) {
    match e
    case Always => true
    case Compare(path, op, b) => Holds(fns, At(node, path), op, Bound(binds, b))
    case Present(path) => At(node, path) != Null
    case KeyIs(b) => Str(node.key) == Bound(binds, b)
    case AnyKind(bs) => exists i :: 0 <= i < |bs| && KindBound(binds, node, bs[i])
    case Both(l, r) => Eval(fns, binds, node, l) && Eval(fns, binds, node, r)
    case Either(l, r) => Eval(fns, binds, node, l) || Eval(fns, binds, node, r)
    case No(x) => !Eval(fns, binds, node, x)
    case Differ(path, other) => At(node, path) != At(node, other)
    case InNet(path, mask, b) =>
      var ip := fns.ip(At(node, path));
      (if ip.Some? then Number(BitAnd(ip.value, mask)) else Null) == Bound(binds, b)
    case HasKey(path, b) =>
      var name := Bound(binds, b);
      if name.Str? then name.s in Attributes(node, path) else fns.hasOther(Attributes(node, path), name)
    case HasAll(path, b) =>
      var names := Bound(binds, b);
      names.List? && forall i :: 0 <= i < |names.vs| ==>
        names.vs[i].Str? && names.vs[i].s in Visible(Attributes(node, path))
  }

  predicate KindBound(binds: Binds, node: Node, b: string) {
    Bound(binds, b).Str? && Bound(binds, b).s in node.kinds
  }

  /** ATTRIBUTES(doc, true) leaves out the system attributes. */
  function Visible(names: set<string>): set<string> {
    set n | n in names && !(n != "" && n[0] == '_')
  }

  function Placeholders(e: Expr): set<string> {
    match e
    case Always => {}
    case Compare(_, _, b) => {b}
    case Present(_) => {}
    case KeyIs(b) => {b}
    case AnyKind(bs) => set b | b in bs
    case Both(l, r) => Placeholders(l) + Placeholders(r)
    case Either(l, r) => Placeholders(l) + Placeholders(r)
    case No(x) => Placeholders(x)
    case Differ(_, _) => {}
    case InNet(_, _, b) => {b}
    case HasKey(_, b) => {b}
    case HasAll(_, b) => {b}
  }

  // ----- masks of networks -----

  function BitAnd(x: nat, y: nat): nat {
    if x == 0 || y == 0 then 0 else 2 * BitAnd(x / 2, y / 2) + (x % 2) * (y % 2)
  }

  function Pow2(k: nat): (p: nat)
    ensures p > 0
  {
    if k == 0 then 1 else 2 * Pow2(k - 1)
  }

  /** The netmask of a prefix length: `prefix` ones, then zeros. */
  function Mask(prefix: nat): nat
    requires prefix <= 32
  {
    Pow2Grows(32 - prefix, 32);
    Pow2(32) - Pow2(32 - prefix)
  }

  function Shift(x: nat, k: nat): nat {
    if k == 0 then x else Shift(x / 2, k - 1)
  }

  /** Bit `k` counted from the least significant one. */
  function Bit(x: nat, k: nat): nat {
    Shift(x, k) % 2
  }

  /** Section 3.1 of RFC 4632: an address is in a network when its first `prefix` bits agree. */
  predicate SamePrefix(x: nat, y: nat, prefix: nat)
    requires prefix <= 32
  {
    forall k :: 32 - prefix <= k < 32 ==> Bit(x, k) == Bit(y, k)
  }

  lemma {:induction false} Pow2Grows(k: nat, n: nat)
    requires k <= n
    ensures Pow2(k) <= Pow2(n)
  {
    if k < n {
      Pow2Grows(k, n - 1);
    }
  }

  lemma {:induction false} AndOnes(x: nat, n: nat)
    requires x < Pow2(n)
    ensures BitAnd(x, Pow2(n) - 1) == x
  {
    if x > 0 {
      assert (Pow2(n) - 1) / 2 == Pow2(n - 1) - 1 && (Pow2(n) - 1) % 2 == 1;
      AndOnes(x / 2, n - 1);
    }
  }

  lemma {:induction false} AndMask(x: nat, n: nat, k: nat)
    requires x < Pow2(n) && k <= n
    ensures Pow2(k) <= Pow2(n) && BitAnd(x, Pow2(n) - Pow2(k)) == Shift(x, k) * Pow2(k)
  {
    Pow2Grows(k, n);
    if k == 0 {
      AndOnes(x, n);
    } else {
      var m := Pow2(n - 1) - Pow2(k - 1);
      AndEven(x, m);
      AndMask(x / 2, n - 1, k - 1);
      Doubling(Shift(x, k), Pow2(k - 1));
    }
  }

  lemma AndEven(x: nat, m: nat)
    ensures BitAnd(x, 2 * m) == 2 * BitAnd(x / 2, m)
  {
    assert (2 * m) / 2 == m && (2 * m) % 2 == 0;
    if x == 0 || m == 0 {
      assert BitAnd(x / 2, m) == 0;
    } else {
      assert (x % 2) * ((2 * m) % 2) == 0;
    }
  }

  lemma Doubling(h: nat, p: nat)
    ensures 2 * (h * p) == h * (2 * p)
  {
  }

  lemma {:induction false} ShiftSmall(x: nat, k: nat)
    ensures x < Pow2(k) ==> Shift(x, k) == 0
  {
    if k > 0 {
      ShiftSmall(x / 2, k - 1);
    }
  }

  lemma {:induction false} ShiftBit(x: nat, k: nat)
    ensures Shift(x, k) == 2 * Shift(x, k + 1) + Bit(x, k)
  {
    if k > 0 {
      ShiftBit(x / 2, k - 1);
    }
  }

  lemma {:induction false} ShiftIsBits(x: nat, y: nat, n: nat, k: nat)
    requires x < Pow2(n) && y < Pow2(n) && k <= n
    ensures Shift(x, k) == Shift(y, k) <==> forall j :: k <= j < n ==> Bit(x, j) == Bit(y, j)
    decreases n - k
  {
    if k == n {
      ShiftSmall(x, n);
      ShiftSmall(y, n);
    } else {
      ShiftIsBits(x, y, n, k + 1);
      ShiftBit(x, k);
      ShiftBit(y, k);
    }
  }

  lemma TimesInjective(a: nat, b: nat, p: nat)
    requires p > 0 && a * p == b * p
    ensures a == b
  {
    assert (a - b) * p == 0;
  }

  /** Masking both addresses and comparing is prefix membership. */
  lemma MaskIsPrefix(x: nat, y: nat, prefix: nat)
    requires prefix <= 32 && x < Pow2(32) && y < Pow2(32)
    ensures BitAnd(x, Mask(prefix)) == BitAnd(y, Mask(prefix)) <==> SamePrefix(x, y, prefix)
  {
    hide BitAnd, Shift, Pow2;
    var k := 32 - prefix;
    AndMask(x, 32, k);
    AndMask(y, 32, k);
    ShiftIsBits(x, y, 32, k);
    if Shift(x, k) * Pow2(k) == Shift(y, k) * Pow2(k) {
      TimesInjective(Shift(x, k), Shift(y, k), Pow2(k));
    }
  }

  /** Masking twice is masking once: the network's own address is masked already. */
  lemma MaskTwice(x: nat, prefix: nat)
    requires prefix <= 32 && x < Pow2(32)
    ensures BitAnd(BitAnd(x, Mask(prefix)), Mask(prefix)) == BitAnd(x, Mask(prefix))
  {
    hide BitAnd, Shift, Pow2;
    var k := 32 - prefix;
    AndMask(x, 32, k);
    ShiftBack(x, k);
    ShiftTimes(Shift(x, k), k);
    AndMask(Shift(x, k) * Pow2(k), 32, k);
  }

  lemma {:induction false} ShiftBack(x: nat, k: nat)
    ensures Shift(x, k) * Pow2(k) <= x
  {
    if k > 0 {
      ShiftBack(x / 2, k - 1);
      var h := Shift(x, k);
      Doubling(h, Pow2(k - 1));
    }
  }

  lemma {:induction false} ShiftTimes(h: nat, k: nat)
    ensures Shift(h * Pow2(k), k) == h
  {
    if k > 0 {
      assert h * Pow2(k) == 2 * (h * Pow2(k - 1));
      ShiftTimes(h, k - 1);
    }
  }
}
