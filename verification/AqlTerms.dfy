/** Compiling a query term to an AQL filter (query_string's `term` and the functions around it in
    resotocore/core/db/arango_query.py, and resotocore/core/db/arangodb_functions.py), what a term
    means on a node, and the proof that the filter selects exactly those nodes. */
module AqlTerms {
  import opened Aql
  import opened Options
  import opened Decimal

  datatype FnArg = One(s: string) | Many(ss: seq<string>)

  datatype Combiner = And | Or

  datatype Term =
    | AllTerm
    | Predicate(path: string, op: Op, value: Value)
    | FunctionTerm(fn: string, path: string, args: seq<FnArg>)
    | IdTerm(id: string)
    | IsTerm(kinds: seq<string>)
    | NotTerm(term: Term)
    | CombinedTerm(left: Term, comb: Combiner, right: Term)

  /** A simple kind stores the value itself; `Since` is trafo.duration_to_datetime, which stores the
      point in time that lies the given duration before now, in reverse order. */
  datatype Kind = Plain | Since

  datatype Prop = Prop(stored: string, kind: Kind)

  /** `network` is what IPv4Network(text, strict=False) reads: an address and a prefix length. */
  datatype Model = Model(
    props: map<string, Prop>, kinds: set<string>, now: real,
    network: string -> Option<(nat, nat)>, fns: Functions)

  function Resolve(model: Model, path: string): Prop {
    if path in model.props then model.props[path] else Prop(path, Plain)
  }

  /** `kind.coerce`; a duration that cannot be read raises. */
  function Coerce(model: Model, kind: Kind, v: Value): Option<Value> {
    match kind
    case Plain => Some(v)
    case Since => if v.Null? then Some(Null) else if v.Num? then Some(Num(model.now - v.n)) else None
  }

  function CoerceAll(model: Model, kind: Kind, vs: seq<Value>): Option<seq<Value>> {
    if vs == [] then Some([])
    else
      var v, rest := Coerce(model, kind, vs[0]), CoerceAll(model, kind, vs[1..]);
      if v.Some? && rest.Some? then Some([v.value] + rest.value) else None
  }

  /** Lists are coerced element by element for `in` and `not in` only. */
  function CoerceFor(model: Model, kind: Kind, op: Op, v: Value): Option<Value> {
    if (op == In || op == NotIn) && v.List? then
      var vs := CoerceAll(model, kind, v.vs);
      if vs.Some? then Some(List(vs.value)) else None
    else Coerce(model, kind, v)
  }

  /** less_greater_then_operations: the operator on the reversed order. */
  function Flip(op: Op): Op {
    match op
    case Lt => Gt
    case Le => Ge
    case Gt => Lt
    case Ge => Le
    case _ => op
  }

  /** arangodb_matches_null_ops: what the database matches on a missing attribute. */
  predicate MatchesNull(op: Op) {
    op == Lt || op == Le || op == NotIn || op == Match
  }

  // ----- compiling -----

  /** counters and bind_vars of the compiler; `error` is set where the source raises. */
  datatype Compiled = Compiled(counters: map<string, nat>, binds: Binds, error: bool)

  function Counter(counters: map<string, nat>, name: string): nat {
    if name in counters then counters[name] else 0
  }

  function Raise(s: Compiled): Compiled {
    s.(error := true)
  }

  /** next_bind_var_name and the assignment that follows it. */
  function Bind(s: Compiled, v: Value): (string, Compiled) {
    var n := Counter(s.counters, "bind_vars");
    var name := "b" + Text(n);
    (name, s.(counters := s.counters["bind_vars" := n + 1], binds := s.binds[name := v]))
  }

  function CompilePredicate(model: Model, path: string, op: Op, v: Value, s: Compiled): (Expr, Compiled) {
    var prop := Resolve(model, path);
    var op' := if prop.kind == Since then Flip(op) else op;
    var v' := CoerceFor(model, prop.kind, op', v);
    if v'.None? then (Always, Raise(s))
    else
      var (name, s') := Bind(s, v'.value);
      var e := Compare(prop.stored, op', name);
      (if MatchesNull(op') then Both(Present(prop.stored), e) else e, s')
  }

  function BindKinds(model: Model, kinds: seq<string>, s: Compiled): (seq<string>, Compiled)
    decreases |kinds|
  {
    if kinds == [] then ([], s)
    else if kinds[0] !in model.kinds then ([], Raise(s))
    else
      var (name, s1) := Bind(s, Str(kinds[0]));
      var (names, s2) := BindKinds(model, kinds[1..], s1);
      ([name] + names, s2)
  }

  function Strings(ss: seq<string>): seq<Value> {
    seq(|ss|, i requires 0 <= i < |ss| => Str(ss[i]))
  }

  /** The variable is named by the number of variables there are. */
  function BindSized(prefix: string, v: Value, s: Compiled): (string, Compiled) {
    var name := prefix + Text(|s.binds|);
    (name, s.(binds := s.binds[name := v]))
  }

  /** A single argument is bound as it was given, so a list of one name is bound as a list. */
  function CompileHasKey(path: string, args: seq<FnArg>, s: Compiled): (Expr, Compiled) {
    if |args| != 1 then (Always, Raise(s))
    else if args[0].One? then
      var (name, s') := BindSized("fn", Str(args[0].s), s); (HasKey(path, name), s')
    else if args[0].ss == [] then (Always, s)
    else
      var (name, s') := BindSized("fn", List(Strings(args[0].ss)), s);
      (if |args[0].ss| == 1 then HasKey(path, name) else HasAll(path, name), s')
  }

  predicate IsNetwork(net: Option<(nat, nat)>) {
    net.Some? && net.value.0 < Pow2(32) && net.value.1 <= 32
  }

  function CompileInSubnet(model: Model, path: string, args: seq<FnArg>, s: Compiled): (Expr, Compiled) {
    if |args| != 1 || args[0].Many? || !IsNetwork(model.network(args[0].s)) then (Always, Raise(s))
    else
      var (address, prefix) := model.network(args[0].s).value;
      var mask := Mask(prefix);
      var expected := BitAnd(BitAnd(address, mask), mask);
      var (name, s') := BindSized("", Number(expected), s);
      (InNet(path, mask, name), s')
  }

  function CompileTerm(model: Model, t: Term, s: Compiled): (Expr, Compiled) {
    match t
    case AllTerm => (Always, s)
    case Predicate(path, op, v) => CompilePredicate(model, path, op, v, s)
    case FunctionTerm(fn, path, args) =>
      if fn == "has_key" then CompileHasKey(path, args, s)
      else if fn == "in_subnet" then CompileInSubnet(model, path, args, s)
      else if fn == "has_desired_change" then
        (Both(Present("desired." + path), Differ("reported." + path, "desired." + path)), s)
      else (Always, Raise(s))
    case IdTerm(id) => var (name, s') := Bind(s, Str(id)); (KeyIs(name), s')
    case IsTerm(kinds) => var (names, s') := BindKinds(model, kinds, s); (AnyKind(names), s')
    case NotTerm(x) => var (e, s') := CompileTerm(model, x, s); (No(e), s')
    case CombinedTerm(l, comb, r) =>
      var (le, s1) := CompileTerm(model, l, s);
      var (re, s2) := CompileTerm(model, r, s1);
      (if comb == And then Both(le, re) else Either(le, re), s2)
  }

  // ----- fresh names: three naming schemes share one map -----

  predicate CountedName(s: Compiled, k: string, n: nat) {
    || (k == "b" + Text(n) && n < Counter(s.counters, "bind_vars"))
    || (k == "fn" + Text(n) && n < |s.binds|)
    || (k == Text(n) && n < |s.binds|)
  }

  ghost predicate Named(s: Compiled) {
    forall k :: k in s.binds ==> exists n: nat :: CountedName(s, k, n)
  }

  /** Nothing bound in `a` is lost or changed in `b`. */
  ghost predicate Extends(a: Binds, b: Binds) {
    forall k :: k in a ==> k in b && b[k] == a[k]
  }

  lemma NamesDiffer(m: nat, n: nat)
    ensures "b" + Text(m) != "fn" + Text(n)
    ensures "b" + Text(m) != Text(n)
    ensures "fn" + Text(m) != Text(n)
  {
    assert ("b" + Text(m))[0] == 'b' && ("fn" + Text(m))[0] == 'f' && ("fn" + Text(n))[0] == 'f';
    assert IsDigit(Text(n)[0]);
  }

  lemma SameNumber(prefix: string, m: nat, n: nat)
    requires EndsPlain(prefix) && prefix + Text(m) == prefix + Text(n)
    ensures m == n
  {
    NumberedInjective(prefix, m, prefix, n);
  }

  /** next_bind_var_name never returns a name that is bound. */
  lemma BindFresh(s: Compiled, v: Value)
    requires Named(s)
    ensures var (name, s') := Bind(s, v);
            && name !in s.binds && name in s'.binds && s'.binds[name] == v
            && Named(s') && Extends(s.binds, s'.binds) && |s'.binds| == |s.binds| + 1
  {
    var (name, s') := Bind(s, v);
    var c := Counter(s.counters, "bind_vars");
    if name in s.binds {
      var n: nat :| CountedName(s, name, n);
      NamesDiffer(c, n);
      if name == "b" + Text(n) {
        SameNumber("b", c, n);
      }
    }
    assert CountedName(s', name, c);
    forall k | k in s.binds
      ensures exists n: nat :: CountedName(s', k, n)
    {
      var n: nat :| CountedName(s, k, n);
      assert CountedName(s', k, n);
    }
  }

  /** Nor does the scheme that counts the bound variables, with either prefix. */
  lemma BindSizedFresh(prefix: string, v: Value, s: Compiled)
    requires Named(s) && (prefix == "fn" || prefix == "")
    ensures var (name, s') := BindSized(prefix, v, s);
            && name !in s.binds && name in s'.binds && s'.binds[name] == v
            && Named(s') && Extends(s.binds, s'.binds) && |s'.binds| == |s.binds| + 1
  {
    var (name, s') := BindSized(prefix, v, s);
    var c := |s.binds|;
    assert "" + Text(c) == Text(c);
    if name in s.binds {
      var n: nat :| CountedName(s, name, n);
      NamesDiffer(n, c);
      NamesDiffer(c, n);
      if name == "fn" + Text(n) && prefix == "fn" {
        SameNumber("fn", c, n);
      } else if name == Text(n) && prefix == "" {
        TextInjective(c, n);
      }
    }
    assert CountedName(s', name, c);
    forall k | k in s.binds
      ensures exists n: nat :: CountedName(s', k, n)
    {
      var n: nat :| CountedName(s, k, n);
      assert CountedName(s', k, n);
    }
  }

  /** What every piece of the compiler does to its state: nothing bound is overwritten, an error stays. */
  ghost predicate Grows(s: Compiled, s': Compiled) {
    && Named(s') && Extends(s.binds, s'.binds) && |s.binds| <= |s'.binds|
    && (s.error ==> s'.error)
    && (forall x :: x != "bind_vars" ==> Counter(s'.counters, x) == Counter(s.counters, x))
    && Counter(s.counters, "bind_vars") <= Counter(s'.counters, "bind_vars")
  }

  lemma ExtendsTrans(a: Binds, b: Binds, c: Binds)
    requires Extends(a, b) && Extends(b, c)
    ensures Extends(a, c)
  {
  }

  lemma GrowsTrans(a: Compiled, b: Compiled, c: Compiled)
    requires Grows(a, b) && Grows(b, c)
    ensures Grows(a, c)
  {
    hide Named;
    ExtendsTrans(a.binds, b.binds, c.binds);
  }

  lemma RaiseGrows(s: Compiled)
    requires Named(s)
    ensures Grows(s, Raise(s))
  {
    forall k | k in s.binds
      ensures exists n: nat :: CountedName(Raise(s), k, n)
    {
      var n: nat :| CountedName(s, k, n);
      assert CountedName(Raise(s), k, n);
    }
  }

  lemma {:induction false} BindKindsGrows(model: Model, kinds: seq<string>, s: Compiled)
    requires Named(s)
    ensures var (names, s') := BindKinds(model, kinds, s);
            Grows(s, s') && forall i :: 0 <= i < |names| ==> names[i] in s'.binds
    decreases |kinds|
  {
    if kinds != [] {
      if kinds[0] !in model.kinds {
        RaiseGrows(s);
      } else {
        hide Named;
        BindFresh(s, Str(kinds[0]));
        var (name, s1) := Bind(s, Str(kinds[0]));
        BindKindsGrows(model, kinds[1..], s1);
        GrowsTrans(s, s1, BindKinds(model, kinds[1..], s1).1);
      }
    }
  }

  lemma PredicateBinds(model: Model, path: string, op: Op, v: Value, s: Compiled)
    requires Named(s)
    ensures var (e, s') := CompilePredicate(model, path, op, v, s);
            Grows(s, s') && Placeholders(e) <= s'.binds.Keys
  {
    hide Named, CoerceFor;
    var prop := Resolve(model, path);
    var op' := if prop.kind == Since then Flip(op) else op;
    var v' := CoerceFor(model, prop.kind, op', v);
    if v'.None? {
      RaiseGrows(s);
    } else {
      BindFresh(s, v'.value);
    }
  }

  lemma HasKeyBinds(path: string, args: seq<FnArg>, s: Compiled)
    requires Named(s)
    ensures var (e, s') := CompileHasKey(path, args, s);
            Grows(s, s') && Placeholders(e) <= s'.binds.Keys
  {
    hide Named;
    RaiseGrows(s);
    if |args| == 1 {
      BindSizedFresh("fn", if args[0].One? then Str(args[0].s) else List(Strings(args[0].ss)), s);
    }
  }

  lemma InSubnetBinds(model: Model, path: string, args: seq<FnArg>, s: Compiled)
    requires Named(s)
    ensures var (e, s') := CompileInSubnet(model, path, args, s);
            Grows(s, s') && Placeholders(e) <= s'.binds.Keys
  {
    hide Named, BitAnd, Mask, Pow2;
    RaiseGrows(s);
    if |args| == 1 && args[0].One? && IsNetwork(model.network(args[0].s)) {
      var (address, prefix) := model.network(args[0].s).value;
      BindSizedFresh("", Number(BitAnd(BitAnd(address, Mask(prefix)), Mask(prefix))), s);
    }
  }

  lemma BindGrows(s: Compiled, v: Value)
    requires Named(s)
    ensures Grows(s, Bind(s, v).1) && Bind(s, v).0 in Bind(s, v).1.binds
  {
    hide Named;
    BindFresh(s, v);
  }

  lemma GrowsKeys(s: Compiled, s': Compiled)
    requires Grows(s, s')
    ensures Named(s') && s.binds.Keys <= s'.binds.Keys
  {
    hide Named;
  }

  lemma SameGrows(s: Compiled)
    requires Named(s)
    ensures Grows(s, s)
  {
  }

  lemma FunctionBinds(model: Model, fn: string, path: string, args: seq<FnArg>, s: Compiled)
    requires Named(s)
    ensures var (e, s') := CompileTerm(model, FunctionTerm(fn, path, args), s);
            Grows(s, s') && Placeholders(e) <= s'.binds.Keys
  {
    hide Named, CompileHasKey, CompileInSubnet, Grows;
    SameGrows(s);
    RaiseGrows(s);
    HasKeyBinds(path, args, s);
    InSubnetBinds(model, path, args, s);
  }

  /** Compiling a term binds every placeholder it emits and overwrites no variable bound before. */
  lemma {:induction false} TermBinds(model: Model, t: Term, s: Compiled)
    requires Named(s)
    ensures var (e, s') := CompileTerm(model, t, s);
            Grows(s, s') && Placeholders(e) <= s'.binds.Keys
    decreases t
  {
    hide Named, CompilePredicate, CompileHasKey, CompileInSubnet, Grows, Bind, BindKinds;
    SameGrows(s);
    match t
    case AllTerm =>
    case Predicate(path, op, v) => PredicateBinds(model, path, op, v, s);
    case FunctionTerm(fn, path, args) => FunctionBinds(model, fn, path, args, s);
    case IdTerm(id) => BindGrows(s, Str(id));
    case IsTerm(kinds) => BindKindsGrows(model, kinds, s);
    case NotTerm(x) => TermBinds(model, x, s);
    case CombinedTerm(l, comb, r) =>
      var (le, s1) := CompileTerm(model, l, s);
      var (re, s2) := CompileTerm(model, r, s1);
      TermBinds(model, l, s);
      GrowsKeys(s, s1);
      TermBinds(model, r, s1);
      GrowsTrans(s, s1, s2);
      GrowsKeys(s1, s2);
  }

  // ----- when compiling raises -----

  /** A value that is no duration, where the kind stores durations. */
  predicate Unreadable(v: Value) {
    !v.Null? && !v.Num?
  }

  /** A kind the model does not have, a value the kind cannot read, or a function with wrong arguments. */
  predicate Raises(model: Model, t: Term) {
    match t
    case AllTerm => false
    case Predicate(path, op, v) =>
      path in model.props && model.props[path].kind == Since
      && if v.List? && (op == In || op == NotIn) then exists x :: x in v.vs && Unreadable(x) else Unreadable(v)
    case FunctionTerm(fn, _, args) =>
      if fn == "has_key" then |args| != 1
      else if fn == "in_subnet" then |args| != 1 || args[0].Many? || !IsNetwork(model.network(args[0].s))
      else fn != "has_desired_change"
    case IdTerm(_) => false
    case IsTerm(kinds) => exists k :: k in kinds && k !in model.kinds
    case NotTerm(x) => Raises(model, x)
    case CombinedTerm(l, _, r) => Raises(model, l) || Raises(model, r)
  }

  lemma {:induction false} CoerceAllRaises(model: Model, vs: seq<Value>)
    ensures CoerceAll(model, Plain, vs).Some?
    ensures CoerceAll(model, Since, vs).None? <==> exists x :: x in vs && Unreadable(x)
  {
    if vs != [] {
      CoerceAllRaises(model, vs[1..]);
      assert vs == [vs[0]] + vs[1..];
      if Unreadable(vs[0]) {
        assert vs[0] in vs;
      } else if x :| x in vs[1..] && Unreadable(x) {
        assert x in vs;
      }
    }
  }

  lemma {:induction false} BindKindsRaises(model: Model, kinds: seq<string>, s: Compiled)
    ensures BindKinds(model, kinds, s).1.error <==> s.error || exists k :: k in kinds && k !in model.kinds
    decreases |kinds|
  {
    if kinds != [] {
      assert kinds == [kinds[0]] + kinds[1..];
      if kinds[0] in model.kinds {
        BindKindsRaises(model, kinds[1..], Bind(s, Str(kinds[0])).1);
      }
    }
  }

  lemma PredicateRaises(model: Model, path: string, op: Op, v: Value, s: Compiled)
    ensures CompilePredicate(model, path, op, v, s).1.error <==> s.error || Raises(model, Predicate(path, op, v))
  {
    if v.List? {
      CoerceAllRaises(model, v.vs);
    }
  }

  /** A term is refused exactly when it names a kind that does not exist, compares with a value that its kind
      cannot read, or calls a function that does not exist or with wrong arguments. */
  lemma {:induction false} TermRaises(model: Model, t: Term, s: Compiled)
    ensures CompileTerm(model, t, s).1.error <==> s.error || Raises(model, t)
    decreases t
  {
    hide CompilePredicate;
    match t
    case AllTerm =>
    case Predicate(path, op, v) => PredicateRaises(model, path, op, v, s);
    case FunctionTerm(fn, path, args) => hide Mask, BitAnd;
    case IdTerm(_) =>
    case IsTerm(kinds) => BindKindsRaises(model, kinds, s);
    case NotTerm(x) => TermRaises(model, x, s);
    case CombinedTerm(l, _, r) =>
      TermRaises(model, l, s);
      TermRaises(model, r, CompileTerm(model, l, s).1);
  }

  // ----- what a term means -----

  /** The value the user sees for a property: for `Since` the duration back from now. */
  function Logical(model: Model, node: Node, path: string): Value {
    var prop := Resolve(model, path);
    var x := At(node, prop.stored);
    if prop.kind == Since && x.Num? then Num(model.now - x.n) else x
  }

  predicate Ordering(op: Op) {
    op == Lt || op == Le || op == Gt || op == Ge
  }

  /** A missing property satisfies no ordering comparison, no `not in` and no regular expression. */
  predicate PredicateMeans(model: Model, path: string, op: Op, v: Value, node: Node) {
    var x := Logical(model, node, path);
    (Ordering(op) || op == NotIn || op == Match ==> x != Null) && Holds(model.fns, x, op, v)
  }

  function Names(arg: FnArg): set<string> {
    if arg.One? then {arg.s} else set n | n in arg.ss
  }

  predicate Means(model: Model, t: Term, node: Node) {
    match t
    case AllTerm => true
    case Predicate(path, op, v) => PredicateMeans(model, path, op, v, node)
    case FunctionTerm(fn, path, args) =>
      if fn == "has_key" then |args| == 1 && Names(args[0]) <= Attributes(node, path)
      else if fn == "in_subnet" then
        && |args| == 1 && args[0].One? && IsNetwork(model.network(args[0].s))
        && model.fns.ip(At(node, path)).Some?
        && SamePrefix(model.fns.ip(At(node, path)).value, model.network(args[0].s).value.0,
                      model.network(args[0].s).value.1)
      else
        At(node, "desired." + path) != Null && At(node, "reported." + path) != At(node, "desired." + path)
    case IdTerm(id) => node.key == id
    case IsTerm(kinds) => exists k :: k in kinds && k in node.kinds
    case NotTerm(x) => !Means(model, x, node)
    case CombinedTerm(l, comb, r) =>
      if comb == And then Means(model, l, node) && Means(model, r, node)
      else Means(model, l, node) || Means(model, r, node)
  }

  /** Points in time are numbers, and IPV4_TO_NUMBER yields 32 bits. */
  ghost predicate WellTyped(model: Model, node: Node) {
    && (forall path :: Resolve(model, path).kind == Since ==>
          At(node, Resolve(model, path).stored).Null? || At(node, Resolve(model, path).stored).Num?)
    && (forall x :: model.fns.ip(x).Some? ==> model.fns.ip(x).value < Pow2(32))
  }

  /** Ordering against null: `>=` on a simple kind, and every ordering on a reversed kind, does not
      mean what it says. */
  predicate SafePredicate(model: Model, path: string, op: Op, v: Value) {
    if Resolve(model, path).kind == Since then (Ordering(op) ==> v != Null) && op != Match && op != NotMatch
    else op == Ge ==> v != Null
  }

  predicate System(name: string) {
    name != "" && name[0] == '_'
  }

  /** The database takes a list of one name for the name. */
  ghost predicate ListIsName(fns: Functions, name: string) {
    forall names: set<string> :: fns.hasOther(names, List([Str(name)])) <==> name in names
  }

  /** A single name given as a list reaches HAS as a list; several names are looked up without the system
      attributes. */
  ghost predicate SafeKeys(fns: Functions, arg: FnArg) {
    arg.One? || arg.ss == []
    || (if |arg.ss| == 1 then ListIsName(fns, arg.ss[0]) else forall n :: n in arg.ss ==> !System(n))
  }

  ghost predicate Safe(model: Model, t: Term) {
    match t
    case AllTerm => true
    case Predicate(path, op, v) => SafePredicate(model, path, op, v)
    case FunctionTerm(fn, _, args) => fn == "has_key" && |args| == 1 ==> SafeKeys(model.fns, args[0])
    case IdTerm(_) => true
    case IsTerm(kinds) => kinds != []
    case NotTerm(x) => Safe(model, x)
    case CombinedTerm(l, _, r) => Safe(model, l) && Safe(model, r)
  }

  // ----- the filter selects what the term means -----

  lemma {:induction false} CoerceAllIs(model: Model, vs: seq<Value>, x: Value)
    requires CoerceAll(model, Since, vs).Some? && (x.Null? || x.Num?)
    ensures x in CoerceAll(model, Since, vs).value <==> (if x.Num? then Num(model.now - x.n) else x) in vs
  {
    if vs != [] {
      CoerceAllIs(model, vs[1..], x);
      var rest := CoerceAll(model, Since, vs[1..]).value;
      assert CoerceAll(model, Since, vs).value == [Coerce(model, Since, vs[0]).value] + rest;
      assert vs == [vs[0]] + vs[1..];
    }
  }

  lemma {:induction false} CoerceAllPlain(model: Model, vs: seq<Value>)
    ensures CoerceAll(model, Plain, vs) == Some(vs)
  {
    if vs != [] {
      CoerceAllPlain(model, vs[1..]);
      assert vs == [vs[0]] + vs[1..];
    }
  }

  /** On a reversed kind the flipped operator on stored values is the operator on what the user sees. */
  lemma FlipIsReverse(model: Model, path: string, op: Op, v: Value, node: Node)
    requires WellTyped(model, node) && Resolve(model, path).kind == Since && SafePredicate(model, path, op, v)
    requires CoerceFor(model, Since, Flip(op), v).Some?
    ensures var x, v' := At(node, Resolve(model, path).stored), CoerceFor(model, Since, Flip(op), v).value;
            PredicateMeans(model, path, op, v, node)
            <==> (MatchesNull(Flip(op)) ==> x != Null) && Holds(model.fns, x, Flip(op), v')
  {
    var x := At(node, Resolve(model, path).stored);
    if (op == In || op == NotIn) && v.List? {
      CoerceAllIs(model, v.vs, x);
    }
  }

  lemma PredicateSelects(model: Model, path: string, op: Op, v: Value, s: Compiled, final: Binds, node: Node)
    requires Named(s) && WellTyped(model, node) && SafePredicate(model, path, op, v)
    requires var (e, s') := CompilePredicate(model, path, op, v, s); !s'.error && Extends(s'.binds, final)
    ensures var (e, s') := CompilePredicate(model, path, op, v, s);
            Eval(model.fns, final, node, e) <==> PredicateMeans(model, path, op, v, node)
  {
    hide Named, WellTyped, Less;
    var prop := Resolve(model, path);
    var op' := if prop.kind == Since then Flip(op) else op;
    var v' := CoerceFor(model, prop.kind, op', v);
    BindFresh(s, v'.value);
    if prop.kind == Since {
      FlipIsReverse(model, path, op, v, node);
    } else {
      if v.List? {
        CoerceAllPlain(model, v.vs);
      }
      PlainNull(model, path, op, v, node);
    }
  }

  lemma PlainNull(model: Model, path: string, op: Op, v: Value, node: Node)
    requires Resolve(model, path).kind == Plain && SafePredicate(model, path, op, v)
    ensures var x := At(node, Resolve(model, path).stored);
            PredicateMeans(model, path, op, v, node)
            <==> (MatchesNull(op) ==> x != Null) && Holds(model.fns, x, op, v)
  {
  }

  predicate HasKind(kinds: seq<string>, node: Node) {
    exists k :: k in kinds && k in node.kinds
  }

  lemma HasKindHead(kinds: seq<string>, node: Node)
    requires kinds != []
    ensures HasKind(kinds, node) <==> kinds[0] in node.kinds || HasKind(kinds[1..], node)
  {
    assert kinds == [kinds[0]] + kinds[1..];
    if HasKind(kinds[1..], node) {
      var k :| k in kinds[1..] && k in node.kinds;
      assert k in kinds;
    }
  }

  lemma {:induction false} KindsSelect(model: Model, kinds: seq<string>, s: Compiled, final: Binds, node: Node)
    requires Named(s)
    requires var (names, s') := BindKinds(model, kinds, s); !s'.error && Extends(s'.binds, final)
    ensures var (names, s') := BindKinds(model, kinds, s);
            Eval(model.fns, final, node, AnyKind(names)) <==> HasKind(kinds, node)
    decreases |kinds|
  {
    if kinds != [] {
      hide Named, BindKinds, Grows, Eval, HasKind;
      BindFresh(s, Str(kinds[0]));
      var (name, s1) := Bind(s, Str(kinds[0]));
      var (names, s2) := BindKinds(model, kinds[1..], s1);
      hide Bind;
      BindKindsHead(model, kinds, s);
      BindKindsGrows(model, kinds[1..], s1);
      GrowsBound(s1, s2, name, final);
      KindsSelect(model, kinds[1..], s1, final, node);
      AnyKindHead(model.fns, final, node, name, names);
      HasKindHead(kinds, node);
    }
  }

  lemma GrowsBound(s: Compiled, s': Compiled, name: string, final: Binds)
    requires Grows(s, s') && Extends(s'.binds, final) && name in s.binds
    ensures Bound(final, name) == s.binds[name]
  {
    hide Named;
  }

  lemma BindKindsHead(model: Model, kinds: seq<string>, s: Compiled)
    requires kinds != [] && !BindKinds(model, kinds, s).1.error
    ensures var (name, s1) := Bind(s, Str(kinds[0]));
            var (names, s2) := BindKinds(model, kinds[1..], s1);
            BindKinds(model, kinds, s) == ([name] + names, s2)
  {
  }

  lemma AnyKindHead(fns: Functions, final: Binds, node: Node, name: string, names: seq<string>)
    ensures Eval(fns, final, node, AnyKind([name] + names))
       <==> KindBound(final, node, name) || Eval(fns, final, node, AnyKind(names))
  {
    var all := [name] + names;
    if i :| 0 <= i < |names| && KindBound(final, node, names[i]) {
      assert KindBound(final, node, all[i + 1]);
    }
    if KindBound(final, node, name) {
      assert KindBound(final, node, all[0]);
    }
  }

  lemma HasKeySelects(model: Model, path: string, args: seq<FnArg>, s: Compiled, final: Binds, node: Node)
    requires Named(s) && (|args| == 1 ==> SafeKeys(model.fns, args[0]))
    requires var (e, s') := CompileHasKey(path, args, s); !s'.error && Extends(s'.binds, final)
    ensures var (e, s') := CompileHasKey(path, args, s);
            Eval(model.fns, final, node, e) <==> Means(model, FunctionTerm("has_key", path, args), node)
  {
    hide Named, SafeKeys, BindSized, Extends, Eval;
    var arg := args[0];
    KeysBound(arg, s, final);
    if arg == Many([]) {
      AlwaysHolds(model.fns, final, node);
    } else {
      KeysSelect(model.fns, path, arg, BindSized("fn", ArgValue(arg), s).0, final, node);
    }
  }

  lemma AlwaysHolds(fns: Functions, final: Binds, node: Node)
    ensures Eval(fns, final, node, Always)
  {
  }

  function ArgValue(arg: FnArg): Value {
    if arg.One? then Str(arg.s) else List(Strings(arg.ss))
  }

  lemma KeysBound(arg: FnArg, s: Compiled, final: Binds)
    requires Named(s)
    ensures var (name, s') := BindSized("fn", ArgValue(arg), s);
            Extends(s'.binds, final) ==> Bound(final, name) == ArgValue(arg)
  {
    hide Named;
    BindSizedFresh("fn", ArgValue(arg), s);
  }

  lemma KeysSelect(fns: Functions, path: string, arg: FnArg, name: string, final: Binds, node: Node)
    requires SafeKeys(fns, arg) && arg != Many([])
    ensures var e := if arg.One? || |arg.ss| == 1 then HasKey(path, name) else HasAll(path, name);
            Bound(final, name) == ArgValue(arg)
            ==> (Eval(fns, final, node, e) <==> Names(arg) <= Attributes(node, path))
  {
    hide System;
    if Bound(final, name) == ArgValue(arg) && arg.Many? {
      if |arg.ss| == 1 {
        assert Strings(arg.ss) == [Str(arg.ss[0])];
        ListSelects(fns, path, arg.ss[0], name, final, node);
      } else {
        NamesSelect(fns, path, arg.ss, name, final, node);
      }
    }
  }

  lemma ListSelects(fns: Functions, path: string, n: string, name: string, final: Binds, node: Node)
    requires ListIsName(fns, n) && Bound(final, name) == List([Str(n)])
    ensures Eval(fns, final, node, HasKey(path, name)) <==> n in Attributes(node, path)
  {
  }

  lemma NamesSelect(fns: Functions, path: string, ss: seq<string>, name: string, final: Binds, node: Node)
    requires (forall n :: n in ss ==> !System(n)) && Bound(final, name) == List(Strings(ss))
    ensures Eval(fns, final, node, HasAll(path, name)) <==> forall n :: n in ss ==> n in Attributes(node, path)
  {
    hide System;
    assert forall i :: 0 <= i < |ss| ==> Strings(ss)[i] == Str(ss[i]);
    VisibleIs(Attributes(node, path));
  }

  lemma VisibleIs(names: set<string>)
    ensures forall n :: n in Visible(names) <==> n in names && !System(n)
  {
  }

  lemma InSubnetSelects(model: Model, path: string, args: seq<FnArg>, s: Compiled, final: Binds, node: Node)
    requires Named(s) && WellTyped(model, node)
    requires var (e, s') := CompileInSubnet(model, path, args, s); !s'.error && Extends(s'.binds, final)
    ensures var (e, s') := CompileInSubnet(model, path, args, s);
            Eval(model.fns, final, node, e) <==> Means(model, FunctionTerm("in_subnet", path, args), node)
  {
    hide Named, BitAnd, Mask, Pow2, SamePrefix;
    var (address, prefix) := model.network(args[0].s).value;
    BindSizedFresh("", Number(BitAnd(BitAnd(address, Mask(prefix)), Mask(prefix))), s);
    MaskTwice(address, prefix);
    var ip := model.fns.ip(At(node, path));
    if ip.Some? {
      MaskIsPrefix(ip.value, address, prefix);
    }
  }

  /** For every term tree and every node: the compiled filter, run with the bind variables of the whole
      query, selects the node exactly when the term means it. */
  lemma {:induction false} FilterSelects(model: Model, t: Term, s: Compiled, final: Binds, node: Node)
    requires Named(s) && WellTyped(model, node) && Safe(model, t)
    requires !CompileTerm(model, t, s).1.error && Extends(CompileTerm(model, t, s).1.binds, final)
    ensures Eval(model.fns, final, node, CompileTerm(model, t, s).0) <==> Means(model, t, node)
    decreases t
  {
    hide Named, WellTyped, CompilePredicate, CompileHasKey, CompileInSubnet, PredicateMeans, SafePredicate;
    match t
    case AllTerm =>
    case Predicate(path, op, v) => PredicateSelects(model, path, op, v, s, final, node);
    case FunctionTerm(fn, path, args) =>
      if fn == "has_key" {
        HasKeySelects(model, path, args, s, final, node);
      } else if fn == "in_subnet" {
        InSubnetSelects(model, path, args, s, final, node);
      }
    case IdTerm(id) => BindFresh(s, Str(id));
    case IsTerm(kinds) => KindsSelect(model, kinds, s, final, node);
    case NotTerm(x) => FilterSelects(model, x, s, final, node);
    case CombinedTerm(l, comb, r) =>
      var (le, s1) := CompileTerm(model, l, s);
      var (re, s2) := CompileTerm(model, r, s1);
      TermBinds(model, l, s);
      TermBinds(model, r, s1);
      ExtendsTrans(s1.binds, s2.binds, final);
      FilterSelects(model, l, s, final, node);
      FilterSelects(model, r, s1, final, node);
  }

  // ----- exactly when -----

  /** The compiled predicate and the predicate agree on the node. */
  predicate Agrees(model: Model, path: string, op: Op, v: Value, s: Compiled, node: Node) {
    var (e, s') := CompilePredicate(model, path, op, v, s);
    Eval(model.fns, s'.binds, node, e) <==> PredicateMeans(model, path, op, v, node)
  }

  /** An ordering comparison means what it says on every node if and only if it does not compare with
      null: never on a reversed kind, and not with `>=` on a simple one. */
  lemma OrderingExact(model: Model, path: string, op: Op, v: Value, s: Compiled)
    requires Named(s) && Ordering(op) && !CompilePredicate(model, path, op, v, s).1.error
    requires forall x :: model.fns.ip(x).Some? ==> model.fns.ip(x).value < Pow2(32)
    ensures (forall node :: WellTyped(model, node) ==> Agrees(model, path, op, v, s, node))
       <==> SafePredicate(model, path, op, v)
  {
    if SafePredicate(model, path, op, v) {
      hide WellTyped, SafePredicate, Named;
      forall node | WellTyped(model, node)
        ensures Agrees(model, path, op, v, s, node)
      {
        PredicateSelects(model, path, op, v, s, CompilePredicate(model, path, op, v, s).1.binds, node);
      }
    } else {
      var stored := Resolve(model, path).stored;
      var node := Node("", [], if Resolve(model, path).kind == Since then map[stored := Num(0.0)] else map[], map[]);
      assert WellTyped(model, node);
      DisagreesAtNull(model, path, op, s, node);
    }
  }

  lemma DisagreesAtNull(model: Model, path: string, op: Op, s: Compiled, node: Node)
    requires Ordering(op) && !SafePredicate(model, path, op, Null)
    requires At(node, Resolve(model, path).stored)
          == if Resolve(model, path).kind == Since then Num(0.0) else Null
    ensures !Agrees(model, path, op, Null, s, node)
  {
    var prop := Resolve(model, path);
    var op' := if prop.kind == Since then Flip(op) else op;
    assert CoerceFor(model, prop.kind, op', Null) == Some(Null);
    var (name, s') := Bind(s, Null);
    assert Bound(s'.binds, name) == Null;
    var x, c := At(node, prop.stored), Compare(prop.stored, op', name);
    assert Eval(model.fns, s'.binds, node, c) <==> Holds(model.fns, x, op', Null);
    assert Eval(model.fns, s'.binds, node, Both(Present(prop.stored), c))
      <==> x != Null && Eval(model.fns, s'.binds, node, c);
    assert Less(Null, Num(0.0)) && !Less(Num(0.0), Null) && !Less(Null, Null);
    if prop.kind == Since {
      var seen := Logical(model, node, path);
      assert Less(Null, seen) && !Less(seen, Null);
    }
  }

  predicate KeysAgree(model: Model, path: string, names: seq<string>, s: Compiled, node: Node) {
    var (e, s') := CompileHasKey(path, [Many(names)], s);
    Eval(model.fns, s'.binds, node, e) <==> Means(model, FunctionTerm("has_key", path, [Many(names)]), node)
  }

  lemma KeysDiffer(model: Model, path: string, names: seq<string>, s: Compiled, node: Node)
    requires Named(s) && |names| == 1 && !s.error
    requires model.fns.hasOther(Attributes(node, path), List([Str(names[0])])) != (names[0] in Attributes(node, path))
    ensures !KeysAgree(model, path, names, s, node)
  {
    hide Named;
    BindSizedFresh("fn", List(Strings(names)), s);
    assert Strings(names) == [Str(names[0])];
  }

  lemma SystemDiffers(model: Model, path: string, names: seq<string>, s: Compiled, n: string)
    requires Named(s) && |names| > 1 && n in names && System(n)
    ensures !KeysAgree(model, path, names, s, Node("", [], map[], map[path := set x | x in names]))
  {
    hide Named;
    var node := Node("", [], map[], map[path := set x | x in names]);
    BindSizedFresh("fn", List(Strings(names)), s);
    var i :| 0 <= i < |names| && names[i] == n;
    assert Strings(names)[i] == Str(n);
    VisibleIs(Attributes(node, path));
  }

  /** has_key with a list of names means that all are there if and only if it has several names and none is a
      system attribute, or one name and the database takes the list for the name. */
  lemma HasKeyExact(model: Model, path: string, names: seq<string>, s: Compiled)
    requires Named(s) && !s.error
    ensures (forall node :: KeysAgree(model, path, names, s, node)) <==> SafeKeys(model.fns, Many(names))
  {
    hide Named, KeysAgree;
    if SafeKeys(model.fns, Many(names)) {
      forall node
        ensures KeysAgree(model, path, names, s, node)
      {
        AgreesWhenSafe(model, path, names, s, node);
      }
    } else if |names| == 1 {
      var attributes: set<string> :|
        model.fns.hasOther(attributes, List([Str(names[0])])) != (names[0] in attributes);
      KeysDiffer(model, path, names, s, Node("", [], map[], map[path := attributes]));
    } else {
      var n :| n in names && System(n);
      SystemDiffers(model, path, names, s, n);
    }
  }

  lemma AgreesWhenSafe(model: Model, path: string, names: seq<string>, s: Compiled, node: Node)
    requires Named(s) && !s.error && SafeKeys(model.fns, Many(names))
    ensures KeysAgree(model, path, names, s, node)
  {
    hide Named;
    HasKeySelects(model, path, [Many(names)], s, CompileHasKey(path, [Many(names)], s).1.binds, node);
  }

  // ----- sorting -----

  datatype Order = Asc | Desc

  function Reverse(o: Order): Order {
    if o == Desc then Asc else Desc
  }

  predicate Before(o: Order, x: Value, y: Value) {
    if o == Asc then Less(x, y) else Less(y, x)
  }

  /** `single_sort`: the stored attribute, in the other order for a reversed kind. */
  function CompileSort(model: Model, path: string, o: Order): (string, Order) {
    var prop := Resolve(model, path);
    (prop.stored, if prop.kind == Since then Reverse(o) else o)
  }

  /** Sorting by the compiled key orders two nodes as the user sees them if and only if the kind keeps
      its order or the property is missing on both of them or on neither. */
  lemma SortExact(model: Model, path: string, o: Order, a: Node, b: Node)
    requires WellTyped(model, a) && WellTyped(model, b)
    ensures var (stored, o') := CompileSort(model, path, o);
            (Before(o', At(a, stored), At(b, stored))
             <==> Before(o, Logical(model, a, path), Logical(model, b, path)))
            <==> (Resolve(model, path).kind == Plain
                  || (Logical(model, a, path) == Null <==> Logical(model, b, path) == Null))
  {
  }
}
