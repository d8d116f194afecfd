/** Compiling a whole query (query_string in resotocore/core/db/arango_query.py) to the statements it emits
    with the variables they declare and use; what it means that these are in scope; and the freshness of
    every name that is handed out. That the statements of whole queries fit together is proved in AqlPieces
    and AqlMerges and stated in AqlWellFormed. */
module AqlQueries {
  import opened Aql
  import opened AqlTerms
  import opened Options
  import opened Decimal

  datatype Direction = Inbound | Outbound | Both_

  datatype Navigation = Navigation(start: nat, until: nat, direction: Direction, edgeType: string)

  datatype WithClause = WithClause(nav: Navigation, term: Option<Term>, inner: Option<WithClause>)

  datatype PartTerm = Simple(term: Term) | Merge(pre: Term, merges: seq<Query>, post: Option<Term>)

  datatype Part = Part(
    term: PartTerm, tagged: bool, withClause: Option<WithClause>, sort: seq<string>, limit: Option<nat>,
    nav: Option<Navigation>)

  /** The parts in reverse order, as the source keeps them; `ancestors` is merge_with_ancestors. */
  datatype Query = Query(parts: seq<Part>, aggregate: bool, ancestors: seq<string>)

  /** How a loop gets from its source to its values: the elements, or a traversal of the graph. */
  datatype Steps = Each | Hops(start: nat, until: nat, direction: Direction, edgeType: string)

  datatype Stmt =
    | Let(x: string, body: seq<Stmt>)       // LET x = ( body )
    | LetOf(x: string, uses: seq<string>)   // LET x = an expression over variables
    | LetRef(x: string, node: string, kind: string)   // LET x = DOCUMENT(collection, node.refs.kind_id)
    | For(x: string, source: string, how: Steps)   // FOR x IN source, or FOR x IN 0..1 OUTBOUND source
    // FILTER e, compiled from term; with a root, FILTER (root._key == on._key) or e
    | Filter(on: string, root: Option<string>, e: Expr, term: Term)
    // PRUNE and FILTER by the kinds of `on`, with placeholders for these values
    | Kinds(on: string, names: seq<string>, values: seq<Value>)
    | Use(uses: seq<string>)                // SORT, UNION, RETURN

  // ----- scoping -----

  function Declares(st: Stmt): set<string> {
    if st.Let? || st.LetOf? || st.LetRef? || st.For? then {st.x} else {}
  }

  function Declared(body: seq<Stmt>): set<string> {
    if body == [] then {} else Declares(body[0]) + Declared(body[1..])
  }

  predicate AllIn(names: seq<string>, known: set<string>) {
    forall n :: n in names ==> n in known
  }

  /** Every use is of a variable in scope or of the collection, and no variable in scope is declared
      again. */
  predicate StmtScoped(st: Stmt, vars: set<string>, collection: string)
    decreases st
  {
    match st
    case Let(x, inner) => x !in vars && Scoped(inner, vars, collection)
    case LetOf(x, uses) => x !in vars && AllIn(uses, vars + {collection})
    case LetRef(x, node, _) => x !in vars && node in vars
    case For(x, source, _) => x !in vars && source in vars + {collection}
    case Filter(on, root, _, _) => on in vars && (root.Some? ==> root.value in vars)
    case Kinds(on, _, _) => on in vars
    case Use(uses) => AllIn(uses, vars + {collection})
  }

  predicate Scoped(body: seq<Stmt>, vars: set<string>, collection: string)
    decreases body
  {
    body == []
    || (StmtScoped(body[0], vars, collection) && Scoped(body[1..], vars + Declares(body[0]), collection))
  }

  function StmtParams(st: Stmt): set<string>
    decreases st
  {
    match st
    case Let(_, inner) => ParamsOf(inner)
    case Filter(_, _, e, _) => Placeholders(e)
    case Kinds(_, names, _) => set n | n in names
    case _ => {}
  }

  function ParamsOf(body: seq<Stmt>): set<string>
    decreases body
  {
    if body == [] then {} else StmtParams(body[0]) + ParamsOf(body[1..])
  }

  predicate Base(base: string) {
    base in ["m", "filter", "merge_result", "merge_part", "part_res", "io_in", "io_out", "io_crs", "io_link", "agg"]
  }

  /** What next_crs and cursor_in put before a number. */
  ghost predicate Stemmed(base: string) {
    Base(base) || exists i: nat :: base == Stem(i)
  }

  ghost predicate CursorName(x: string, base: string, n: nat) {
    Stemmed(base) && x == base + Text(n)
  }

  /** One of the names that next_crs and cursor_in hand out. */
  ghost predicate Numbered(x: string) {
    exists base, n: nat :: CursorName(x, base, n)
  }

  ghost function Cursor(x: string): multiset<string> {
    if Numbered(x) then multiset{x} else multiset{}
  }

  /** How often each numbered cursor is declared, at any depth. */
  ghost function StmtCursors(st: Stmt): multiset<string>
    decreases st
  {
    match st
    case Let(x, inner) => Cursor(x) + Cursors(inner)
    case LetOf(x, _) => Cursor(x)
    case LetRef(x, _, _) => Cursor(x)
    case For(x, _, _) => Cursor(x)
    case _ => multiset{}
  }

  ghost function Cursors(body: seq<Stmt>): multiset<string>
    decreases body
  {
    if body == [] then multiset{} else StmtCursors(body[0]) + Cursors(body[1..])
  }

  /** Only cursors out of `names` are declared, and none of them twice. */
  ghost predicate Once(body: seq<Stmt>, names: set<string>) {
    forall x :: Cursors(body)[x] <= if x in names then 1 else 0
  }

  lemma {:induction false} ScopedPlus(a: seq<Stmt>, b: seq<Stmt>, vars: set<string>, collection: string)
    ensures Scoped(a + b, vars, collection)
       <==> Scoped(a, vars, collection) && Scoped(b, vars + Declared(a), collection)
    ensures Declared(a + b) == Declared(a) + Declared(b)
    ensures ParamsOf(a + b) == ParamsOf(a) + ParamsOf(b)
    ensures Cursors(a + b) == Cursors(a) + Cursors(b)
  {
    if a == [] {
      assert a + b == b;
      assert vars + Declared(a) == vars;
    } else {
      assert (a + b)[0] == a[0] && (a + b)[1..] == a[1..] + b;
      hide StmtScoped, StmtParams, StmtCursors, Declares;
      ScopedPlus(a[1..], b, vars + Declares(a[0]), collection);
      assert (vars + Declares(a[0])) + Declared(a[1..]) == vars + Declared(a);
    }
  }

  lemma ScopedOne(st: Stmt, vars: set<string>, collection: string)
    ensures Scoped([st], vars, collection) <==> StmtScoped(st, vars, collection)
    ensures Declared([st]) == Declares(st) && ParamsOf([st]) == StmtParams(st) && Cursors([st]) == StmtCursors(st)
  {
    hide StmtScoped, StmtParams, StmtCursors, Declares;
    assert [st][1..] == [];
  }

  // ----- the compiler's state -----

  /** `issued` is every cursor name handed out so far. */
  datatype State = State(c: Compiled, issued: set<string>)

  function NextCounter(s: State, name: string): (nat, State) {
    var n := Counter(s.c.counters, name);
    (n, s.(c := s.c.(counters := s.c.counters[name := n + 1])))
  }

  function NextCrs(s: State, base: string): (string, State) {
    var (n, s') := NextCounter(s, base);
    (base + Text(n), s'.(issued := s'.issued + {base + Text(n)}))
  }

  function Fail(s: State): State {
    s.(c := Raise(s.c))
  }

  function BindName(s: State, v: Value): (string, State) {
    var (name, c) := Bind(s.c, v);
    (name, s.(c := c))
  }

  // ----- parts -----

  function Filters(p: Part, t: Term): bool {
    !(t.AllTerm? && p.limit.None? && p.sort == [])
  }

  /** filter_statement: the new cursor and the statements. */
  function FilterStatement(model: Model, p: Part, cursor: string, t: Term, s: State): (string, seq<Stmt>, State) {
    if !Filters(p, t) then (cursor, [], s)
    else
      var (crsr, s1) := NextCrs(s, "m");
      var (filtered, s2) := NextCrs(s1, "filter");
      var (e, c) := CompileTerm(model, t, s2.c);
      (filtered, [Let(filtered, [For(crsr, cursor, Each), Filter(crsr, None, e, t), Use([crsr])])], s2.(c := c))
  }

  /** cursor_in(depth) of the with clause numbered `current`. */
  function WithCrs(current: nat, depth: nat): string {
    "c" + Text(current) + "_" + Text(depth)
  }

  function Issue(s: State, name: string): State {
    s.(issued := s.issued + {name})
  }

  function WithTerm(cl: WithClause): Term {
    if cl.term.Some? then cl.term.value else AllTerm
  }

  function Towards(d: Direction): Direction {
    if d == Outbound then Outbound else Inbound
  }

  /** Every traversal also lets the root of the with clause through. */
  function TraversalFilter(model: Model, current: nat, cl: WithClause, cursor: string, depth: nat, s: State)
    : (seq<Stmt>, State)
    decreases cl
  {
    var crsr := WithCrs(current, depth);
    var s1 := Issue(s, crsr);
    var (e, c) := CompileTerm(model, WithTerm(cl), s1.c);
    var (rest, s2) := if cl.inner.Some? then TraversalFilter(model, current, cl.inner.value, crsr, depth + 1,
        s1.(c := c))
                      else ([], s1.(c := c));
    var hops := Hops(0, cl.nav.until, Towards(cl.nav.direction), cl.nav.edgeType);
    ([For(crsr, cursor, hops), Filter(crsr, Some(WithCrs(current, 0)), e, WithTerm(cl))] + rest, s2)
  }

  function WithCursors(current: nat, cl: WithClause, depth: nat): seq<string>
    decreases cl
  {
    [WithCrs(current, depth)]
    + if cl.inner.Some? then WithCursors(current, cl.inner.value, depth + 1) else []
  }

  /** The RETURN stands for the COLLECTs as well, which group and count the cursors of every depth. */
  function WithStatement(model: Model, cursor: string, cl: WithClause, s: State): (string, seq<Stmt>, State) {
    var (current, s1) := NextCounter(s, "with_clause");
    var l0 := WithCrs(current, 0);
    var (out, s2) := NextCrs(Issue(s1, l0), "m");
    var (body, s3) := TraversalFilter(model, current, cl, l0, 1, s2);
    (out, [Let(out, [For(l0, cursor, Each)] + body + [Use([l0] + WithCursors(current, cl, 1))])], s3)
  }

  /** inout: one traversal. `direct` when the sub-query of a merge starts at the merge cursor itself. */
  function InOut(cursor: string, hops: Steps, direct: bool, edges: bool, s: State): (string, seq<Stmt>, State) {
    var (inC, s1) := NextCrs(s, "io_in");
    var (out, s2) := NextCrs(s1, "io_out");
    var (outCrsr, s3) := NextCrs(s2, "io_crs");
    var (link, s4) := NextCrs(s3, "io_link");
    var source := if direct then cursor else inC;
    (out,
     [Let(out, (if direct then [] else [For(inC, cursor, Each)]) + [For(outCrsr, source, hops)]
               + (if edges then [For(link, source, hops), Use([link])] else []) + [Use([outCrsr])])],
     s4)
  }

  /** In both directions the way out starts at one, to have the node itself only once. */
  function OutHops(nav: Navigation): Steps {
    Hops(if nav.start == 0 then 1 else nav.start, nav.until, Outbound, nav.edgeType)
  }

  function Navigate(cursor: string, nav: Navigation, direct: bool, edges: bool, s: State): (string, seq<Stmt>, State) {
    if nav.direction != Both_ then
      InOut(cursor, Hops(nav.start, nav.until, nav.direction, nav.edgeType), direct, edges, s)
    else
      var (first, body1, s1) := InOut(cursor, Hops(nav.start, nav.until, Inbound, nav.edgeType), direct, edges, s);
      var (second, body2, s2) := InOut(cursor, OutHops(nav), direct, edges, s1);
      var (both, s3) := NextCrs(s2, "m");
      (both, body1 + body2 + [LetOf(both, [first, second])], s3)
  }

  function FirstIn(kinds: seq<string>, from: set<string>): Option<string> {
    if kinds == [] then None else if kinds[0] in from then Some(kinds[0]) else FirstIn(kinds[1..], from)
  }

  /** is_already_resolved: the kind of an ancestor that a node refers to directly. */
  function AlreadyResolved(resolved: set<string>, q: Query): Option<string> {
    if && |q.parts| == 2 && !q.aggregate
       && q.parts[1].nav.Some? && q.parts[1].nav.value.direction == Inbound && q.parts[1].nav.value.until > 1
       && q.parts[0].term.Simple? && q.parts[0].term.term.IsTerm?
    then FirstIn(q.parts[0].term.term.kinds, resolved) else None
  }

  predicate StartsWithNavigation(q: Query) {
    && q.parts != []
    && var f := q.parts[|q.parts| - 1];
       f.term == Simple(AllTerm) && f.sort == [] && (f.limit.None? || f.limit.value == 0) && f.withClause.None?
           && !f.tagged
  }

  datatype Db = Db(model: Model, resolved: set<string>, collection: string, edges: bool)

  /** One attribute of a merge: an ancestor the node refers to, or the result of a sub-query. */
  function MergeOne(db: Db, cursor: string, q: Query, s: State): (string, Stmt, State)
    decreases q, 7
  {
    var (partRes, s1) := NextCrs(s, "part_res");
    var kind := AlreadyResolved(db.resolved, q);
    if kind.Some? then (partRes, LetRef(partRes, cursor, kind.value), s1)
    else if !StartsWithNavigation(q) then (partRes, LetOf(partRes, []), Fail(s1))
    else
      var (_, s2) := NextCrs(s1, "merge_part");
      var (crs, body, s3) := QueryString(db, q, cursor, true, s2);
      (partRes, Let(partRes, body + [For("r", crs, Each), Use(["r"])]), s3)
  }

  function MergeAll(db: Db, cursor: string, merges: seq<Query>, s: State): (seq<string>, seq<Stmt>, State)
    decreases merges, 1
  {
    if merges == [] then ([], [], s)
    else
      var (partRes, one, s1) := MergeOne(db, cursor, merges[0], s);
      var (names, rest, s2) := MergeAll(db, cursor, merges[1..], s1);
      ([partRes] + names, [one] + rest, s2)
  }

  function MergeStatement(db: Db, cursor: string, merges: seq<Query>, s: State): (string, seq<Stmt>, State)
    decreases merges, 2
  {
    var (result, s1) := NextCrs(s, "merge_result");
    var (mergeCursor, s2) := NextCrs(s1, "m");
    var (names, body, s3) := MergeAll(db, mergeCursor, merges, s2);
    (result, [Let(result, [For(mergeCursor, cursor, Each)] + body + [Use([mergeCursor] + names)])], s3)
  }

  /** The term of a part: its cursor, the cursor of the last filter (empty without one), statements. */
  function TermStatement(db: Db, p: Part, cursor: string, s: State): (string, string, seq<Stmt>, State)
    decreases p, 3
  {
    match p.term
    case Simple(t) =>
      var (crs, body, s') := FilterStatement(db.model, p, cursor, t, s);
      (crs, if Filters(p, t) then crs else "", body, s')
    case Merge(pre, merges, post) =>
      var (crs1, body1, s1) := FilterStatement(db.model, p, cursor, pre, s);
      var (crs2, body2, s2) := MergeStatement(db, crs1, merges, s1);
      var t := if post.Some? then post.value else AllTerm;
      var (crs3, body3, s3) := FilterStatement(db.model, p, crs2, t, s2);
      (crs3, if Filters(p, t) then crs3 else if Filters(p, pre) then crs1 else "", body1 + body2 + body3, s3)
  }

  function PartStatement(db: Db, p: Part, cursor: string, direct: bool, s: State)
    : (string, string, seq<Stmt>, State)
    decreases p, 4
  {
    var (crs1, filtered, body1, s1) := TermStatement(db, p, cursor, s);
    var (crs2, body2, s2) := if p.withClause.Some? then WithStatement(db.model, crs1, p.withClause.value, s1)
                             else (crs1, [], s1);
    var (crs3, body3, s3) := if p.nav.Some? then Navigate(crs2, p.nav.value, direct, db.edges, s2)
                             else (crs2, [], s2);
    (crs3, filtered, body1 + body2 + body3, s3)
  }

  /** The parts from the last to the first; `direct` holds for the very first one compiled only. */
  function Parts(db: Db, parts: seq<Part>, cursor: string, direct: bool, s: State)
    : (string, seq<string>, seq<Stmt>, State)
    decreases parts, 5
  {
    if parts == [] then (cursor, [], [], s)
    else
      var last := |parts| - 1;
      var (crs1, filtered, body1, s1) := PartStatement(db, parts[last], cursor, direct, s);
      var (crs2, tagged, body2, s2) := Parts(db, parts[..last], crs1, false, s1);
      (crs2, (if parts[last].tagged then [filtered] else []) + tagged, body1 + body2, s2)
  }

  // ----- merge_ancestors -----

  function BindEach(names: seq<string>, s: State): (seq<Stmt>, State)
    decreases |names|
  {
    if names == [] then ([], s)
    else
      var (bv, s1) := BindName(s, Str(names[0]));
      var (rest, s2) := BindEach(names[1..], s1);
      ([Let(names[0], [For("p", "ancestor_nodes", Each), Kinds("p", [bv], [Str(names[0])]), Use(["p"])])] + rest, s2)
  }

  function Select(names: seq<string>, from: set<string>, within: bool): seq<string> {
    if names == [] then []
    else (if (names[0] in from) == within then [names[0]] else []) + Select(names[1..], from, within)
  }

  function Documents(names: seq<string>): seq<Stmt> {
    seq(|names|, i requires 0 <= i < |names| => LetRef(names[i], "node", names[i]))
  }

  /** The way up to the root of the graph. */
  function AncestorHops(): Steps {
    Hops(1, 1000, Inbound, "default")
  }

  /** Where the lookup stops, and the ancestors it looks for. */
  function LookUpValues(names: seq<string>): seq<Value>
    requires names != []
  {
    [Str(names[0]), List(Strings(names))]
  }

  function LookUp(names: seq<string>, s: State): (seq<Stmt>, State) {
    if names == [] then ([], s)
    else
      var (stop, s1) := BindName(s, Str(names[0]));
      var (nodes, s2) := BindName(s1, List(Strings(names)));
      var (each, s3) := BindEach(names, s2);
      ([Let("ancestor_nodes", [For("p", "node", AncestorHops()), Kinds("p", [stop, nodes], LookUpValues(names)), Use(["p"])])] + each, s3)
  }

  function MergeAncestors(db: Db, cursor: string, names: seq<string>, s: State): (seq<Stmt>, State) {
    var (looked, s1) := LookUp(Select(names, db.resolved, false), s);
    ([Let("merge_with_ancestor",
          [For("node", cursor, Each)] + looked + Documents(Select(names, db.resolved, true)) + [Use(["node"] + names)])],
     s1)
  }

  // ----- query_string -----

  function QueryString(db: Db, q: Query, start: string, direct: bool, s: State): (string, seq<Stmt>, State)
    decreases q, 6
  {
    var (crs1, tagged, body1, s1) := Parts(db, q.parts, start, direct, s);
    var (crs2, body2, s2) :=
      if q.ancestors == [] then (crs1, [], s1)
      else var (b, s') := MergeAncestors(db, crs1, q.ancestors, s1); ("merge_with_ancestor", b, s');
    var (nxt, s3) := NextCrs(s2, "m");
    if q.aggregate then
      var (agg, s4) := NextCrs(s3, "agg");
      var body3 := [Let("aggregated", [For(agg, crs2, Each), Use([agg])])];
      if q.parts != [] && q.parts[0].sort != [] then
        (nxt, body1 + body2 + body3 + [Let(nxt, [For("res", "aggregated", Each), Use(["res"])])], s4)
      else ("aggregated", body1 + body2 + body3, s4)
    else if tagged != [] then
      (nxt, body1 + body2 + [Let(nxt, [Use(tagged + [crs2])])], s3)
    else (crs2, body1 + body2, s3)
  }

  /** to_query: from empty counters and bind variables. */
  function ToQuery(db: Db, q: Query): (seq<Stmt>, State) {
    var (crs, body, s) := QueryString(db, q, db.collection, false, State(Compiled(map[], map[], false), {}));
    (body + [For("result", crs, Each), Use(["result"])], s)
  }

  // ----- names are fresh -----

  predicate WithStem(base: string) {
    base != "" && base[|base| - 1] == '_'
  }

  function Stem(i: nat): string {
    "c" + Text(i) + "_"
  }

  ghost predicate Known(counters: map<string, nat>, x: string, base: string, n: nat) {
    && x == base + Text(n) && EndsPlain(base)
    && (if WithStem(base) then exists i: nat :: i < Counter(counters, "with_clause") && base == Stem(i)
        else Base(base) && n < Counter(counters, base))
  }

  ghost predicate Issued(s: State) {
    forall x :: x in s.issued ==> exists base, n: nat :: Known(s.c.counters, x, base, n)
  }

  ghost predicate Good(s: State) {
    Named(s.c) && Issued(s)
  }

  /** `s'` comes after `s`: names and bindings are only ever added, and an error stays. */
  ghost predicate Later(s: State, s': State) {
    && s.issued <= s'.issued
    && Extends(s.c.binds, s'.c.binds)
    && (s.c.error ==> s'.c.error)
    && (forall x :: Counter(s.c.counters, x) <= Counter(s'.c.counters, x))
  }

  lemma LaterTrans(a: State, b: State, c: State)
    requires Later(a, b) && Later(b, c)
    ensures Later(a, c)
  {
    ExtendsTrans(a.c.binds, b.c.binds, c.c.binds);
  }

  lemma KnownLater(a: map<string, nat>, b: map<string, nat>, x: string, base: string, n: nat)
    requires Known(a, x, base, n) && forall y :: Counter(a, y) <= Counter(b, y)
    ensures Known(b, x, base, n)
  {
  }

  lemma IssuedLater(s: State, s': State)
    requires Issued(s) && s'.issued == s.issued && forall y :: Counter(s.c.counters, y) <= Counter(s'.c.counters, y)
    ensures Issued(s')
  {
    hide Known;
    forall x | x in s'.issued
      ensures exists base, n: nat :: Known(s'.c.counters, x, base, n)
    {
      var base, n: nat :| Known(s.c.counters, x, base, n);
      KnownLater(s.c.counters, s'.c.counters, x, base, n);
    }
  }

  lemma NamedSame(c: Compiled, c': Compiled)
    requires Named(c) && c'.binds == c.binds && Counter(c'.counters, "bind_vars") == Counter(c.counters, "bind_vars")
    ensures Named(c')
  {
    forall k | k in c'.binds
      ensures exists n: nat :: CountedName(c', k, n)
    {
      var n: nat :| CountedName(c, k, n);
      assert CountedName(c', k, n);
    }
  }

  /** next_crs never hands out a name twice. */
  lemma NextCrsFresh(s: State, base: string)
    requires Good(s) && Base(base)
    ensures var (x, s') := NextCrs(s, base);
            && x !in s.issued && x in s'.issued && Numbered(x)
            && s'.issued == s.issued + {x} && s'.c.binds == s.c.binds && s'.c.error == s.c.error
            && Good(s') && Later(s, s')
  {
    var (x, s') := NextCrs(s, base);
    var k := Counter(s.c.counters, base);
    if x in s.issued {
      var b, n: nat :| Known(s.c.counters, x, b, n);
      NumberedInjective(base, k, b, n);
    }
    NamedSame(s.c, s'.c);
    forall y | y in s'.issued
      ensures exists b, n: nat :: Known(s'.c.counters, y, b, n)
    {
      if y == x {
        assert Known(s'.c.counters, x, base, k);
      } else {
        var b, n: nat :| Known(s.c.counters, y, b, n);
        KnownLater(s.c.counters, s'.c.counters, y, b, n);
      }
    }
    assert CursorName(x, base, k);
  }

  lemma TermLater(model: Model, t: Term, s: State)
    requires Good(s)
    ensures var (e, c) := CompileTerm(model, t, s.c);
            && Good(s.(c := c)) && Later(s, s.(c := c)) && Placeholders(e) <= c.binds.Keys
  {
    hide CompileTerm, Named, Issued;
    TermBinds(model, t, s.c);
    IssuedLater(s, s.(c := CompileTerm(model, t, s.c).1));
  }

  lemma BindLater(s: State, v: Value)
    requires Good(s)
    ensures var (name, s') := BindName(s, v);
            && name !in s.c.binds && name in s'.c.binds && s'.c.binds[name] == v
            && Good(s') && Later(s, s') && s'.issued == s.issued && s'.c.error == s.c.error
  {
    hide Named, Issued;
    BindFresh(s.c, v);
    BindGrows(s.c, v);
    IssuedLater(s, BindName(s, v).1);
  }

  // ----- the cursors of with clauses -----

  lemma WithCrsIs(i: nat, n: nat, base: string, k: nat)
    requires EndsPlain(base) && WithCrs(i, n) == base + Text(k)
    ensures base == Stem(i) && k == n && WithStem(base)
  {
    assert WithCrs(i, n) == Stem(i) + Text(n);
    NumberedInjective(Stem(i), n, base, k);
  }

  lemma StemInjective(i: nat, j: nat)
    requires Stem(i) == Stem(j)
    ensures i == j
  {
    assert Stem(i)[1..|Stem(i)| - 1] == Text(i);
    assert Stem(j)[1..|Stem(j)| - 1] == Text(j);
    TextInjective(i, j);
  }

  /** Of the with clause numbered `current` only cursors above `depth` are out. */
  ghost predicate Above(s: State, current: nat, depth: nat) {
    && current < Counter(s.c.counters, "with_clause")
    && forall n: nat :: WithCrs(current, n) in s.issued ==> n < depth
  }

  lemma IssueFresh(s: State, current: nat, depth: nat)
    requires Good(s) && Above(s, current, depth)
    ensures var x, s' := WithCrs(current, depth), Issue(s, WithCrs(current, depth));
            && x !in s.issued && Good(s') && Later(s, s') && Above(s', current, depth + 1)
  {
    var x, s' := WithCrs(current, depth), Issue(s, WithCrs(current, depth));
    forall y | y in s'.issued
      ensures exists b, n: nat :: Known(s'.c.counters, y, b, n)
    {
      if y == x {
        assert x == Stem(current) + Text(depth);
        assert Known(s'.c.counters, x, Stem(current), depth);
      } else {
        var b, n: nat :| Known(s.c.counters, y, b, n);
        assert Known(s'.c.counters, y, b, n);
      }
    }
    forall n: nat | WithCrs(current, n) in s'.issued
      ensures n < depth + 1
    {
      if WithCrs(current, n) == x {
        WithCrsIs(current, n, Stem(current), depth);
      }
    }
  }

  /** next_counter("with_clause") opens a number no cursor carries yet. */
  lemma NextWith(s: State)
    requires Good(s)
    ensures var (current, s') := NextCounter(s, "with_clause");
            Good(s') && Later(s, s') && s'.issued == s.issued && s'.c.error == s.c.error && Above(s', current, 0)
  {
    var (current, s') := NextCounter(s, "with_clause");
    NamedSame(s.c, s'.c);
    IssuedLater(s, s');
    forall n: nat | WithCrs(current, n) in s.issued
      ensures false
    {
      var b, k: nat :| Known(s.c.counters, WithCrs(current, n), b, k);
      WithCrsIs(current, n, b, k);
      var i: nat :| i < Counter(s.c.counters, "with_clause") && b == Stem(i);
      StemInjective(i, current);
    }
  }

  lemma Issuing(s: State, x: string)
    ensures Issue(s, x).issued == s.issued + {x} && Issue(s, x).c == s.c
  {
  }

  lemma SameLater(s: State)
    ensures Later(s, s)
  {
  }

  lemma AboveLater(s: State, s': State, current: nat, depth: nat)
    requires Above(s, current, depth) && s'.issued == s.issued && Later(s, s')
    ensures Above(s', current, depth)
  {
  }

  lemma AboveNext(s: State, base: string, current: nat, depth: nat)
    requires Base(base) && Above(s, current, depth)
    ensures Above(NextCrs(s, base).1, current, depth)
  {
    var (x, s') := NextCrs(s, base);
    forall n: nat | WithCrs(current, n) in s'.issued
      ensures n < depth
    {
      if WithCrs(current, n) == x {
        WithCrsIs(current, n, base, Counter(s.c.counters, base));
      }
    }
  }

  // ----- which queries are well scoped -----

  /** The statement of a part has a filter, so a tag has something to return. */
  predicate HasFilter(p: Part) {
    match p.term
    case Simple(t) => Filters(p, t)
    case Merge(pre, _, post) => Filters(p, pre) || Filters(p, if post.Some? then post.value else AllTerm)
  }

  predicate TagsFilter(parts: seq<Part>) {
    forall i :: 0 <= i < |parts| && parts[i].tagged ==> HasFilter(parts[i])
  }

  predicate Distinct(names: seq<string>) {
    forall i, j :: 0 <= i < j < |names| ==> names[i] != names[j]
  }

  /** The ancestors that the nodes do not refer to. */
  function Missing(names: seq<string>, resolved: set<string>): seq<string> {
    if names == [] then []
    else
      var last := |names| - 1;
      Missing(names[..last], resolved) + if names[last] in resolved then [] else [names[last]]
  }

  /** Ancestor names become variables beside those that merge_ancestors writes itself: only the last LET
      of the lookups may be called p, as their loops are. */
  predicate AncestorsNamed(db: Db, names: seq<string>) {
    var up := Missing(names, db.resolved);
    && Distinct(names) && "node" !in names
    && (up != [] ==> "ancestor_nodes" !in names && "p" !in up[..|up| - 1])
  }

  /** Every tagged part filters and the ancestors have usable names, in the query and in every sub-query
      that is compiled; an aggregation ignores the tags. */
  predicate WellNamed(db: Db, q: Query)
    decreases q, 3
  {
    (q.aggregate || TagsFilter(q.parts)) && AncestorsNamed(db, q.ancestors) && PartsNamed(db, q.parts)
  }

  predicate PartsNamed(db: Db, parts: seq<Part>)
    decreases parts, 2
  {
    forall i :: 0 <= i < |parts| ==> PartNamed(db, parts[i])
  }

  predicate PartNamed(db: Db, p: Part)
    decreases p, 2
  {
    p.term.Merge? ==> MergesNamed(db, p.term.merges)
  }

  predicate MergesNamed(db: Db, merges: seq<Query>)
    decreases merges, 1
  {
    forall i :: 0 <= i < |merges| ==> MergeNamed(db, merges[i])
  }

  predicate MergeNamed(db: Db, q: Query)
    decreases q, 4
  {
    Reference(db.resolved, q).Some? || !StartsPlain(q) || WellNamed(db, q)
  }

  /** The first of the kinds that nodes refer to. */
  function Nearest(kinds: seq<string>, resolved: set<string>): Option<string> {
    if kinds == [] then None
    else
      var last := |kinds| - 1;
      if Nearest(kinds[..last], resolved).Some? then Nearest(kinds[..last], resolved)
      else if kinds[last] in resolved then Some(kinds[last]) else None
  }

  /** A sub-query that climbs more than one step, and asks for nothing but a kind there. */
  function Reference(resolved: set<string>, q: Query): Option<string> {
    match q
    case Query(parts, aggregate, _) =>
      if aggregate || |parts| != 2 then None
      else
        match (parts[0].term, parts[1].nav)
        case (Simple(IsTerm(kinds)), Some(Navigation(_, until, Inbound, _))) =>
          if until >= 2 then Nearest(kinds, resolved) else None
        case _ => None
  }

  /** The first part to be compiled is a navigation and nothing else. */
  predicate StartsPlain(q: Query) {
    |q.parts| > 0
    && match q.parts[|q.parts| - 1]
       case Part(Simple(AllTerm), false, None, sort, limit, _) => |sort| == 0 && (limit == None || limit == Some(0))
       case _ => false
  }

  lemma {:induction false} NearestMore(k: string, kinds: seq<string>, resolved: set<string>)
    ensures Nearest([k] + kinds, resolved) == if k in resolved then Some(k) else Nearest(kinds, resolved)
    decreases |kinds|
  {
    var all := [k] + kinds;
    if kinds == [] {
      assert all[..0] == [];
    } else {
      assert all[..|all| - 1] == [k] + kinds[..|kinds| - 1];
      NearestMore(k, kinds[..|kinds| - 1], resolved);
    }
  }

  lemma {:induction false} FirstIsNearest(kinds: seq<string>, resolved: set<string>)
    ensures FirstIn(kinds, resolved) == Nearest(kinds, resolved)
  {
    if kinds != [] {
      FirstIsNearest(kinds[1..], resolved);
      NearestMore(kinds[0], kinds[1..], resolved);
      assert kinds == [kinds[0]] + kinds[1..];
    }
  }

  /** What a merge tests on a sub-query. */
  lemma MergeTests(resolved: set<string>, q: Query)
    ensures AlreadyResolved(resolved, q) == Reference(resolved, q)
    ensures StartsWithNavigation(q) <==> StartsPlain(q)
  {
    if |q.parts| == 2 && q.parts[0].term.Simple? && q.parts[0].term.term.IsTerm? {
      FirstIsNearest(q.parts[0].term.term.kinds, resolved);
    }
  }

  lemma {:induction false} MissingMore(n: string, names: seq<string>, resolved: set<string>)
    ensures Missing([n] + names, resolved) == (if n in resolved then [] else [n]) + Missing(names, resolved)
    decreases |names|
  {
    var all := [n] + names;
    if names == [] {
      assert all[..0] == [];
    } else {
      assert all[..|all| - 1] == [n] + names[..|names| - 1];
      MissingMore(n, names[..|names| - 1], resolved);
    }
  }

  lemma {:induction false} MissingIs(names: seq<string>, resolved: set<string>)
    ensures Select(names, resolved, false) == Missing(names, resolved)
  {
    if names != [] {
      MissingIs(names[1..], resolved);
      MissingMore(names[0], names[1..], resolved);
      assert names == [names[0]] + names[1..];
    }
  }

  /** No ancestor is called like a cursor. */
  ghost predicate PlainNames(names: seq<string>) {
    forall n :: n in names ==> !Numbered(n)
  }

  ghost predicate PlainQuery(q: Query)
    decreases q, 3
  {
    PlainNames(q.ancestors) && PlainParts(q.parts)
  }

  ghost predicate PlainParts(parts: seq<Part>)
    decreases parts, 2
  {
    forall i :: 0 <= i < |parts| ==> PlainPart(parts[i])
  }

  ghost predicate PlainPart(p: Part)
    decreases p, 2
  {
    p.term.Merge? ==> PlainMerges(p.term.merges)
  }

  ghost predicate PlainMerges(merges: seq<Query>)
    decreases merges, 1
  {
    forall i :: 0 <= i < |merges| ==> PlainQuery(merges[i])
  }

  // ----- between two states -----

  lemma IssuedNumbered(s: State, x: string)
    requires Good(s) && x in s.issued
    ensures Numbered(x)
  {
    var base, n: nat :| Known(s.c.counters, x, base, n);
    assert CursorName(x, base, n);
  }

  /** The names that the compiler writes out as they are. */
  function Extras(): set<string> {
    {"aggregated", "merge_with_ancestor"}
  }

  lemma FailLater(s: State)
    requires Good(s)
    ensures Good(Fail(s)) && Later(s, Fail(s)) && Fail(s).issued == s.issued
  {
    RaiseGrows(s.c);
    IssuedLater(s, Fail(s));
  }

  lemma BindsKept(s: State, s': State)
    requires Later(s, s')
    ensures s.c.binds.Keys <= s'.c.binds.Keys && s.issued <= s'.issued
  {
  }

  // ----- the shape of query_string -----

  /** The cursor and statements before the last LET. */
  function Pipeline(db: Db, q: Query, start: string, direct: bool, s: State)
    : (string, seq<string>, seq<Stmt>, State)
  {
    var (crs1, tagged, body1, s1) := Parts(db, q.parts, start, direct, s);
    if q.ancestors == [] then (crs1, tagged, body1, s1)
    else
      var (body2, s2) := MergeAncestors(db, crs1, q.ancestors, s1);
      ("merge_with_ancestor", tagged, body1 + body2, s2)
  }

  lemma QueryShape(db: Db, q: Query, start: string, direct: bool, s: State)
    ensures var (crs, tagged, body, s2) := Pipeline(db, q, start, direct, s);
            var (nxt, s3) := NextCrs(s2, "m");
            var (agg, s4) := NextCrs(s3, "agg");
            var aggregated := body + [Let("aggregated", [For(agg, crs, Each), Use([agg])])];
            QueryString(db, q, start, direct, s)
            == if q.aggregate then
                 if q.parts != [] && q.parts[0].sort != [] then
                   (nxt, aggregated + [Let(nxt, [For("res", "aggregated", Each), Use(["res"])])], s4)
                 else ("aggregated", aggregated, s4)
               else if tagged != [] then (nxt, body + [Let(nxt, [Use(tagged + [crs])])], s3)
               else (crs, body, s3)
  {
    hide MergeAncestors, Parts, NextCrs;
    var body1 := Parts(db, q.parts, start, direct, s).2;
    assert body1 + [] == body1;
  }

  lemma StartGood()
    ensures Good(State(Compiled(map[], map[], false), {}))
  {
  }
}
