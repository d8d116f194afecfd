/** Where the rows of a compiled query come from: which filters the text applies to which input, read off the
    text by following its variables, and the proof that these are the filters and inputs the query asks for. */
module AqlFlows {
  import opened Aql
  import opened AqlTerms
  import opened Options
  import opened Decimal
  import opened AqlQueries
  import opened AqlSelections
  import AqlPieces

  /** What a variable stands for. */
  datatype Flow =
    | Nothing
    | Vertices                                             // the collection
    | Walked(start: Flow, hops: Steps)                     // what a traversal reaches
    | Kept(input: Flow, root: Option<Flow>, term: Term)    // what a FILTER lets through
    | Picked(among: Flow, values: seq<Value>)              // what a test of kinds against values lets through
    | Referred(node: Flow, kind: string)                   // the ancestor of this kind that a node refers to
    | Derived(parts: seq<Flow>)                            // what an expression makes of several
    | All(rows: Flow)                                      // a list of such rows, where the others are single rows

  // ----- what the text does -----

  /** The filters so far, in order, and Nothing for every sub-query that is refused; what each variable stands
      for; what was returned last. */
  datatype Trace = Trace(filters: seq<Flow>, env: map<string, Flow>, out: Flow)

  function Read(env: map<string, Flow>, x: string): Flow {
    if x in env then env[x] else Nothing
  }

  function ReadAll(env: map<string, Flow>, xs: seq<string>): seq<Flow> {
    seq(|xs|, i requires 0 <= i < |xs| => Read(env, xs[i]))
  }

  function Combine(flows: seq<Flow>): Flow {
    if |flows| == 1 then flows[0] else Derived(flows)
  }

  /** A loop runs over a list. */
  function RowsOf(list: Flow): (row: Flow)
    ensures !row.All?
  {
    if list.All? && !list.rows.All? then list.rows else Nothing
  }

  /** A traversal starts at a row. */
  function RowOf(row: Flow): Flow {
    if row.All? then Nothing else row
  }

  function Loop(source: Flow, how: Steps): (row: Flow)
    ensures !row.All?
  {
    if how.Each? then RowsOf(source) else Walked(RowOf(source), how)
  }

  /** A LET in brackets has its own variables, and collects what it returns; a FILTER narrows its cursor. */
  function StmtTrace(st: Stmt, t: Trace): Trace
    decreases st
  {
    match st
    case Let(x, inner) =>
      var u := BodyTrace(inner, t.(out := Nothing));
      Trace(u.filters, t.env[x := All(u.out)], t.out)
    case LetOf(x, uses) =>
      t.(filters := t.filters + (if uses == [] then [Nothing] else []), env := t.env[x := All(Derived(ReadAll(t.env, uses)))])
    case LetRef(x, node, kind) => t.(env := t.env[x := Referred(Read(t.env, node), kind)])
    case For(x, source, how) => t.(env := t.env[x := Loop(Read(t.env, source), how)])
    case Filter(on, root, _, term) =>
      var kept := Kept(Read(t.env, on), if root.Some? then Some(Read(t.env, root.value)) else None, term);
      t.(filters := t.filters + [kept], env := t.env[on := kept])
    case Kinds(on, _, values) => t.(env := t.env[on := Picked(Read(t.env, on), values)])
    case Use(uses) => t.(out := Combine(ReadAll(t.env, uses)))
  }

  function BodyTrace(body: seq<Stmt>, t: Trace): Trace
    decreases body
  {
    if body == [] then t else BodyTrace(body[1..], StmtTrace(body[0], t))
  }

  lemma {:induction false} TracePlus(a: seq<Stmt>, b: seq<Stmt>, t: Trace)
    ensures BodyTrace(a + b, t) == BodyTrace(b, BodyTrace(a, t))
  {
    if a == [] {
      assert a + b == b;
    } else {
      hide StmtTrace;
      assert (a + b)[0] == a[0] && (a + b)[1..] == a[1..] + b;
      TracePlus(a[1..], b, StmtTrace(a[0], t));
    }
  }

  lemma TraceOne(st: Stmt, t: Trace)
    ensures BodyTrace([st], t) == StmtTrace(st, t)
  {
    hide StmtTrace;
    assert [st][1..] == [];
  }

  lemma TraceTwo(a: Stmt, b: Stmt, t: Trace)
    ensures BodyTrace([a, b], t) == StmtTrace(b, StmtTrace(a, t))
  {
    hide StmtTrace, BodyTrace;
    assert [a, b] == [a] + [b];
    TracePlus([a], [b], t);
    TraceOne(a, t);
    TraceOne(b, StmtTrace(a, t));
  }

  lemma TraceThree(a: Stmt, b: Stmt, c: Stmt, t: Trace)
    ensures BodyTrace([a, b, c], t) == StmtTrace(c, StmtTrace(b, StmtTrace(a, t)))
  {
    hide StmtTrace, BodyTrace;
    assert [a, b, c] == [a, b] + [c];
    TracePlus([a, b], [c], t);
    TraceTwo(a, b, t);
    TraceOne(c, StmtTrace(b, StmtTrace(a, t)));
  }

  // ----- what the query asks for -----

  /** The filters of a query in the order they apply, what its tagged parts return, and its result. */
  datatype Plan = Plan(filters: seq<Flow>, tagged: seq<Flow>, out: Flow)

  /** A part that neither sorts nor limits needs no filter for a term that holds of everything. */
  function FilterPlan(p: Part, term: Term, from: Flow): Plan {
    if term == AllTerm && p.limit == None && p.sort == [] then Plan([], [Nothing], from)
    else
      var kept := Kept(RowsOf(from), None, term);
      Plan([kept], [All(kept)], All(kept))
  }

  /** Every level starts from what the level above lets through. */
  function WithFilters(cl: WithClause, root: Flow, from: Flow): seq<Flow>
    decreases cl
  {
    var hops := Hops(0, cl.nav.until, if cl.nav.direction == Outbound then Outbound else Inbound, cl.nav.edgeType);
    var kept := Kept(Walked(from, hops), Some(root), if cl.term.Some? then cl.term.value else AllTerm);
    [kept] + if cl.inner.Some? then WithFilters(cl.inner.value, root, kept) else []
  }

  /** `direct` when the first part of a sub-query starts at the row of the outer query, and not with a list. */
  function NavigationPlan(nav: Navigation, direct: bool, from: Flow): Flow {
    var row := if direct then RowOf(from) else RowsOf(from);
    match nav.direction
    case Both_ =>
      All(Derived([All(Walked(row, Hops(nav.start, nav.until, Inbound, nav.edgeType))),
                   All(Walked(row, Hops(if nav.start > 1 then nav.start else 1, nav.until, Outbound, nav.edgeType)))]))
    case d => All(Walked(row, Hops(nav.start, nav.until, d, nav.edgeType)))
  }

  /** A sub-query that starts with the node of the outer query, or the node's own reference. */
  function MergePlan(db: Db, q: Query, from: Flow): Plan
    decreases q, 7
  {
    match Reference(db.resolved, q)
    case Some(kind) => Plan([], [], Referred(from, kind))
    case None =>
      if StartsPlain(q) then
        var plan := QueryPlan(db, q, true, from);
        plan.(out := All(RowsOf(plan.out)))
      else Plan([Nothing], [], All(Derived([])))
  }

  /** The filters of all sub-queries, and what each adds to the node. */
  function MergesPlan(db: Db, merges: seq<Query>, from: Flow): (seq<Flow>, seq<Flow>)
    decreases merges, 1
  {
    if merges == [] then ([], [])
    else
      var one, (filters, parts) := MergePlan(db, merges[0], from), MergesPlan(db, merges[1..], from);
      (one.filters + filters, [one.out] + parts)
  }

  /** A tag names what the last filter of the part lets through. */
  function TermPlan(db: Db, p: Part, from: Flow): Plan
    decreases p, 3
  {
    match p.term
    case Simple(t) => FilterPlan(p, t, from)
    case Merge(pre, merges, post) =>
      var before := FilterPlan(p, pre, from);
      var (filters, parts) := MergesPlan(db, merges, RowsOf(before.out));
      var after := FilterPlan(p, if post.Some? then post.value else AllTerm,
                              All(Combine([RowsOf(before.out)] + parts)));
      Plan(before.filters + filters + after.filters, if after.filters != [] then after.tagged else before.tagged,
           after.out)
  }

  function PartPlan(db: Db, p: Part, direct: bool, from: Flow): Plan
    decreases p, 4
  {
    var kept := TermPlan(db, p, from);
    var root := RowsOf(kept.out);
    var withs := if p.withClause.Some? then WithFilters(p.withClause.value, root, root) else [];
    var counted := if p.withClause.Some? then All(Derived([root] + withs)) else kept.out;
    Plan(kept.filters + withs, if p.tagged then kept.tagged else [],
         if p.nav.Some? then NavigationPlan(p.nav.value, direct, counted) else counted)
  }

  /** The last part comes first. */
  function PartsPlan(db: Db, parts: seq<Part>, direct: bool, from: Flow): Plan
    decreases parts, 5
  {
    if parts == [] then Plan([], [], from)
    else
      var last := |parts| - 1;
      var first := PartPlan(db, parts[last], direct, from);
      var rest := PartsPlan(db, parts[..last], false, first.out);
      Plan(first.filters + rest.filters, first.tagged + rest.tagged, rest.out)
  }

  /** An ancestor that nodes do not refer to is found on the way to the root, which ends at the first of these
      ancestors; all of them are looked for at once, and then each by its kind. */
  function AncestorFlow(db: Db, names: seq<string>, name: string, from: Flow): Flow {
    if name in db.resolved then Referred(from, name)
    else All(Picked(RowsOf(OnTheWay(Missing(names, db.resolved), from)), [Str(name)]))
  }

  function OnTheWay(missing: seq<string>, from: Flow): Flow {
    if missing == [] then Nothing
    else
      var all := List(seq(|missing|, i requires 0 <= i < |missing| => Str(missing[i])));
      All(Picked(Walked(RowOf(from), Hops(1, 1000, Inbound, "default")), [Str(missing[0]), all]))
  }

  function AncestorFlows(db: Db, names: seq<string>, from: Flow): seq<Flow> {
    seq(|names|, i requires 0 <= i < |names| => AncestorFlow(db, names, names[i], from))
  }

  function QueryPlan(db: Db, q: Query, direct: bool, from: Flow): Plan
    decreases q, 6
  {
    var parts := PartsPlan(db, q.parts, direct, from);
    var out := WithAncestors(db, q.ancestors, parts.out);
    Plan(parts.filters, [],
         if q.aggregate then All(RowsOf(out))
         else if parts.tagged != [] then All(Combine(parts.tagged + [out]))
         else out)
  }

  function WithAncestors(db: Db, names: seq<string>, out: Flow): Flow {
    if names == [] then out else All(Derived([RowsOf(out)] + AncestorFlows(db, names, RowsOf(out))))
  }

  // ----- names stand for what they stood for -----

  /** The cursors that have a meaning were issued. */
  ghost predicate Clean(env: map<string, Flow>, s: State) {
    "" !in env && forall x :: x in env && Numbered(x) ==> x in s.issued
  }

  ghost predicate Keeps(env: map<string, Flow>, env': map<string, Flow>) {
    forall x :: x in env ==> x in env' && env'[x] == env[x]
  }

  /** The statements apply the filters, keep what every variable in scope stands for, and leave the flow
      under the cursor. */
  ghost predicate Flows(body: seq<Stmt>, t: Trace, s: State, s': State, filters: seq<Flow>, crs: string, out: Flow) {
    var u := BodyTrace(body, t);
    && Good(s') && s.issued <= s'.issued
    && u.filters == t.filters + filters && Keeps(t.env, u.env) && Clean(u.env, s')
    && crs in u.env && u.env[crs] == out
  }

  lemma FlowsNothing(t: Trace, s: State, crs: string)
    requires Good(s) && Clean(t.env, s) && crs in t.env
    ensures Flows([], t, s, s, [], crs, t.env[crs])
  {
    hide Good, Clean;
  }

  lemma FlowsSeq(a: seq<Stmt>, b: seq<Stmt>, t: Trace, s: State, s1: State, s2: State,
                 f1: seq<Flow>, f2: seq<Flow>, c1: string, c2: string, o1: Flow, o2: Flow)
    requires Flows(a, t, s, s1, f1, c1, o1) && Flows(b, BodyTrace(a, t), s1, s2, f2, c2, o2)
    ensures Flows(a + b, t, s, s2, f1 + f2, c2, o2)
  {
    hide Good, Clean, BodyTrace;
    TracePlus(a, b, t);
    assert t.filters + f1 + f2 == t.filters + (f1 + f2);
  }

  lemma FlowsFacts(body: seq<Stmt>, t: Trace, s: State, s': State, filters: seq<Flow>, crs: string, out: Flow)
    requires Flows(body, t, s, s', filters, crs, out)
    ensures var u := BodyTrace(body, t);
            && Good(s') && s.issued <= s'.issued && Clean(u.env, s') && Keeps(t.env, u.env)
            && u.filters == t.filters + filters && crs in u.env && u.env[crs] == out
  {
    hide Good, Clean;
  }

  /** What a cursor, or the empty name of a part without a filter, stands for is kept. */
  lemma ReadKept(env: map<string, Flow>, env': map<string, Flow>, x: string)
    requires Keeps(env, env') && (x in env || x == "") && "" !in env'
    ensures Read(env', x) == Read(env, x) && (x in env' || x == "")
  {
  }

  /** A new name in front of everything that is inside a LET. */
  lemma CleanMore(env: map<string, Flow>, s: State, s': State, x: string, f: Flow)
    requires Clean(env, s) && s.issued <= s'.issued && x !in s.issued && x in s'.issued && Numbered(x) && x != ""
    ensures x !in env && Clean(env[x := f], s') && Keeps(env, env[x := f])
  {
    hide Numbered;
  }

  /** LET of a new cursor: what its body returns. */
  lemma LetFlows(x: string, inner: seq<Stmt>, t: Trace, s: State, s': State, filters: seq<Flow>)
    requires Good(s') && s.issued <= s'.issued && Clean(t.env, s) && x !in s.issued && x in s'.issued && Numbered(x)
    requires BodyTrace(inner, t.(out := Nothing)).filters == t.filters + filters
    ensures Flows([Let(x, inner)], t, s, s', filters, x, All(BodyTrace(inner, t.(out := Nothing)).out))
  {
    hide Good, Clean, Numbered;
    TraceOne(Let(x, inner), t);
    AqlPieces.NumberedEnd(x);
    CleanMore(t.env, s, s', x, All(BodyTrace(inner, t.(out := Nothing)).out));
  }

  lemma LetOfFlows(x: string, uses: seq<string>, t: Trace, s: State, s': State)
    requires Good(s') && s.issued <= s'.issued && Clean(t.env, s) && x !in s.issued && x in s'.issued && Numbered(x)
    ensures Flows([LetOf(x, uses)], t, s, s', if uses == [] then [Nothing] else [], x,
                  All(Derived(ReadAll(t.env, uses))))
  {
    hide Good, Clean, Numbered;
    TraceOne(LetOf(x, uses), t);
    AqlPieces.NumberedEnd(x);
    CleanMore(t.env, s, s', x, All(Derived(ReadAll(t.env, uses))));
  }

  lemma LetRefFlows(x: string, node: string, kind: string, t: Trace, s: State, s': State)
    requires Good(s') && s.issued <= s'.issued && Clean(t.env, s) && x !in s.issued && x in s'.issued && Numbered(x)
    ensures Flows([LetRef(x, node, kind)], t, s, s', [], x, Referred(Read(t.env, node), kind))
  {
    hide Good, Clean, Numbered;
    TraceOne(LetRef(x, node, kind), t);
    AqlPieces.NumberedEnd(x);
    CleanMore(t.env, s, s', x, Referred(Read(t.env, node), kind));
  }

  lemma ReadOne(env: map<string, Flow>, x: string)
    ensures Combine(ReadAll(env, [x])) == Read(env, x)
  {
  }

  // ----- the pieces -----

  lemma FilterFlows(model: Model, p: Part, cursor: string, term: Term, s: State, t: Trace)
    requires Good(s) && Clean(t.env, s) && cursor in t.env
    ensures var (crs, body, s') := FilterStatement(model, p, cursor, term, s);
            var plan := FilterPlan(p, term, t.env[cursor]);
            && Flows(body, t, s, s', plan.filters, crs, plan.out)
            && (Filters(p, term) <==> plan.filters != []) && (Filters(p, term) ==> Numbered(crs))
            && plan.tagged == [if Filters(p, term) then plan.out else Nothing]
  {
    hide Good, Later, Clean, CompileTerm, Flows, Numbered, NextCrs;
    if !Filters(p, term) {
      FlowsNothing(t, s, cursor);
    } else {
      var (crsr, s1) := NextCrs(s, "m");
      var (filtered, s2) := NextCrs(s1, "filter");
      var (e, c) := CompileTerm(model, term, s2.c);
      NextCrsFresh(s, "m");
      NextCrsFresh(s1, "filter");
      TermLater(model, term, s2);
      var a, b, d := For(crsr, cursor, Each), Filter(crsr, None, e, term), Use([crsr]);
      TraceThree(a, b, d, t.(out := Nothing));
      var kept := Kept(RowsOf(t.env[cursor]), None, term);
      ReadOne(t.env[crsr := kept], crsr);
      assert t.env[crsr := RowsOf(t.env[cursor])][crsr := kept] == t.env[crsr := kept];
      LetFlows(filtered, [a, b, d], t, s, s2.(c := c), [kept]);
    }
  }

  /** The loops and filters of a with clause. */
  ghost predicate Traversed(body: seq<Stmt>, t: Trace, filters: seq<Flow>, cursors: seq<string>) {
    var u := BodyTrace(body, t);
    && u.filters == t.filters + filters && Keeps(t.env, u.env) && u.out == t.out
    && ReadAll(u.env, cursors) == filters && forall c :: c in cursors ==> c in u.env
  }

  lemma WithCrsNumbered(i: nat, n: nat)
    ensures Numbered(WithCrs(i, n)) && WithCrs(i, n) != ""
  {
    assert WithCrs(i, n) == Stem(i) + Text(n);
    assert CursorName(WithCrs(i, n), Stem(i), n);
  }

  lemma {:induction false} TraversalFlows(model: Model, current: nat, cl: WithClause, cursor: string, depth: nat,
                                          s: State, t: Trace)
    requires Good(s) && Clean(t.env, s) && Above(s, current, depth) && cursor in t.env
    requires WithCrs(current, 0) in t.env && !t.env[cursor].All?
    ensures var (body, s') := TraversalFilter(model, current, cl, cursor, depth, s);
            Traversed(body, t, WithFilters(cl, t.env[WithCrs(current, 0)], t.env[cursor]),
                      WithCursors(current, cl, depth))
    decreases cl
  {
    hide Good, Later, Clean, CompileTerm, Above, WithCrs, Issue, Numbered, Traversed;
    var crsr, root := WithCrs(current, depth), WithCrs(current, 0);
    var s1 := Issue(s, crsr);
    IssueFresh(s, current, depth);
    Issuing(s, crsr);
    WithCrsNumbered(current, depth);
    var (e, c) := CompileTerm(model, WithTerm(cl), s1.c);
    var s2 := s1.(c := c);
    TermLater(model, WithTerm(cl), s1);
    var hops := Hops(0, cl.nav.until, Towards(cl.nav.direction), cl.nav.edgeType);
    var kept := Kept(Walked(t.env[cursor], hops), Some(t.env[root]), WithTerm(cl));
    CleanMore(t.env, s, s2, crsr, kept);
    var t2 := Trace(t.filters + [kept], t.env[crsr := kept], t.out);
    if cl.inner.Some? {
      AboveLater(s1, s2, current, depth + 1);
      TraversalFlows(model, current, cl.inner.value, crsr, depth + 1, s2, t2);
      var (rest, _) := TraversalFilter(model, current, cl.inner.value, crsr, depth + 1, s2);
      TraversedMore(crsr, cursor, hops, root, e, WithTerm(cl), rest, t,
                    WithFilters(cl.inner.value, t.env[root], kept), WithCursors(current, cl.inner.value, depth + 1));
    } else {
      TraversedNothing(t2);
      TraversedMore(crsr, cursor, hops, root, e, WithTerm(cl), [], t, [], []);
    }
  }

  lemma TraversedNothing(t: Trace)
    ensures Traversed([], t, [], [])
  {
  }

  lemma TraversedMore(crsr: string, cursor: string, hops: Steps, root: string, e: Expr, term: Term, rest: seq<Stmt>,
                      t: Trace, filters: seq<Flow>, cursors: seq<string>)
    requires hops.Hops? && cursor in t.env && root in t.env && crsr !in t.env && !t.env[cursor].All?
    requires var kept := Kept(Walked(t.env[cursor], hops), Some(t.env[root]), term);
             Traversed(rest, Trace(t.filters + [kept], t.env[crsr := kept], t.out), filters, cursors)
    ensures var kept := Kept(Walked(t.env[cursor], hops), Some(t.env[root]), term);
            Traversed([For(crsr, cursor, hops), Filter(crsr, Some(root), e, term)] + rest, t, [kept] + filters,
                      [crsr] + cursors)
  {
    hide BodyTrace;
    var kept := Kept(Walked(t.env[cursor], hops), Some(t.env[root]), term);
    var a, b := For(crsr, cursor, hops), Filter(crsr, Some(root), e, term);
    TracePlus([a, b], rest, t);
    TraceTwo(a, b, t);
    assert StmtTrace(b, StmtTrace(a, t)).env == t.env[crsr := kept];
    var u := BodyTrace(rest, Trace(t.filters + [kept], t.env[crsr := kept], t.out));
    assert ReadAll(u.env, [crsr] + cursors) == [u.env[crsr]] + ReadAll(u.env, cursors);
    assert t.filters + [kept] + filters == t.filters + ([kept] + filters);
  }

  lemma WithFlows(model: Model, cursor: string, cl: WithClause, s: State, t: Trace)
    requires Good(s) && Clean(t.env, s) && cursor in t.env
    ensures var (out, body, s') := WithStatement(model, cursor, cl, s);
            var from := RowsOf(t.env[cursor]);
            var filters := WithFilters(cl, from, from);
            Flows(body, t, s, s', filters, out, All(Derived([from] + filters)))
  {
    hide Good, Later, Clean, Flows, Sound, Above, WithCrs, Issue, NextCrs, NextCounter, TraversalFilter, WithCursors,
        WithFilters, Numbered, Traversed;
    var (current, s1) := NextCounter(s, "with_clause");
    NextWith(s);
    var l0 := WithCrs(current, 0);
    var s2 := Issue(s1, l0);
    IssueFresh(s1, current, 0);
    Issuing(s1, l0);
    WithCrsNumbered(current, 0);
    var (out, s3) := NextCrs(s2, "m");
    NextCrsFresh(s2, "m");
    AboveNext(s2, "m", current, 1);
    var from := RowsOf(t.env[cursor]);
    CleanMore(t.env, s, s3, l0, from);
    var (body, s4) := TraversalFilter(model, current, cl, l0, 1, s3);
    var t1 := Trace(t.filters, t.env[l0 := from], Nothing);
    TraversalFlows(model, current, cl, l0, 1, s3, t1);
    TraversalSound(model, current, cl, l0, 1, s3);
    SoundFacts(model, body, s3, s4);
    BindsKept(s3, s4);
    var cursors := WithCursors(current, cl, 1);
    var inner := [For(l0, cursor, Each)] + body + [Use([l0] + cursors)];
    WithTrace(l0, cursor, body, cursors, t, WithFilters(cl, from, from));
    WithSome(cl, from, from);
    LetFlows(out, inner, t, s, s4, WithFilters(cl, from, from));
  }

  lemma WithSome(cl: WithClause, root: Flow, from: Flow)
    ensures |WithFilters(cl, root, from)| > 0
  {
  }

  /** The body of a LET that loops over a cursor, and returns it together with what follows. */
  lemma WithTrace(x: string, cursor: string, body: seq<Stmt>, cursors: seq<string>, t: Trace, filters: seq<Flow>)
    requires cursor in t.env
    requires Traversed(body, Trace(t.filters, t.env[x := RowsOf(t.env[cursor])], Nothing), filters, cursors)
    ensures var u := BodyTrace([For(x, cursor, Each)] + body + [Use([x] + cursors)], t.(out := Nothing));
            u.filters == t.filters + filters && u.out == Combine([RowsOf(t.env[cursor])] + filters)
  {
    hide BodyTrace, Combine;
    var a, z := For(x, cursor, Each), Use([x] + cursors);
    var t1 := Trace(t.filters, t.env[x := RowsOf(t.env[cursor])], Nothing);
    TracePlus([a] + body, [z], t.(out := Nothing));
    TracePlus([a], body, t.(out := Nothing));
    TraceOne(a, t.(out := Nothing));
    var u := BodyTrace(body, t1);
    TraceOne(z, u);
    assert ReadAll(u.env, [x] + cursors) == [u.env[x]] + ReadAll(u.env, cursors);
  }

  /** Where a traversal starts: at the row itself, or at every row of the list. */
  function StartRow(direct: bool, from: Flow): Flow {
    if direct then RowOf(from) else RowsOf(from)
  }

  lemma InOutFlows(cursor: string, hops: Steps, direct: bool, edges: bool, s: State, t: Trace)
    requires Good(s) && Clean(t.env, s) && cursor in t.env && hops.Hops?
    ensures var (out, body, s') := InOut(cursor, hops, direct, edges, s);
            Flows(body, t, s, s', [], out, All(Walked(StartRow(direct, t.env[cursor]), hops)))
  {
    hide Good, Later, Clean, Flows, Numbered, NextCrs, BodyTrace;
    var (inC, s1) := NextCrs(s, "io_in");
    var (out, s2) := NextCrs(s1, "io_out");
    var (outCrsr, s3) := NextCrs(s2, "io_crs");
    var (link, s4) := NextCrs(s3, "io_link");
    NextCrsFresh(s, "io_in");
    NextCrsFresh(s1, "io_out");
    NextCrsFresh(s2, "io_crs");
    NextCrsFresh(s3, "io_link");
    var source := if direct then cursor else inC;
    var a := if direct then [] else [For(inC, cursor, Each)];
    var b := if edges then [For(link, source, hops), Use([link])] else [];
    InOutTrace(a, b, cursor, inC, outCrsr, link, hops, direct, edges, t.(out := Nothing));
    LetFlows(out, a + [For(outCrsr, source, hops)] + b + [Use([outCrsr])], t, s, s4, []);
  }

  lemma InOutTrace(a: seq<Stmt>, b: seq<Stmt>, cursor: string, inC: string, outCrsr: string, link: string,
                   hops: Steps, direct: bool, edges: bool, t: Trace)
    requires cursor in t.env && hops.Hops? && link != outCrsr
    requires a == if direct then [] else [For(inC, cursor, Each)]
    requires b == if edges then [For(link, if direct then cursor else inC, hops), Use([link])] else []
    ensures var source := if direct then cursor else inC;
            var u := BodyTrace(a + [For(outCrsr, source, hops)] + b + [Use([outCrsr])], t);
            u.filters == t.filters + [] && u.out == Walked(StartRow(direct, t.env[cursor]), hops)
  {
    hide BodyTrace;
    var source := if direct then cursor else inC;
    var c, d := For(outCrsr, source, hops), Use([outCrsr]);
    TracePlus(a + [c] + b, [d], t);
    TracePlus(a + [c], b, t);
    TracePlus(a, [c], t);
    var t1 := BodyTrace(a, t);
    assert t1.filters == t.filters && source in t1.env && RowOf(t1.env[source]) == StartRow(direct, t.env[cursor]) by {
      if direct {
        NoTrace(t);
      } else {
        TraceOne(For(inC, cursor, Each), t);
      }
    }
    TraceOne(c, t1);
    var t2 := StmtTrace(c, t1);
    var t3 := BodyTrace(b, t2);
    assert t3.filters == t.filters && Read(t3.env, outCrsr) == Walked(StartRow(direct, t.env[cursor]), hops) by {
      if edges {
        TraceTwo(For(link, source, hops), Use([link]), t2);
      } else {
        NoTrace(t2);
      }
    }
    TraceOne(d, t3);
    ReadOne(t3.env, outCrsr);
  }

  lemma NoTrace(t: Trace)
    ensures BodyTrace([], t) == t
  {
  }

  lemma NavigateFlows(cursor: string, nav: Navigation, direct: bool, edges: bool, s: State, t: Trace)
    requires Good(s) && Clean(t.env, s) && cursor in t.env
    ensures var (out, body, s') := Navigate(cursor, nav, direct, edges, s);
            Flows(body, t, s, s', [], out, NavigationPlan(nav, direct, t.env[cursor]))
  {
    hide Good, Later, Clean, Flows, Numbered, NextCrs, BodyTrace, InOut;
    if nav.direction != Both_ {
      InOutFlows(cursor, Hops(nav.start, nav.until, nav.direction, nav.edgeType), direct, edges, s, t);
    } else {
      var from, up, down := StartRow(direct, t.env[cursor]), Hops(nav.start, nav.until, Inbound, nav.edgeType), OutHops(nav);
      var (first, body1, s1) := InOut(cursor, up, direct, edges, s);
      InOutFlows(cursor, up, direct, edges, s, t);
      FlowsFacts(body1, t, s, s1, [], first, All(Walked(from, up)));
      var t1 := BodyTrace(body1, t);
      var (second, body2, s2) := InOut(cursor, down, direct, edges, s1);
      InOutFlows(cursor, down, direct, edges, s1, t1);
      var none: seq<Flow> := [];
      assert none + none == none;
      FlowsSeq(body1, body2, t, s, s1, s2, none, none, first, second, All(Walked(from, up)), All(Walked(from, down)));
      FlowsFacts(body2, t1, s1, s2, [], second, All(Walked(from, down)));
      FlowsFacts(body1 + body2, t, s, s2, [], second, All(Walked(from, down)));
      var t2 := BodyTrace(body1 + body2, t);
      TracePlus(body1, body2, t);
      var (both, s3) := NextCrs(s2, "m");
      NextCrsFresh(s2, "m");
      LetOfFlows(both, [first, second], t2, s2, s3);
      assert ReadAll(t2.env, [first, second]) == [All(Walked(from, up)), All(Walked(from, down))];
      FlowsSeq(body1 + body2, [LetOf(both, [first, second])], t, s, s2, s3, none, none, second, both, All(Walked(from, down)),
               NavigationPlan(nav, direct, t.env[cursor]));
    }
  }

  // ----- merges -----

  lemma {:induction false} MergeOneFlows(db: Db, cursor: string, q: Query, s: State, t: Trace)
    requires Good(s) && Clean(t.env, s) && cursor in t.env && MergeNamed(db, q)
    ensures var (partRes, one, s') := MergeOne(db, cursor, q, s);
            var plan := MergePlan(db, q, t.env[cursor]);
            Flows([one], t, s, s', plan.filters, partRes, plan.out)
    decreases q, 7
  {
    hide Good, Later, Clean, Flows, Numbered, NextCrs, BodyTrace, QueryString, QueryPlan, WellNamed, AlreadyResolved,
        StartsWithNavigation, Fail, Reference, StartsPlain;
    var (partRes, s1) := NextCrs(s, "part_res");
    NextCrsFresh(s, "part_res");
    MergeTests(db.resolved, q);
    var kind := AlreadyResolved(db.resolved, q);
    if kind.Some? {
      LetRefFlows(partRes, cursor, kind.value, t, s, s1);
    } else if !StartsWithNavigation(q) {
      FailLater(s1);
      LetOfFlows(partRes, [], t, s, Fail(s1));
      assert ReadAll(t.env, []) == [];
    } else {
      var (_, s2) := NextCrs(s1, "merge_part");
      NextCrsFresh(s1, "merge_part");
      var (crs, body, s3) := QueryString(db, q, cursor, true, s2);
      CleanLater(t.env, s, s2);
      QueryFlows(db, q, cursor, true, s2, t.(out := Nothing));
      var plan := QueryPlan(db, q, true, t.env[cursor]);
      ReturnTrace(body, "r", crs, t.(out := Nothing), plan.out);
      LetFlows(partRes, body + [For("r", crs, Each), Use(["r"])], t, s, s3, plan.filters);
    }
  }

  lemma CleanLater(env: map<string, Flow>, s: State, s': State)
    requires Clean(env, s) && s.issued <= s'.issued
    ensures Clean(env, s')
  {
    hide Numbered;
  }

  /** FOR x IN crs RETURN x behind the statements that declare crs. */
  lemma ReturnTrace(body: seq<Stmt>, x: string, crs: string, t: Trace, out: Flow)
    requires crs in BodyTrace(body, t).env && BodyTrace(body, t).env[crs] == out
    ensures var u := BodyTrace(body + [For(x, crs, Each), Use([x])], t);
            u.filters == BodyTrace(body, t).filters && u.out == RowsOf(out)
  {
    hide BodyTrace;
    var t1 := BodyTrace(body, t);
    TracePlus(body, [For(x, crs, Each), Use([x])], t);
    TraceTwo(For(x, crs, Each), Use([x]), t1);
    ReadOne(t1.env[x := RowsOf(out)], x);
  }

  /** Several sub-queries, and the names of their results. */
  ghost predicate Merged(body: seq<Stmt>, t: Trace, s: State, s': State, filters: seq<Flow>, names: seq<string>,
                         parts: seq<Flow>) {
    var u := BodyTrace(body, t);
    && Good(s') && s.issued <= s'.issued
    && u.filters == t.filters + filters && Keeps(t.env, u.env) && Clean(u.env, s')
    && ReadAll(u.env, names) == parts && forall n :: n in names ==> n in u.env
  }

  lemma {:induction false} MergeAllFlows(db: Db, cursor: string, merges: seq<Query>, s: State, t: Trace)
    requires Good(s) && Clean(t.env, s) && cursor in t.env && MergesNamed(db, merges)
    ensures var (names, body, s') := MergeAll(db, cursor, merges, s);
            var (filters, parts) := MergesPlan(db, merges, t.env[cursor]);
            Merged(body, t, s, s', filters, names, parts)
    decreases merges, 1
  {
    hide Good, Later, Clean, Flows, BodyTrace, MergeOne, MergePlan, MergeNamed, Merged;
    var from := t.env[cursor];
    if merges == [] {
      MergedNothing(t, s);
    } else {
      var (partRes, one, s1) := MergeOne(db, cursor, merges[0], s);
      var plan := MergePlan(db, merges[0], from);
      MergeOneFlows(db, cursor, merges[0], s, t);
      FlowsFacts([one], t, s, s1, plan.filters, partRes, plan.out);
      MergeAllFlows(db, cursor, merges[1..], s1, BodyTrace([one], t));
      var (names, rest, s2) := MergeAll(db, cursor, merges[1..], s1);
      var (filters, parts) := MergesPlan(db, merges[1..], from);
      MergedMore(one, rest, t, s, s1, s2, plan, filters, partRes, names, parts);
    }
  }

  lemma MergedNothing(t: Trace, s: State)
    requires Good(s) && Clean(t.env, s)
    ensures Merged([], t, s, s, [], [], [])
  {
    hide Good, Clean;
  }

  lemma MergedMore(one: Stmt, rest: seq<Stmt>, t: Trace, s: State, s1: State, s2: State, plan: Plan,
                   filters: seq<Flow>, x: string, names: seq<string>, parts: seq<Flow>)
    requires Flows([one], t, s, s1, plan.filters, x, plan.out)
    requires Merged(rest, BodyTrace([one], t), s1, s2, filters, names, parts)
    ensures Merged([one] + rest, t, s, s2, plan.filters + filters, [x] + names, [plan.out] + parts)
  {
    hide Good, Clean, BodyTrace;
    TracePlus([one], rest, t);
    var u := BodyTrace([one] + rest, t);
    assert ReadAll(u.env, [x] + names) == [u.env[x]] + ReadAll(u.env, names);
    assert t.filters + plan.filters + filters == t.filters + (plan.filters + filters);
  }

  lemma {:induction false} MergeFlows(db: Db, cursor: string, merges: seq<Query>, s: State, t: Trace)
    requires Good(s) && Clean(t.env, s) && cursor in t.env && MergesNamed(db, merges)
    ensures var (result, body, s') := MergeStatement(db, cursor, merges, s);
            var (filters, parts) := MergesPlan(db, merges, RowsOf(t.env[cursor]));
            Flows(body, t, s, s', filters, result, All(Combine([RowsOf(t.env[cursor])] + parts)))
    decreases merges, 2
  {
    hide Good, Later, Clean, Flows, Numbered, NextCrs, BodyTrace, MergeAll, MergesPlan, MergesNamed, Combine, Merged;
    var from := RowsOf(t.env[cursor]);
    var (result, s1) := NextCrs(s, "merge_result");
    NextCrsFresh(s, "merge_result");
    var (m, s2) := NextCrs(s1, "m");
    NextCrsFresh(s1, "m");
    AqlPieces.NumberedEnd(m);
    CleanMore(t.env, s, s2, m, from);
    var t1 := Trace(t.filters, t.env[m := from], Nothing);
    MergeAllFlows(db, m, merges, s2, t1);
    var (names, body, s3) := MergeAll(db, m, merges, s2);
    var (filters, parts) := MergesPlan(db, merges, from);
    MergedTrace(m, cursor, body, names, t, s2, s3, filters, parts);
    LetFlows(result, [For(m, cursor, Each)] + body + [Use([m] + names)], t, s, s3, filters);
  }

  lemma MergedTrace(x: string, cursor: string, body: seq<Stmt>, names: seq<string>, t: Trace, s: State, s': State,
                    filters: seq<Flow>, parts: seq<Flow>)
    requires cursor in t.env && Merged(body, Trace(t.filters, t.env[x := RowsOf(t.env[cursor])], Nothing), s, s', filters,
                                       names, parts)
    ensures var u := BodyTrace([For(x, cursor, Each)] + body + [Use([x] + names)], t.(out := Nothing));
            u.filters == t.filters + filters && u.out == Combine([RowsOf(t.env[cursor])] + parts)
    ensures Good(s') && s.issued <= s'.issued
  {
    hide BodyTrace, Combine, Good, Clean;
    var a, z := For(x, cursor, Each), Use([x] + names);
    var t1 := Trace(t.filters, t.env[x := RowsOf(t.env[cursor])], Nothing);
    TracePlus([a] + body, [z], t.(out := Nothing));
    TracePlus([a], body, t.(out := Nothing));
    TraceOne(a, t.(out := Nothing));
    var u := BodyTrace(body, t1);
    TraceOne(z, u);
    assert ReadAll(u.env, [x] + names) == [u.env[x]] + ReadAll(u.env, names);
  }

  // ----- parts -----

  /** The statements of a part, with the flow of its last filter or of none. */
  ghost predicate Tags(body: seq<Stmt>, t: Trace, tag: string, flow: Flow) {
    var u := BodyTrace(body, t);
    Read(u.env, tag) == flow && (tag == "" || (tag in u.env && Numbered(tag)))
  }

  lemma TagsThen(a: seq<Stmt>, b: seq<Stmt>, t: Trace, s: State, s': State, filters: seq<Flow>, crs: string, out: Flow,
                 tag: string, flow: Flow)
    requires Tags(a, t, tag, flow) && Flows(b, BodyTrace(a, t), s, s', filters, crs, out)
    ensures Tags(a + b, t, tag, flow)
  {
    hide BodyTrace, Good;
    TracePlus(a, b, t);
    ReadKept(BodyTrace(a, t).env, BodyTrace(a + b, t).env, tag);
  }

  lemma NoTag(body: seq<Stmt>, t: Trace, s: State, s': State, filters: seq<Flow>, crs: string, out: Flow)
    requires Flows(body, t, s, s', filters, crs, out)
    ensures Tags(body, t, "", Nothing) && (Numbered(crs) ==> Tags(body, t, crs, out))
  {
    hide BodyTrace, Good;
  }

  lemma {:induction false} TermFlows(db: Db, p: Part, cursor: string, s: State, t: Trace)
    requires Good(s) && Clean(t.env, s) && cursor in t.env && PartNamed(db, p)
    ensures var (crs, filtered, body, s') := TermStatement(db, p, cursor, s);
            var plan := TermPlan(db, p, t.env[cursor]);
            Flows(body, t, s, s', plan.filters, crs, plan.out) && |plan.tagged| == 1
            && Tags(body, t, filtered, plan.tagged[0])
    decreases p, 3
  {
    hide Good, Later, Clean, Flows, BodyTrace, FilterStatement, MergeStatement, MergesNamed, FilterPlan, MergesPlan,
        Combine, Filters, Tags;
    var from := t.env[cursor];
    match p.term
    case Simple(term) =>
      FilterFlows(db.model, p, cursor, term, s, t);
      var (crs, body, s') := FilterStatement(db.model, p, cursor, term, s);
      var plan := FilterPlan(p, term, from);
      NoTag(body, t, s, s', plan.filters, crs, plan.out);
    case Merge(pre, merges, post) =>
      var (crs1, body1, s1) := FilterStatement(db.model, p, cursor, pre, s);
      var plan1 := FilterPlan(p, pre, from);
      FilterFlows(db.model, p, cursor, pre, s, t);
      FlowsFacts(body1, t, s, s1, plan1.filters, crs1, plan1.out);
      NoTag(body1, t, s, s1, plan1.filters, crs1, plan1.out);
      var tag := if Filters(p, pre) then crs1 else "";
      var t1 := BodyTrace(body1, t);
      var (crs2, body2, s2) := MergeStatement(db, crs1, merges, s1);
      var (filters, parts) := MergesPlan(db, merges, RowsOf(plan1.out));
      var merged := All(Combine([RowsOf(plan1.out)] + parts));
      MergeFlows(db, crs1, merges, s1, t1);
      FlowsSeq(body1, body2, t, s, s1, s2, plan1.filters, filters, crs1, crs2, plan1.out, merged);
      TagsThen(body1, body2, t, s1, s2, filters, crs2, merged, tag, plan1.tagged[0]);
      FlowsFacts(body1 + body2, t, s, s2, plan1.filters + filters, crs2, merged);
      var t2 := BodyTrace(body1 + body2, t);
      var last := if post.Some? then post.value else AllTerm;
      var (crs3, body3, s3) := FilterStatement(db.model, p, crs2, last, s2);
      var plan3 := FilterPlan(p, last, merged);
      FilterFlows(db.model, p, crs2, last, s2, t2);
      FlowsSeq(body1 + body2, body3, t, s, s2, s3, plan1.filters + filters, plan3.filters, crs2, crs3, merged, plan3.out);
      TagsThen(body1 + body2, body3, t, s2, s3, plan3.filters, crs3, plan3.out, tag, plan1.tagged[0]);
      NoTag(body1 + body2 + body3, t, s, s3, plan1.filters + filters + plan3.filters, crs3, plan3.out);
  }

  lemma {:induction false} PartFlows(db: Db, p: Part, cursor: string, direct: bool, s: State, t: Trace)
    requires Good(s) && Clean(t.env, s) && cursor in t.env && PartNamed(db, p)
    ensures var (crs, filtered, body, s') := PartStatement(db, p, cursor, direct, s);
            var plan := PartPlan(db, p, direct, t.env[cursor]);
            Flows(body, t, s, s', plan.filters, crs, plan.out)
            && (p.tagged ==> |plan.tagged| == 1 && Tags(body, t, filtered, plan.tagged[0]))
            && (!p.tagged ==> plan.tagged == [])
    decreases p, 4
  {
    hide Good, Later, Clean, Flows, BodyTrace, TermStatement, WithStatement, Navigate, PartNamed, TermPlan, WithFilters,
        NavigationPlan, Tags;
    var (crs1, filtered, body1, s1) := TermStatement(db, p, cursor, s);
    var plan := TermPlan(db, p, t.env[cursor]);
    TermFlows(db, p, cursor, s, t);
    FlowsFacts(body1, t, s, s1, plan.filters, crs1, plan.out);
    var t1 := BodyTrace(body1, t);
    var (crs2, body2, s2) := if p.withClause.Some? then WithStatement(db.model, crs1, p.withClause.value, s1)
                             else (crs1, [], s1);
    var root := RowsOf(plan.out);
    var withs := if p.withClause.Some? then WithFilters(p.withClause.value, root, root) else [];
    var counted := if p.withClause.Some? then All(Derived([root] + withs)) else plan.out;
    if p.withClause.Some? {
      WithFlows(db.model, crs1, p.withClause.value, s1, t1);
    } else {
      FlowsNothing(t1, s1, crs1);
    }
    FlowsSeq(body1, body2, t, s, s1, s2, plan.filters, withs, crs1, crs2, plan.out, counted);
    TagsThen(body1, body2, t, s1, s2, withs, crs2, counted, filtered, plan.tagged[0]);
    FlowsFacts(body1 + body2, t, s, s2, plan.filters + withs, crs2, counted);
    var t2 := BodyTrace(body1 + body2, t);
    var (crs3, body3, s3) := if p.nav.Some? then Navigate(crs2, p.nav.value, direct, db.edges, s2)
                             else (crs2, [], s2);
    var out := if p.nav.Some? then NavigationPlan(p.nav.value, direct, counted) else counted;
    if p.nav.Some? {
      NavigateFlows(crs2, p.nav.value, direct, db.edges, s2, t2);
    } else {
      FlowsNothing(t2, s2, crs2);
    }
    FlowsSeq(body1 + body2, body3, t, s, s2, s3, plan.filters + withs, [], crs2, crs3, counted, out);
    TagsThen(body1 + body2, body3, t, s2, s3, [], crs3, out, filtered, plan.tagged[0]);
    assert plan.filters + withs + [] == plan.filters + withs;
  }

  /** What the tagged names stand for. */
  ghost predicate AllTags(body: seq<Stmt>, t: Trace, tags: seq<string>, flows: seq<Flow>) {
    var u := BodyTrace(body, t);
    ReadAll(u.env, tags) == flows && forall x :: x in tags ==> x == "" || (x in u.env && Numbered(x))
  }

  lemma {:induction false} PartsFlows(db: Db, parts: seq<Part>, cursor: string, direct: bool, s: State, t: Trace)
    requires Good(s) && Clean(t.env, s) && cursor in t.env && PartsNamed(db, parts)
    ensures var (crs, tagged, body, s') := Parts(db, parts, cursor, direct, s);
            var plan := PartsPlan(db, parts, direct, t.env[cursor]);
            Flows(body, t, s, s', plan.filters, crs, plan.out) && AllTags(body, t, tagged, plan.tagged)
    decreases parts, 5
  {
    hide Good, Later, Clean, Flows, BodyTrace, PartStatement, PartNamed, PartPlan, Tags, AllTags;
    if parts == [] {
      FlowsNothing(t, s, cursor);
      NoTags(t);
    } else {
      var last := |parts| - 1;
      var (crs1, filtered, body1, s1) := PartStatement(db, parts[last], cursor, direct, s);
      var first := PartPlan(db, parts[last], direct, t.env[cursor]);
      PartFlows(db, parts[last], cursor, direct, s, t);
      FlowsFacts(body1, t, s, s1, first.filters, crs1, first.out);
      var t1 := BodyTrace(body1, t);
      var (crs2, tagged, body2, s2) := Parts(db, parts[..last], crs1, false, s1);
      var rest := PartsPlan(db, parts[..last], false, first.out);
      PartsFlows(db, parts[..last], crs1, false, s1, t1);
      FlowsSeq(body1, body2, t, s, s1, s2, first.filters, rest.filters, crs1, crs2, first.out, rest.out);
      AllTagsThen(body1, body2, t, tagged, rest.tagged);
      if parts[last].tagged {
        TagsThen(body1, body2, t, s1, s2, rest.filters, crs2, rest.out, filtered, first.tagged[0]);
        AllTagsMore(body1 + body2, t, filtered, tagged, first.tagged[0], rest.tagged);
        assert first.tagged == [first.tagged[0]];
      } else {
        assert [] + tagged == tagged && first.tagged + rest.tagged == rest.tagged;
      }
    }
  }

  lemma NoTags(t: Trace)
    ensures AllTags([], t, [], [])
  {
  }

  lemma AllTagsThen(a: seq<Stmt>, b: seq<Stmt>, t: Trace, tags: seq<string>, flows: seq<Flow>)
    requires AllTags(b, BodyTrace(a, t), tags, flows)
    ensures AllTags(a + b, t, tags, flows)
  {
    hide BodyTrace;
    TracePlus(a, b, t);
  }

  lemma AllTagsMore(body: seq<Stmt>, t: Trace, tag: string, tags: seq<string>, flow: Flow, flows: seq<Flow>)
    requires Tags(body, t, tag, flow) && AllTags(body, t, tags, flows)
    ensures AllTags(body, t, [tag] + tags, [flow] + flows)
  {
    hide BodyTrace;
    var u := BodyTrace(body, t);
    assert ReadAll(u.env, [tag] + tags) == [Read(u.env, tag)] + ReadAll(u.env, tags);
  }

  // ----- ancestors -----

  /** Some names get a meaning, everything else keeps its own. */
  ghost predicate Gives(body: seq<Stmt>, t: Trace, names: seq<string>, flow: string -> Flow) {
    var u := BodyTrace(body, t);
    && u.filters == t.filters && u.out == t.out
    && forall x :: Read(u.env, x) == if x in names then flow(x) else Read(t.env, x)
  }

  lemma GivesNothing(t: Trace, flow: string -> Flow)
    ensures Gives([], t, [], flow)
  {
  }

  lemma GivesSeq(a: seq<Stmt>, b: seq<Stmt>, t: Trace, x: string, names: seq<string>, flow: string -> Flow)
    requires Gives(a, t, [x], flow) && Gives(b, BodyTrace(a, t), names, flow)
    ensures Gives(a + b, t, [x] + names, flow)
  {
    hide BodyTrace;
    TracePlus(a, b, t);
  }

  lemma NodeGives(x: string, source: string, how: Steps, params: seq<string>, values: seq<Value>, t: Trace,
                  flow: string -> Flow)
    requires flow(x) == All(Picked(Loop(Read(t.env, source), how), values))
    ensures Gives([Let(x, [For("p", source, how), Kinds("p", params, values), Use(["p"])])], t, [x], flow)
  {
    hide BodyTrace;
    var a, b, c := For("p", source, how), Kinds("p", params, values), Use(["p"]);
    TraceOne(Let(x, [a, b, c]), t);
    TraceThree(a, b, c, t.(out := Nothing));
    ReadOne(StmtTrace(b, StmtTrace(a, t.(out := Nothing))).env, "p");
  }

  lemma {:induction false} BindEachGives(names: seq<string>, s: State, t: Trace, flow: string -> Flow)
    requires "ancestor_nodes" !in names
    requires forall n :: n in names ==> flow(n) == All(Picked(RowsOf(Read(t.env, "ancestor_nodes")), [Str(n)]))
    ensures Gives(BindEach(names, s).0, t, names, flow)
    decreases |names|
  {
    hide Gives, BindName, BodyTrace;
    if names == [] {
      GivesNothing(t, flow);
    } else {
      var (bv, s1) := BindName(s, Str(names[0]));
      var one := [Let(names[0], [For("p", "ancestor_nodes", Each), Kinds("p", [bv], [Str(names[0])]), Use(["p"])])];
      NodeGives(names[0], "ancestor_nodes", Each, [bv], [Str(names[0])], t, flow);
      GivesReads(one, t, [names[0]], flow, "ancestor_nodes");
      BindEachGives(names[1..], s1, BodyTrace(one, t), flow);
      GivesSeq(one, BindEach(names[1..], s1).0, t, names[0], names[1..], flow);
      assert names == [names[0]] + names[1..];
    }
  }

  lemma GivesReads(body: seq<Stmt>, t: Trace, names: seq<string>, flow: string -> Flow, x: string)
    requires Gives(body, t, names, flow)
    ensures Read(BodyTrace(body, t).env, x) == if x in names then flow(x) else Read(t.env, x)
    ensures BodyTrace(body, t).filters == t.filters && BodyTrace(body, t).out == t.out
  {
    hide BodyTrace;
  }

  lemma {:induction false} DocumentsGive(names: seq<string>, t: Trace, flow: string -> Flow)
    requires "node" !in names && forall n :: n in names ==> flow(n) == Referred(Read(t.env, "node"), n)
    ensures Gives(Documents(names), t, names, flow)
    decreases |names|
  {
    hide Gives, BodyTrace;
    if names == [] {
      GivesNothing(t, flow);
      assert Documents(names) == [];
    } else {
      var one := [LetRef(names[0], "node", names[0])];
      DocumentGives(names[0], t, flow);
      GivesReads(one, t, [names[0]], flow, "node");
      DocumentsGive(names[1..], BodyTrace(one, t), flow);
      GivesSeq(one, Documents(names[1..]), t, names[0], names[1..], flow);
      assert names == [names[0]] + names[1..];
      assert Documents(names) == one + Documents(names[1..]);
    }
  }

  lemma DocumentGives(x: string, t: Trace, flow: string -> Flow)
    requires flow(x) == Referred(Read(t.env, "node"), x)
    ensures Gives([LetRef(x, "node", x)], t, [x], flow)
  {
    hide BodyTrace;
    TraceOne(LetRef(x, "node", x), t);
  }

  /** The lookups give every name that is looked up its own ancestor, and add one name of their own. */
  lemma LookUpGives(names: seq<string>, s: State, t: Trace, flow: string -> Flow)
    requires "ancestor_nodes" !in names && flow("ancestor_nodes") == OnTheWay(names, Read(t.env, "node"))
    requires forall n :: n in names ==> flow(n) == All(Picked(RowsOf(OnTheWay(names, Read(t.env, "node"))), [Str(n)]))
    ensures Gives(LookUp(names, s).0, t, if names == [] then [] else ["ancestor_nodes"] + names, flow)
  {
    hide Gives, BindName, BindEach, BodyTrace;
    if names == [] {
      GivesNothing(t, flow);
    } else {
      var (stop, s1) := BindName(s, Str(names[0]));
      var (nodes, s2) := BindName(s1, List(Strings(names)));
      var one := [Let("ancestor_nodes", [For("p", "node", AncestorHops()), Kinds("p", [stop, nodes],
          LookUpValues(names)), Use(["p"])])];
      assert Strings(names) == seq(|names|, i requires 0 <= i < |names| => Str(names[i]));
      NodeGives("ancestor_nodes", "node", AncestorHops(), [stop, nodes], LookUpValues(names), t, flow);
      GivesReads(one, t, ["ancestor_nodes"], flow, "ancestor_nodes");
      BindEachGives(names, s2, BodyTrace(one, t), flow);
      GivesSeq(one, BindEach(names, s2).0, t, "ancestor_nodes", names, flow);
    }
  }

  lemma AncestorsFlow(db: Db, cursor: string, names: seq<string>, s: State, t: Trace)
    requires cursor in t.env && names != [] && AncestorsNamed(db, names)
    ensures var (body, s') := MergeAncestors(db, cursor, names, s);
            BodyTrace(body, t) == t.(env := t.env["merge_with_ancestor" := WithAncestors(db, names, t.env[cursor])])
  {
    hide BodyTrace, LookUp, Documents, Select, Distinct, OnTheWay, Missing;
    var from := RowsOf(t.env[cursor]);
    var up, here := Missing(names, db.resolved), Select(names, db.resolved, true);
    AqlPieces.SelectIs(names, db.resolved);
    MissingIs(names, db.resolved);
    var flow := (x: string) =>
      if x == "ancestor_nodes" && up != [] then OnTheWay(up, from) else AncestorFlow(db, names, x, from);
    var t0 := t.(out := Nothing);
    var loop, use := For("node", cursor, Each), Use(["node"] + names);
    var looked := LookUp(up, s).0;
    var inner := [loop] + looked + Documents(here) + [use];
    TracePlus([loop] + looked + Documents(here), [use], t0);
    TracePlus([loop] + looked, Documents(here), t0);
    TracePlus([loop], looked, t0);
    TraceOne(loop, t0);
    var t1 := t0.(env := t0.env["node" := from]);
    if up == [] {
      NothingLookedUp(s, t1, flow);
    } else {
      LookUpGives(up, s, t1, flow);
    }
    var t2 := BodyTrace(looked, t1);
    DocumentsGive(here, t2, flow);
    var t3 := BodyTrace(Documents(here), t2);
    TraceOne(use, t3);
    AncestorsRead(db, names, up, here, t1, t2, t3, flow, from);
    TraceOne(Let("merge_with_ancestor", inner), t);
  }

  lemma NothingLookedUp(s: State, t: Trace, flow: string -> Flow)
    ensures Gives(LookUp([], s).0, t, [], flow)
  {
    GivesNothing(t, flow);
  }

  lemma AncestorsRead(db: Db, names: seq<string>, up: seq<string>, here: seq<string>, t1: Trace, t2: Trace, t3: Trace,
                      flow: string -> Flow, from: Flow)
    requires "node" !in names && Read(t1.env, "node") == from
    requires forall n :: n in names ==> flow(n) == AncestorFlow(db, names, n, from)
    requires forall n :: n in up <==> n in names && n !in db.resolved
    requires forall n :: n in here <==> n in names && n in db.resolved
    requires forall x :: Read(t2.env, x) == if x in (if up == [] then [] else ["ancestor_nodes"] + up) then flow(x)
                                            else Read(t1.env, x)
    requires forall x :: Read(t3.env, x) == if x in here then flow(x) else Read(t2.env, x)
    ensures ReadAll(t3.env, ["node"] + names) == [from] + AncestorFlows(db, names, from)
  {
    hide AncestorFlow;
    assert Read(t2.env, "node") == from && Read(t3.env, "node") == from;
    forall i | 0 <= i < |names|
      ensures Read(t3.env, names[i]) == AncestorFlow(db, names, names[i], from)
    {
      assert names[i] in names;
    }
  }

  // ----- whole queries -----

  /** What the statements of a query leave for those that follow. */
  ghost predicate Leaves(body: seq<Stmt>, t: Trace, s: State, s': State, filters: seq<Flow>, crs: string, out: Flow) {
    var u := BodyTrace(body, t);
    && Good(s') && s.issued <= s'.issued && u.filters == t.filters + filters && crs in u.env && u.env[crs] == out
  }

  lemma PipelineFlows(db: Db, q: Query, start: string, direct: bool, s: State, t: Trace)
    requires Good(s) && Clean(t.env, s) && start in t.env && WellNamed(db, q)
    ensures var (crs, tagged, body, s') := Pipeline(db, q, start, direct, s);
            var plan := PartsPlan(db, q.parts, direct, t.env[start]);
            Leaves(body, t, s, s', plan.filters, crs, WithAncestors(db, q.ancestors, plan.out)) && AllTags(body, t, tagged, plan.tagged)
    decreases q, 5
  {
    hide Good, Later, Clean, Flows, BodyTrace, Parts, MergeAncestors, PartsNamed, PartsPlan, AllTags, AncestorsNamed,
        AncestorFlows, Numbered, Sound, TagsFilter;
    var plan := PartsPlan(db, q.parts, direct, t.env[start]);
    var (crs1, tagged, body1, s1) := Parts(db, q.parts, start, direct, s);
    PartsFlows(db, q.parts, start, direct, s, t);
    FlowsFacts(body1, t, s, s1, plan.filters, crs1, plan.out);
    if q.ancestors != [] {
      var (body2, s2) := MergeAncestors(db, crs1, q.ancestors, s1);
      AncestorsSound(db, crs1, q.ancestors, s1);
      SoundFacts(db.model, body2, s1, s2);
      BindsKept(s1, s2);
      AncestorsFlow(db, crs1, q.ancestors, s1, BodyTrace(body1, t));
      TracePlus(body1, body2, t);
      AqlPieces.NotNumbered();
      FixedTags(body1, body1 + body2, t, tagged, plan.tagged, "merge_with_ancestor",
                WithAncestors(db, q.ancestors, plan.out));
    }
  }

  /** No tag is one of the fixed names. */
  lemma FixedTags(body: seq<Stmt>, more: seq<Stmt>, t: Trace, tags: seq<string>, flows: seq<Flow>, x: string, f: Flow)
    requires AllTags(body, t, tags, flows) && !Numbered(x) && x != ""
    requires BodyTrace(more, t).env == BodyTrace(body, t).env[x := f]
    ensures AllTags(more, t, tags, flows)
  {
    hide BodyTrace, Numbered;
    assert ReadAll(BodyTrace(more, t).env, tags) == ReadAll(BodyTrace(body, t).env, tags);
  }

  lemma {:induction false} QueryFlows(db: Db, q: Query, start: string, direct: bool, s: State, t: Trace)
    requires Good(s) && Clean(t.env, s) && start in t.env && WellNamed(db, q)
    ensures var (crs, body, s') := QueryString(db, q, start, direct, s);
            var plan := QueryPlan(db, q, direct, t.env[start]);
            Leaves(body, t, s, s', plan.filters, crs, plan.out)
    decreases q, 6
  {
    hide Good, Later, Clean, BodyTrace, Pipeline, NextCrs, PartsPlan, AllTags, Leaves, Combine, WellNamed, WithAncestors;
    var plan := PartsPlan(db, q.parts, direct, t.env[start]);
    var out := WithAncestors(db, q.ancestors, plan.out);
    var (crs, tagged, body, s2) := Pipeline(db, q, start, direct, s);
    PipelineFlows(db, q, start, direct, s, t);
    QueryShape(db, q, start, direct, s);
    hide QueryString;
    AggregateLeaves(q, body, crs, t, s, s2, plan.filters, out);
    TagsLeave(body, tagged, crs, t, s, s2, plan, out);
  }

  lemma AggregateLeaves(q: Query, body: seq<Stmt>, crs: string, t: Trace, s: State, s2: State, filters: seq<Flow>,
                        out: Flow)
    requires Leaves(body, t, s, s2, filters, crs, out)
    ensures var (nxt, s3) := NextCrs(s2, "m");
            var (agg, s4) := NextCrs(s3, "agg");
            var body3 := body + [Let("aggregated", [For(agg, crs, Each), Use([agg])])];
            && Leaves(body3, t, s, s4, filters, "aggregated", All(RowsOf(out)))
            && Leaves(body3 + [Let(nxt, [For("res", "aggregated", Each), Use(["res"])])], t, s, s4, filters, nxt,
                      All(RowsOf(out)))
  {
    hide Good, Later, BodyTrace, NextCrs, Numbered;
    var (nxt, s3) := NextCrs(s2, "m");
    NextCrsFresh(s2, "m");
    var (agg, s4) := NextCrs(s3, "agg");
    NextCrsFresh(s3, "agg");
    LoopTrace(body, "aggregated", agg, crs, t);
    LoopTrace(body + [Let("aggregated", [For(agg, crs, Each), Use([agg])])], nxt, "res", "aggregated", t);
  }

  /** LET x = (FOR y IN crs RETURN y) behind the rest. */
  lemma LoopTrace(body: seq<Stmt>, x: string, y: string, crs: string, t: Trace)
    requires crs in BodyTrace(body, t).env
    ensures var t1 := BodyTrace(body, t);
            BodyTrace(body + [Let(x, [For(y, crs, Each), Use([y])])], t) == t1.(env := t1.env[x := All(RowsOf(t1.env[crs]))])
  {
    hide BodyTrace;
    var t1 := BodyTrace(body, t);
    var inner := [For(y, crs, Each), Use([y])];
    TracePlus(body, [Let(x, inner)], t);
    TraceOne(Let(x, inner), t1);
    TraceTwo(For(y, crs, Each), Use([y]), t1.(out := Nothing));
    ReadOne(t1.env[y := RowsOf(t1.env[crs])], y);
  }

  lemma TagsLeave(body: seq<Stmt>, tagged: seq<string>, crs: string, t: Trace, s: State, s2: State, plan: Plan, out: Flow)
    requires Leaves(body, t, s, s2, plan.filters, crs, out) && AllTags(body, t, tagged, plan.tagged)
    ensures var (nxt, s3) := NextCrs(s2, "m");
            && (tagged == [] <==> plan.tagged == [])
            && if tagged == [] then Leaves(body, t, s, s3, plan.filters, crs, out)
               else Leaves(body + [Let(nxt, [Use(tagged + [crs])])], t, s, s3, plan.filters, nxt,
                           All(Combine(plan.tagged + [out])))
  {
    hide Good, Later, BodyTrace, NextCrs, Numbered;
    var (nxt, s3) := NextCrs(s2, "m");
    NextCrsFresh(s2, "m");
    var t1 := BodyTrace(body, t);
    var use := Use(tagged + [crs]);
    assert ReadAll(t1.env, tagged + [crs]) == ReadAll(t1.env, tagged) + [out];
    if tagged != [] {
      TracePlus(body, [Let(nxt, [use])], t);
      TraceOne(Let(nxt, [use]), t1);
      TraceOne(use, t1.(out := Nothing));
    }
  }

  /** The test that a sub-query starts with a navigation does not look for one, and lets a limit of 0 through: the
      first part runs a loop over the single row it starts with, or leaves that to the next part, unless it has a
      navigation and no limit at all. */
  lemma SubQueryStarts(db: Db, q: Query, from: Flow)
    requires StartsPlain(q) && !from.All?
    ensures var p := q.parts[|q.parts| - 1];
            var plan := PartPlan(db, p, true, from);
            plan.filters == [] && plan.out.All? <==> p.nav.Some? && p.limit == None
  {
  }

  /** Some filter is by a term that is refused, or stands for a sub-query that is. */
  predicate Refused(model: Model, filters: seq<Flow>) {
    exists f :: f in filters && (f == Nothing || (f.Kept? && Raises(model, f.term)))
  }

  lemma RefusedPlus(model: Model, a: seq<Flow>, f: Flow)
    ensures Refused(model, a + [f]) <==> Refused(model, a) || f == Nothing || (f.Kept? && Raises(model, f.term))
  {
    if Refused(model, a) {
      var g :| g in a && (g == Nothing || (g.Kept? && Raises(model, g.term)));
      assert g in a + [f];
    }
    assert f in a + [f];
  }

  lemma {:induction false} StmtRefused(model: Model, st: Stmt, t: Trace)
    ensures Refused(model, StmtTrace(st, t).filters) <==> Refused(model, t.filters) || StmtRaises(model, st)
    decreases st
  {
    hide Refused, Raises;
    match st
    case Let(_, inner) => BodyRefused(model, inner, t.(out := Nothing));
    case LetOf(_, uses) =>
      RefusedPlus(model, t.filters, Nothing);
      assert t.filters + [] == t.filters;
    case Filter(on, root, _, term) =>
      RefusedPlus(model, t.filters,
                  Kept(Read(t.env, on), if root.Some? then Some(Read(t.env, root.value)) else None, term));
    case _ =>
  }

  /** What raises in the text shows in its filters. */
  lemma {:induction false} BodyRefused(model: Model, body: seq<Stmt>, t: Trace)
    ensures Refused(model, BodyTrace(body, t).filters) <==> Refused(model, t.filters) || BodyRaises(model, body)
    decreases body
  {
    hide Refused, StmtRaises;
    if body != [] {
      StmtRefused(model, body[0], t);
      BodyRefused(model, body[1..], StmtTrace(body[0], t));
    }
  }

  /** For every query whose text is well scoped: the FILTERs of the text, at any depth and in their order, are
      those the query asks for, each with its own term and, followed through all variables, on the input it is
      meant for; the text returns what the query asks for; the query is refused exactly when one of these terms
      or a sub-query is; and if it is not, each FILTER lets through exactly the root of its with clause, if it
      stands in one, and the nodes that its term means, and each test of kinds has its own values. */
  lemma QueryFilters(db: Db, q: Query)
    requires WellNamed(db, q) && db.collection != "" && !Numbered(db.collection)
    ensures var (body, s) := ToQuery(db, q);
            var t := BodyTrace(body, Trace([], map[db.collection := All(Vertices)], Nothing));
            var plan := QueryPlan(db, q, false, All(Vertices));
            && t.filters == plan.filters && t.out == RowsOf(plan.out)
            && (s.c.error <==> Refused(db.model, plan.filters))
            && (!s.c.error ==> AllSelect(db.model, s.c.binds, body))
  {
    hide Good, QueryString, QueryPlan, WellNamed, BodyTrace, Numbered, AllSelect, BodyRaises, Raises;
    var s0 := State(Compiled(map[], map[], false), {});
    StartGood();
    var t := Trace([], map[db.collection := All(Vertices)], Nothing);
    QueryFlows(db, q, db.collection, false, s0, t);
    var (crs, body, s) := QueryString(db, q, db.collection, false, s0);
    ReturnTrace(body, "result", crs, t, QueryPlan(db, q, false, All(Vertices)).out);
    QuerySelects(db, q);
    BodyRefused(db.model, ToQuery(db, q).0, t);
  }
}
