/** What the filters of a whole query select: each FILTER in the compiled text, however deep in merges and
    sub-queries, selects exactly the nodes that its term means, and inside a with clause its root, under the
    bind variables of the finished query. Which filters there are is the subject of AqlFlows. */
module AqlSelections {
  import opened Aql
  import opened AqlTerms
  import opened AqlQueries
  import opened Options

  /** What a FILTER lets through: the node of the root key if there is a root, and what the expression
      selects. */
  predicate Passes(fns: Functions, binds: Binds, rooted: bool, key: string, node: Node, e: Expr) {
    (rooted && node.key == key) || Eval(fns, binds, node, e)
  }

  /** Under these bind variables, and whatever is bound later, the FILTER means the root or the term. */
  ghost predicate Selects(model: Model, binds: Binds, rooted: bool, e: Expr, t: Term) {
    forall final, node, key :: Extends(binds, final) && WellTyped(model, node) && Safe(model, t)
      ==> (Passes(model.fns, final, rooted, key, node, e) <==> (rooted && node.key == key) || Means(model, t, node))
  }

  /** The placeholders have these values. */
  predicate AllBound(binds: Binds, names: seq<string>, values: seq<Value>)
    requires |names| == |values|
  {
    forall i :: 0 <= i < |names| ==> names[i] in binds && binds[names[i]] == values[i]
  }

  ghost predicate StmtSelects(model: Model, binds: Binds, st: Stmt)
    decreases st
  {
    match st
    case Let(_, inner) => AllSelect(model, binds, inner)
    case Filter(_, root, e, t) => Selects(model, binds, root.Some?, e, t)
    case Kinds(_, names, values) => |names| == |values| && AllBound(binds, names, values)
    case _ => true
  }

  /** So does every FILTER in the statements. */
  ghost predicate AllSelect(model: Model, binds: Binds, body: seq<Stmt>)
    decreases body
  {
    body == [] || (StmtSelects(model, binds, body[0]) && AllSelect(model, binds, body[1..]))
  }

  lemma {:induction false} AllSelectPlus(model: Model, binds: Binds, a: seq<Stmt>, b: seq<Stmt>)
    ensures AllSelect(model, binds, a + b) <==> AllSelect(model, binds, a) && AllSelect(model, binds, b)
  {
    if a == [] {
      assert a + b == b;
    } else {
      hide StmtSelects;
      assert (a + b)[0] == a[0] && (a + b)[1..] == a[1..] + b;
      AllSelectPlus(model, binds, a[1..], b);
    }
  }

  lemma AllSelectOne(model: Model, binds: Binds, st: Stmt)
    ensures AllSelect(model, binds, [st]) <==> StmtSelects(model, binds, st)
  {
    hide StmtSelects;
    assert [st][1..] == [];
  }

  lemma SelectsLater(model: Model, binds: Binds, more: Binds, rooted: bool, e: Expr, t: Term)
    requires Selects(model, binds, rooted, e, t) && Extends(binds, more)
    ensures Selects(model, more, rooted, e, t)
  {
    hide Passes;
    forall final | Extends(more, final)
      ensures Extends(binds, final)
    {
      ExtendsTrans(binds, more, final);
    }
  }

  lemma BoundLater(binds: Binds, more: Binds, names: seq<string>, values: seq<Value>)
    requires |names| == |values| && AllBound(binds, names, values) && Extends(binds, more)
    ensures AllBound(more, names, values)
  {
  }

  lemma {:induction false} StmtSelectsLater(model: Model, binds: Binds, more: Binds, st: Stmt)
    requires StmtSelects(model, binds, st) && Extends(binds, more)
    ensures StmtSelects(model, more, st)
    decreases st
  {
    hide Extends, Selects;
    match st
    case Let(_, inner) => AllSelectLater(model, binds, more, inner);
    case Filter(_, root, e, t) => SelectsLater(model, binds, more, root.Some?, e, t);
    case Kinds(_, names, values) => BoundLater(binds, more, names, values);
    case _ =>
  }

  lemma {:induction false} AllSelectLater(model: Model, binds: Binds, more: Binds, body: seq<Stmt>)
    requires AllSelect(model, binds, body) && Extends(binds, more)
    ensures AllSelect(model, more, body)
    decreases body
  {
    if body != [] {
      hide Extends, StmtSelects;
      StmtSelectsLater(model, binds, more, body[0]);
      AllSelectLater(model, binds, more, body[1..]);
    }
  }

  /** A filter by a term that is refused, or a sub-query that is. */
  predicate StmtRaises(model: Model, st: Stmt)
    decreases st
  {
    match st
    case Let(_, inner) => BodyRaises(model, inner)
    case LetOf(_, uses) => uses == []
    case Filter(_, _, _, t) => Raises(model, t)
    case _ => false
  }

  predicate BodyRaises(model: Model, body: seq<Stmt>)
    decreases body
  {
    body != [] && (StmtRaises(model, body[0]) || BodyRaises(model, body[1..]))
  }

  lemma {:induction false} RaisesPlus(model: Model, a: seq<Stmt>, b: seq<Stmt>)
    ensures BodyRaises(model, a + b) <==> BodyRaises(model, a) || BodyRaises(model, b)
  {
    if a == [] {
      assert a + b == b;
    } else {
      hide StmtRaises;
      assert (a + b)[0] == a[0] && (a + b)[1..] == a[1..] + b;
      RaisesPlus(model, a[1..], b);
    }
  }

  lemma RaisesOne(model: Model, st: Stmt)
    ensures BodyRaises(model, [st]) <==> StmtRaises(model, st)
  {
    hide StmtRaises;
    assert [st][1..] == [];
  }

  // ----- what every piece of the compiler promises -----

  /** From `s` to `s'` names and bindings are only added, an error is raised exactly where a term or a
      sub-query is refused and, unless there is one, every filter of the statements means its term. */
  ghost predicate Sound(model: Model, body: seq<Stmt>, s: State, s': State) {
    && Good(s') && Later(s, s')
    && (s'.c.error <==> s.c.error || BodyRaises(model, body))
    && (!s'.c.error ==> AllSelect(model, s'.c.binds, body))
  }

  lemma SoundNothing(model: Model, s: State)
    requires Good(s)
    ensures Sound(model, [], s, s)
  {
    hide Good;
  }

  /** next_crs and the other steps that emit nothing. */
  lemma SoundStep(model: Model, s: State, s1: State, s2: State, body: seq<Stmt>)
    requires Good(s1) && Later(s, s1) && s1.c.error == s.c.error && Sound(model, body, s1, s2)
    ensures Sound(model, body, s, s2)
  {
    hide Good, AllSelect;
    LaterTrans(s, s1, s2);
  }

  lemma SoundSeq(model: Model, a: seq<Stmt>, b: seq<Stmt>, s: State, s1: State, s2: State)
    requires Sound(model, a, s, s1) && Sound(model, b, s1, s2)
    ensures Sound(model, a + b, s, s2)
  {
    hide Good, AllSelect, BodyRaises;
    LaterTrans(s, s1, s2);
    RaisesPlus(model, a, b);
    if !s2.c.error {
      AllSelectLater(model, s1.c.binds, s2.c.binds, a);
      AllSelectPlus(model, s2.c.binds, a, b);
    }
  }

  /** A statement without filters. */
  lemma SoundPlain(model: Model, st: Stmt, s: State, s': State)
    requires Good(s') && Later(s, s') && !st.Let? && !st.Filter? && !st.Kinds?
    requires s'.c.error <==> s.c.error || StmtRaises(model, st)
    ensures Sound(model, [st], s, s')
  {
    hide Good, Later, AllSelect, BodyRaises;
    RaisesOne(model, st);
    AllSelectOne(model, s'.c.binds, st);
  }

  lemma SoundLet(model: Model, x: string, inner: seq<Stmt>, s: State, s': State)
    requires Sound(model, inner, s, s')
    ensures Sound(model, [Let(x, inner)], s, s')
  {
    hide Good, Later, AllSelect, BodyRaises;
    RaisesOne(model, Let(x, inner));
    AllSelectOne(model, s'.c.binds, Let(x, inner));
  }

  /** A loop before and a RETURN after do not filter. */
  lemma SoundAround(model: Model, before: Stmt, body: seq<Stmt>, after: Stmt, s: State, s': State)
    requires Good(s) && Sound(model, body, s, s')
    requires !before.Let? && !before.Filter? && !before.Kinds? && !StmtRaises(model, before)
    requires !after.Let? && !after.Filter? && !after.Kinds? && !StmtRaises(model, after)
    ensures Sound(model, [before] + body + [after], s, s') && Sound(model, [before] + body, s, s')
    ensures Sound(model, body + [after], s, s')
  {
    hide Good, Later;
    SameLater(s);
    SameLater(s');
    SoundPlain(model, before, s, s);
    SoundPlain(model, after, s', s');
    SoundSeq(model, [before], body, s, s, s');
    SoundSeq(model, body, [after], s, s', s');
    SoundSeq(model, [before] + body, [after], s, s', s');
  }

  lemma SoundTerm(model: Model, on: string, root: Option<string>, t: Term, s: State)
    requires Good(s)
    ensures var (e, c) := CompileTerm(model, t, s.c);
            Sound(model, [Filter(on, root, e, t)], s, s.(c := c))
  {
    hide Good, Later, CompileTerm, AllSelect, Extends, BodyRaises;
    var (e, c) := CompileTerm(model, t, s.c);
    TermLater(model, t, s);
    TermRaises(model, t, s.c);
    RaisesOne(model, Filter(on, root, e, t));
    if !c.error {
      TermSelects(model, root.Some?, t, s);
      AllSelectOne(model, c.binds, Filter(on, root, e, t));
    }
  }

  lemma TermSelects(model: Model, rooted: bool, t: Term, s: State)
    requires Good(s) && !CompileTerm(model, t, s.c).1.error
    ensures Selects(model, CompileTerm(model, t, s.c).1.binds, rooted, CompileTerm(model, t, s.c).0, t)
  {
    hide CompileTerm, Extends, Named, WellTyped, Eval, Means, Safe;
    var (e, c) := CompileTerm(model, t, s.c);
    forall final, node | Extends(c.binds, final) && WellTyped(model, node) && Safe(model, t)
      ensures Eval(model.fns, final, node, e) <==> Means(model, t, node)
    {
      FilterSelects(model, t, s.c, final, node);
    }
  }

  // ----- the pieces -----

  lemma FilterSound(model: Model, p: Part, cursor: string, t: Term, s: State)
    requires Good(s)
    ensures var (_, body, s') := FilterStatement(model, p, cursor, t, s); Sound(model, body, s, s')
  {
    hide Good, Later, Sound, CompileTerm, NextCrs;
    if !Filters(p, t) {
      SoundNothing(model, s);
    } else {
      var (crsr, s1) := NextCrs(s, "m");
      var (filtered, s2) := NextCrs(s1, "filter");
      NextCrsFresh(s, "m");
      NextCrsFresh(s1, "filter");
      LaterTrans(s, s1, s2);
      var (e, c) := CompileTerm(model, t, s2.c);
      SoundTerm(model, crsr, None, t, s2);
      SoundAround(model, For(crsr, cursor, Each), [Filter(crsr, None, e, t)], Use([crsr]), s2, s2.(c := c));
      var inner := [For(crsr, cursor, Each), Filter(crsr, None, e, t), Use([crsr])];
      assert inner == [For(crsr, cursor, Each)] + [Filter(crsr, None, e, t)] + [Use([crsr])];
      SoundLet(model, filtered, inner, s2, s2.(c := c));
      SoundStep(model, s, s2, s2.(c := c), [Let(filtered, inner)]);
    }
  }

  lemma {:induction false} TraversalSound(model: Model, current: nat, cl: WithClause, cursor: string, depth: nat,
      s: State)
    requires Good(s) && Above(s, current, depth)
    ensures var (body, s') := TraversalFilter(model, current, cl, cursor, depth, s); Sound(model, body, s, s')
    decreases cl
  {
    hide Good, Later, Sound, CompileTerm, Above, WithCrs, Issue, WithTerm;
    var crsr, root := WithCrs(current, depth), Some(WithCrs(current, 0));
    var s1 := Issue(s, crsr);
    IssueFresh(s, current, depth);
    Issuing(s, crsr);
    var (e, c) := CompileTerm(model, WithTerm(cl), s1.c);
    var s2 := s1.(c := c);
    var hops := Hops(0, cl.nav.until, Towards(cl.nav.direction), cl.nav.edgeType);
    var head := [For(crsr, cursor, hops), Filter(crsr, root, e, WithTerm(cl))];
    SoundLoop(model, For(crsr, cursor, hops), crsr, root, WithTerm(cl), s1);
    SoundFacts(model, head, s1, s2);
    SoundStep(model, s, s1, s2, head);
    if cl.inner.Some? {
      AboveLater(s1, s2, current, depth + 1);
      TraversalSound(model, current, cl.inner.value, crsr, depth + 1, s2);
      var (rest, s3) := TraversalFilter(model, current, cl.inner.value, crsr, depth + 1, s2);
      SoundSeq(model, head, rest, s, s2, s3);
    } else {
      assert TraversalFilter(model, current, cl, cursor, depth, s).0 == head;
    }
  }

  lemma SoundLoop(model: Model, loop: Stmt, on: string, root: Option<string>, t: Term, s: State)
    requires Good(s) && loop.For?
    ensures var (e, c) := CompileTerm(model, t, s.c);
            Sound(model, [loop, Filter(on, root, e, t)], s, s.(c := c))
  {
    hide Good, Later, Sound, CompileTerm;
    var (e, c) := CompileTerm(model, t, s.c);
    SoundTerm(model, on, root, t, s);
    SoundAround(model, loop, [Filter(on, root, e, t)], Use([]), s, s.(c := c));
    assert [loop] + [Filter(on, root, e, t)] == [loop, Filter(on, root, e, t)];
  }

  lemma SoundFacts(model: Model, body: seq<Stmt>, s: State, s': State)
    requires Sound(model, body, s, s')
    ensures Good(s') && Later(s, s')
  {
    hide Good, Later;
  }

  lemma WithSound(model: Model, cursor: string, cl: WithClause, s: State)
    requires Good(s)
    ensures var (_, body, s') := WithStatement(model, cursor, cl, s); Sound(model, body, s, s')
  {
    hide Good, Later, Sound, Above, WithCrs, Issue, NextCrs, NextCounter, TraversalFilter, WithCursors;
    var (current, s1) := NextCounter(s, "with_clause");
    NextWith(s);
    var l0 := WithCrs(current, 0);
    var s2 := Issue(s1, l0);
    IssueFresh(s1, current, 0);
    Issuing(s1, l0);
    LaterTrans(s, s1, s2);
    var (out, s3) := NextCrs(s2, "m");
    NextCrsFresh(s2, "m");
    LaterTrans(s, s2, s3);
    AboveNext(s2, "m", current, 1);
    TraversalSound(model, current, cl, l0, 1, s3);
    var (body, s4) := TraversalFilter(model, current, cl, l0, 1, s3);
    var inner := [For(l0, cursor, Each)] + body + [Use([l0] + WithCursors(current, cl, 1))];
    SoundAround(model, For(l0, cursor, Each), body, Use([l0] + WithCursors(current, cl, 1)), s3, s4);
    SoundLet(model, out, inner, s3, s4);
    SoundStep(model, s, s3, s4, [Let(out, inner)]);
  }

  lemma InOutSound(model: Model, cursor: string, hops: Steps, direct: bool, edges: bool, s: State)
    requires Good(s)
    ensures var (_, body, s') := InOut(cursor, hops, direct, edges, s); Sound(model, body, s, s') && Good(s')
  {
    hide Good, Later, Sound, NextCrs;
    var (inC, s1) := NextCrs(s, "io_in");
    var (out, s2) := NextCrs(s1, "io_out");
    var (outCrsr, s3) := NextCrs(s2, "io_crs");
    var (link, s4) := NextCrs(s3, "io_link");
    NextCrsFresh(s, "io_in");
    NextCrsFresh(s1, "io_out");
    NextCrsFresh(s2, "io_crs");
    NextCrsFresh(s3, "io_link");
    LaterTrans(s, s1, s2);
    LaterTrans(s, s2, s3);
    LaterTrans(s, s3, s4);
    var source := if direct then cursor else inC;
    var a := if direct then [] else [For(inC, cursor, Each)];
    var b := if edges then [For(link, source, hops), Use([link])] else [];
    InOutNoFilter(model, a, b, For(outCrsr, source, hops), Use([outCrsr]), s4);
    var all := a + [For(outCrsr, source, hops)] + b + [Use([outCrsr])];
    SoundLet(model, out, all, s4, s4);
    SoundStep(model, s, s4, s4, [Let(out, all)]);
  }

  lemma InOutNoFilter(model: Model, a: seq<Stmt>, b: seq<Stmt>, c: Stmt, d: Stmt, s: State)
    requires Good(s) && c.For? && d.Use? && |a| <= 1 && (a == [] || a[0].For?)
    requires b == [] || (|b| == 2 && b[0].For? && b[1].Use?)
    ensures Sound(model, a + [c] + b + [d], s, s)
  {
    hide Good, AllSelect, StmtSelects;
    SameLater(s);
    NoFilters(model, s.c.binds, a + [c] + b + [d]);
  }

  lemma {:induction false} NoFilters(model: Model, binds: Binds, body: seq<Stmt>)
    requires forall i :: 0 <= i < |body| ==>
               !body[i].Let? && !body[i].Filter? && !body[i].Kinds? && !StmtRaises(model, body[i])
    ensures AllSelect(model, binds, body) && !BodyRaises(model, body)
  {
    if body != [] {
      NoFilters(model, binds, body[1..]);
    }
  }

  lemma NavigateSound(model: Model, cursor: string, nav: Navigation, direct: bool, edges: bool, s: State)
    requires Good(s)
    ensures var (_, body, s') := Navigate(cursor, nav, direct, edges, s); Sound(model, body, s, s')
  {
    hide Good, Later, Sound, InOut, NextCrs;
    if nav.direction != Both_ {
      InOutSound(model, cursor, Hops(nav.start, nav.until, nav.direction, nav.edgeType), direct, edges, s);
    } else {
      var hops := Hops(nav.start, nav.until, Inbound, nav.edgeType);
      var (first, body1, s1) := InOut(cursor, hops, direct, edges, s);
      InOutSound(model, cursor, hops, direct, edges, s);
      var (second, body2, s2) := InOut(cursor, OutHops(nav), direct, edges, s1);
      InOutSound(model, cursor, OutHops(nav), direct, edges, s1);
      SoundSeq(model, body1, body2, s, s1, s2);
      var (both, s3) := NextCrs(s2, "m");
      NextCrsFresh(s2, "m");
      SoundPlain(model, LetOf(both, [first, second]), s2, s3);
      SoundSeq(model, body1 + body2, [LetOf(both, [first, second])], s, s2, s3);
    }
  }

  lemma {:induction false} MergeOneSound(db: Db, cursor: string, q: Query, s: State)
    requires Good(s)
    ensures var (_, one, s') := MergeOne(db, cursor, q, s); Sound(db.model, [one], s, s')
    decreases q, 7
  {
    hide Good, Later, Sound, NextCrs, QueryString, AlreadyResolved, StartsWithNavigation;
    var (partRes, s1) := NextCrs(s, "part_res");
    NextCrsFresh(s, "part_res");
    var kind := AlreadyResolved(db.resolved, q);
    if kind.Some? {
      SoundPlain(db.model, LetRef(partRes, cursor, kind.value), s, s1);
    } else if !StartsWithNavigation(q) {
      FailLater(s1);
      LaterTrans(s, s1, Fail(s1));
      SoundPlain(db.model, LetOf(partRes, []), s, Fail(s1));
    } else {
      var (_, s2) := NextCrs(s1, "merge_part");
      NextCrsFresh(s1, "merge_part");
      LaterTrans(s, s1, s2);
      var (crs, body, s3) := QueryString(db, q, cursor, true, s2);
      QuerySound(db, q, cursor, true, s2);
      SoundAround(db.model, Use([]), body, For("r", crs, Each), s2, s3);
      SoundFacts(db.model, body, s2, s3);
      SameLater(s3);
      SoundPlain(db.model, Use(["r"]), s3, s3);
      var inner := body + [For("r", crs, Each), Use(["r"])];
      SoundSeq(db.model, body + [For("r", crs, Each)], [Use(["r"])], s2, s3, s3);
      assert inner == body + [For("r", crs, Each)] + [Use(["r"])];
      SoundLet(db.model, partRes, inner, s2, s3);
      SoundStep(db.model, s, s2, s3, [Let(partRes, inner)]);
    }
  }

  lemma {:induction false} MergeAllSound(db: Db, cursor: string, merges: seq<Query>, s: State)
    requires Good(s)
    ensures var (_, body, s') := MergeAll(db, cursor, merges, s); Sound(db.model, body, s, s')
    decreases merges, 1
  {
    hide Good, Later, Sound, MergeOne;
    if merges == [] {
      SoundNothing(db.model, s);
    } else {
      var (_, one, s1) := MergeOne(db, cursor, merges[0], s);
      MergeOneSound(db, cursor, merges[0], s);
      SoundFacts(db.model, [one], s, s1);
      MergeAllSound(db, cursor, merges[1..], s1);
      var (_, rest, s2) := MergeAll(db, cursor, merges[1..], s1);
      SoundSeq(db.model, [one], rest, s, s1, s2);
    }
  }

  lemma {:induction false} MergeSound(db: Db, cursor: string, merges: seq<Query>, s: State)
    requires Good(s)
    ensures var (_, body, s') := MergeStatement(db, cursor, merges, s); Sound(db.model, body, s, s')
    decreases merges, 2
  {
    hide Good, Later, Sound, MergeAll, NextCrs;
    var (result, s1) := NextCrs(s, "merge_result");
    var (m, s2) := NextCrs(s1, "m");
    NextCrsFresh(s, "merge_result");
    NextCrsFresh(s1, "m");
    LaterTrans(s, s1, s2);
    var (names, body, s3) := MergeAll(db, m, merges, s2);
    MergeAllSound(db, m, merges, s2);
    SoundAround(db.model, For(m, cursor, Each), body, Use([m] + names), s2, s3);
    var inner := [For(m, cursor, Each)] + body + [Use([m] + names)];
    SoundLet(db.model, result, inner, s2, s3);
    SoundStep(db.model, s, s2, s3, [Let(result, inner)]);
  }

  lemma {:induction false} TermSound(db: Db, p: Part, cursor: string, s: State)
    requires Good(s)
    ensures var (_, _, body, s') := TermStatement(db, p, cursor, s); Sound(db.model, body, s, s')
    decreases p, 3
  {
    hide Good, Later, Sound, FilterStatement, MergeStatement;
    match p.term
    case Simple(t) => FilterSound(db.model, p, cursor, t, s);
    case Merge(pre, merges, post) =>
      var (crs1, body1, s1) := FilterStatement(db.model, p, cursor, pre, s);
      FilterSound(db.model, p, cursor, pre, s);
      SoundFacts(db.model, body1, s, s1);
      var (crs2, body2, s2) := MergeStatement(db, crs1, merges, s1);
      MergeSound(db, crs1, merges, s1);
      SoundFacts(db.model, body2, s1, s2);
      var t := if post.Some? then post.value else AllTerm;
      var (crs3, body3, s3) := FilterStatement(db.model, p, crs2, t, s2);
      FilterSound(db.model, p, crs2, t, s2);
      SoundSeq(db.model, body1, body2, s, s1, s2);
      SoundSeq(db.model, body1 + body2, body3, s, s2, s3);
  }

  lemma {:induction false} PartSound(db: Db, p: Part, cursor: string, direct: bool, s: State)
    requires Good(s)
    ensures var (_, _, body, s') := PartStatement(db, p, cursor, direct, s); Sound(db.model, body, s, s')
    decreases p, 4
  {
    hide Good, Later, Sound, TermStatement, WithStatement, Navigate;
    var (crs1, _, body1, s1) := TermStatement(db, p, cursor, s);
    TermSound(db, p, cursor, s);
    SoundFacts(db.model, body1, s, s1);
    var (crs2, body2, s2) := if p.withClause.Some? then WithStatement(db.model, crs1, p.withClause.value, s1)
                             else (crs1, [], s1);
    if p.withClause.Some? {
      WithSound(db.model, crs1, p.withClause.value, s1);
    } else {
      SoundNothing(db.model, s1);
    }
    SoundFacts(db.model, body2, s1, s2);
    SoundSeq(db.model, body1, body2, s, s1, s2);
    var (_, body3, s3) := if p.nav.Some? then Navigate(crs2, p.nav.value, direct, db.edges, s2)
                          else (crs2, [], s2);
    if p.nav.Some? {
      NavigateSound(db.model, crs2, p.nav.value, direct, db.edges, s2);
    } else {
      SoundNothing(db.model, s2);
    }
    SoundSeq(db.model, body1 + body2, body3, s, s2, s3);
  }

  lemma {:induction false} PartsSound(db: Db, parts: seq<Part>, cursor: string, direct: bool, s: State)
    requires Good(s)
    ensures var (_, _, body, s') := Parts(db, parts, cursor, direct, s); Sound(db.model, body, s, s')
    decreases parts, 5
  {
    hide Good, Later, Sound, PartStatement;
    if parts == [] {
      SoundNothing(db.model, s);
    } else {
      var last := |parts| - 1;
      var (crs1, _, body1, s1) := PartStatement(db, parts[last], cursor, direct, s);
      PartSound(db, parts[last], cursor, direct, s);
      SoundFacts(db.model, body1, s, s1);
      PartsSound(db, parts[..last], crs1, false, s1);
      var (_, _, body2, s2) := Parts(db, parts[..last], crs1, false, s1);
      SoundSeq(db.model, body1, body2, s, s1, s2);
    }
  }

  // ----- ancestors -----

  lemma NodeSound(model: Model, x: string, source: string, how: Steps, params: seq<string>, values: seq<Value>, s: State)
    requires Good(s) && |params| == |values| && AllBound(s.c.binds, params, values)
    ensures Sound(model, [Let(x, [For("p", source, how), Kinds("p", params, values), Use(["p"])])], s, s)
  {
    hide Good, AllSelect, BodyRaises, Sound;
    var kinds := Kinds("p", params, values);
    SameLater(s);
    AllSelectOne(model, s.c.binds, kinds);
    RaisesOne(model, kinds);
    assert Sound(model, [kinds], s, s) by { KindsSound(model, kinds, s); }
    SoundAround(model, For("p", source, how), [kinds], Use(["p"]), s, s);
    var inner := [For("p", source, how), kinds, Use(["p"])];
    assert inner == [For("p", source, how)] + [kinds] + [Use(["p"])];
    SoundLet(model, x, inner, s, s);
  }

  lemma KindsSound(model: Model, st: Stmt, s: State)
    requires Good(s) && AllSelect(model, s.c.binds, [st]) && !BodyRaises(model, [st])
    ensures Sound(model, [st], s, s)
  {
    hide Good, AllSelect, BodyRaises;
    SameLater(s);
  }

  lemma {:induction false} BindEachSound(model: Model, names: seq<string>, s: State)
    requires Good(s)
    ensures var (body, s') := BindEach(names, s); Sound(model, body, s, s')
    decreases |names|
  {
    hide Good, Later, Sound, BindName;
    if names == [] {
      SoundNothing(model, s);
    } else {
      var (bv, s1) := BindName(s, Str(names[0]));
      BindLater(s, Str(names[0]));
      NodeSound(model, names[0], "ancestor_nodes", Each, [bv], [Str(names[0])], s1);
      BindEachSound(model, names[1..], s1);
      var (rest, s2) := BindEach(names[1..], s1);
      var one := [Let(names[0], [For("p", "ancestor_nodes", Each), Kinds("p", [bv], [Str(names[0])]), Use(["p"])])];
      SoundSeq(model, one, rest, s1, s1, s2);
      SoundStep(model, s, s1, s2, one + rest);
    }
  }

  lemma StillBound(s: State, s': State, name: string, v: Value)
    requires Later(s, s') && name in s.c.binds && s.c.binds[name] == v
    ensures name in s'.c.binds && s'.c.binds[name] == v
  {
  }

  lemma LookUpSound(model: Model, names: seq<string>, s: State)
    requires Good(s)
    ensures var (body, s') := LookUp(names, s); Sound(model, body, s, s')
  {
    hide Good, Later, Sound, BindName, BindEach;
    if names == [] {
      SoundNothing(model, s);
    } else {
      var (stop, s1) := BindName(s, Str(names[0]));
      BindLater(s, Str(names[0]));
      var (nodes, s2) := BindName(s1, List(Strings(names)));
      BindLater(s1, List(Strings(names)));
      LaterTrans(s, s1, s2);
      StillBound(s1, s2, stop, Str(names[0]));
      NodeSound(model, "ancestor_nodes", "node", AncestorHops(), [stop, nodes], LookUpValues(names), s2);
      BindEachSound(model, names, s2);
      var (each, s3) := BindEach(names, s2);
      var one := [Let("ancestor_nodes", [For("p", "node", AncestorHops()), Kinds("p", [stop, nodes], LookUpValues(names)), Use(["p"])])];
      SoundSeq(model, one, each, s2, s2, s3);
      SoundStep(model, s, s2, s3, one + each);
    }
  }

  lemma AncestorsSound(db: Db, cursor: string, names: seq<string>, s: State)
    requires Good(s)
    ensures var (body, s') := MergeAncestors(db, cursor, names, s); Sound(db.model, body, s, s')
  {
    hide Good, Later, Sound, LookUp, Select, AllSelect;
    var up, here := Select(names, db.resolved, false), Documents(Select(names, db.resolved, true));
    var (looked, s1) := LookUp(up, s);
    LookUpSound(db.model, up, s);
    SoundFacts(db.model, looked, s, s1);
    DocumentsSound(db.model, here, s1);
    SoundSeq(db.model, looked, here, s, s1, s1);
    SoundAround(db.model, For("node", cursor, Each), looked + here, Use(["node"] + names), s, s1);
    var inner := [For("node", cursor, Each)] + looked + here + [Use(["node"] + names)];
    assert inner == [For("node", cursor, Each)] + (looked + here) + [Use(["node"] + names)];
    SoundLet(db.model, "merge_with_ancestor", inner, s, s1);
  }

  lemma DocumentsSound(model: Model, body: seq<Stmt>, s: State)
    requires Good(s) && forall i :: 0 <= i < |body| ==> body[i].LetRef?
    ensures Sound(model, body, s, s)
  {
    hide Good, AllSelect;
    SameLater(s);
    NoFilters(model, s.c.binds, body);
  }

  // ----- whole queries -----

  lemma PipelineSound(db: Db, q: Query, start: string, direct: bool, s: State)
    requires Good(s)
    ensures var (_, _, body, s') := Pipeline(db, q, start, direct, s); Sound(db.model, body, s, s')
    decreases q, 5
  {
    hide Good, Later, Sound, Parts, MergeAncestors;
    var (crs1, _, body1, s1) := Parts(db, q.parts, start, direct, s);
    PartsSound(db, q.parts, start, direct, s);
    if q.ancestors != [] {
      SoundFacts(db.model, body1, s, s1);
      var (body2, s2) := MergeAncestors(db, crs1, q.ancestors, s1);
      AncestorsSound(db, crs1, q.ancestors, s1);
      SoundSeq(db.model, body1, body2, s, s1, s2);
    }
  }

  lemma {:induction false} QuerySound(db: Db, q: Query, start: string, direct: bool, s: State)
    requires Good(s)
    ensures var (_, body, s') := QueryString(db, q, start, direct, s); Sound(db.model, body, s, s')
    decreases q, 6
  {
    hide Good, Later, Sound, Pipeline, NextCrs;
    var (crs, tagged, body, s2) := Pipeline(db, q, start, direct, s);
    PipelineSound(db, q, start, direct, s);
    SoundFacts(db.model, body, s, s2);
    var (nxt, s3) := NextCrs(s2, "m");
    NextCrsFresh(s2, "m");
    var (agg, s4) := NextCrs(s3, "agg");
    NextCrsFresh(s3, "agg");
    LaterTrans(s2, s3, s4);
    QueryShape(db, q, start, direct, s);
    hide QueryString;
    SoundLast(db.model, body, s, s2, s3, "", []);
    SoundLast(db.model, body, s, s2, s3, nxt, [Use(tagged + [crs])]);
    SoundLast(db.model, body, s, s2, s4, "aggregated", [For(agg, crs, Each), Use([agg])]);
    var aggregated := body + [Let("aggregated", [For(agg, crs, Each), Use([agg])])];
    SameLater(s4);
    SoundLast(db.model, aggregated, s, s4, s4, nxt, [For("res", "aggregated", Each), Use(["res"])]);
  }

  /** A last LET without filters. */
  lemma SoundLast(model: Model, body: seq<Stmt>, s: State, s1: State, s2: State, x: string, inner: seq<Stmt>)
    requires Sound(model, body, s, s1) && Good(s2) && Later(s1, s2)
    requires forall i :: 0 <= i < |inner| ==>
               !inner[i].Let? && !inner[i].Filter? && !inner[i].Kinds? && !StmtRaises(model, inner[i])
    requires s2.c.error == s1.c.error
    ensures Sound(model, body, s, s2) && Sound(model, body + [Let(x, inner)], s, s2)
  {
    hide Good, Later, AllSelect;
    assert Sound(model, [], s1, s2) by { NoFilters(model, s2.c.binds, []); }
    SoundSeq(model, body, [], s, s1, s2);
    assert body + [] == body;
    assert Sound(model, inner, s1, s2) by { NoFilters(model, s2.c.binds, inner); }
    SoundLet(model, x, inner, s1, s2);
    SoundSeq(model, body, [Let(x, inner)], s, s1, s2);
  }

  /** A query is refused exactly when a term in its text or one of its sub-queries is. If it compiles, every
      FILTER in its text, at any depth, selects exactly the nodes its term means, and the root of a with clause,
      and every test of kinds its values, under the bind variables that go with the text. */
  lemma QuerySelects(db: Db, q: Query)
    ensures var (body, s) := ToQuery(db, q);
            && (s.c.error <==> BodyRaises(db.model, body))
            && (!s.c.error ==> AllSelect(db.model, s.c.binds, body))
  {
    hide Good, Later, QueryString, AllSelect, StmtSelects, BodyRaises;
    var s0 := State(Compiled(map[], map[], false), {});
    StartGood();
    var (crs, body, s) := QueryString(db, q, db.collection, false, s0);
    QuerySound(db, q, db.collection, false, s0);
    var tail := [For("result", crs, Each), Use(["result"])];
    NoFilters(db.model, s.c.binds, tail);
    AllSelectPlus(db.model, s.c.binds, body, tail);
    RaisesPlus(db.model, body, tail);
  }
}
