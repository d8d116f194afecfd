/** The statements of one piece of a query, a filter, a navigation, a with clause or the ancestors, fit where they
    are put: what they declare is new, what they use is in scope, and what they bind stays bound. */
module AqlPieces {
  import opened Aql
  import opened AqlTerms
  import opened Options
  import opened Decimal
  import opened AqlQueries

  /** From `vars` in scope, all issued by `s`, the statements declare only names issued since, or in
      `extra`, each once; every placeholder is bound; the resulting cursor is in scope; and the statements are well
      scoped exactly when `ok`. */
  ghost predicate Fits(body: seq<Stmt>, vars: set<string>, collection: string, s: State, s': State,
                       result: string, extra: set<string>, ok: bool)
  {
    && Good(s') && Later(s, s')
    && Declared(body) <= (s'.issued - s.issued) + extra
    && ParamsOf(body) <= s'.c.binds.Keys
    && Once(body, s'.issued - s.issued)
    && result in vars + Declared(body) + {collection}
    && (Scoped(body, vars, collection) <==> ok)
  }

  lemma FitsNothing(vars: set<string>, collection: string, s: State, result: string)
    requires Good(s) && result in vars + {collection}
    ensures Fits([], vars, collection, s, s, result, {}, true)
  {
    hide Good;
  }

  lemma FitsSeq(a: seq<Stmt>, b: seq<Stmt>, vars: set<string>, collection: string,
                s: State, s1: State, s2: State, r1: string, r2: string, extra: set<string>, ok1: bool, ok2: bool)
    requires Fits(a, vars, collection, s, s1, r1, extra, ok1)
    requires Fits(b, vars + Declared(a), collection, s1, s2, r2, extra, ok2)
    ensures Fits(a + b, vars, collection, s, s2, r2, extra, ok1 && ok2)
  {
    hide Good, Scoped, ParamsOf, Declared, Cursors;
    ScopedPlus(a, b, vars, collection);
    LaterTrans(s, s1, s2);
  }

  lemma FilterFits(model: Model, p: Part, cursor: string, t: Term, s: State, vars: set<string>, collection: string)
    requires Good(s) && vars <= s.issued && cursor in vars + {collection}
    ensures var (crs, body, s') := FilterStatement(model, p, cursor, t, s);
            && Fits(body, vars, collection, s, s', crs, {}, true)
            && (Filters(p, t) ==> crs in s'.issued && crs in vars + Declared(body))
  {
    hide Good, Later, CompileTerm;
    if !Filters(p, t) {
      FitsNothing(vars, collection, s, cursor);
    } else {
      var (crsr, s1) := NextCrs(s, "m");
      var (filtered, s2) := NextCrs(s1, "filter");
      var (e, c) := CompileTerm(model, t, s2.c);
      NextCrsFresh(s, "m");
      NextCrsFresh(s1, "filter");
      TermLater(model, t, s2);
      LaterTrans(s, s1, s2);
      LaterTrans(s, s2, s2.(c := c));
      hide NextCrs;
      var inner := [For(crsr, cursor, Each), Filter(crsr, None, e, t), Use([crsr])];
      FilterScoped(crsr, cursor, e, t, vars, collection);
      LetFits(filtered, inner, vars, collection, s, s2.(c := c), true);
    }
  }

  lemma FilterScoped(crsr: string, cursor: string, e: Expr, t: Term, vars: set<string>, collection: string)
    requires crsr !in vars && cursor in vars + {collection}
    ensures var inner := [For(crsr, cursor, Each), Filter(crsr, None, e, t), Use([crsr])];
            && Scoped(inner, vars, collection) && ParamsOf(inner) == Placeholders(e) && Once(inner, {crsr})
  {
    hide Scoped, Declared, ParamsOf, Cursors, Once, StmtScoped;
    var tail, vars' := [Use([crsr])], vars + {crsr};
    ScopedNothing(vars', collection);
    UsesScoped([crsr], [], vars', collection);
    assert tail == [Use([crsr])] + [];
    LoopScoped(crsr, cursor, Each, None, e, t, tail, vars, collection, {});
    assert [For(crsr, cursor, Each), Filter(crsr, None, e, t), Use([crsr])]
        == [For(crsr, cursor, Each), Filter(crsr, None, e, t)] + tail;
    assert {} + {crsr} == {crsr};
  }

  /** A loop with a filter in front of the rest. */
  lemma LoopScoped(crsr: string, cursor: string, how: Steps, root: Option<string>, e: Expr, t: Term, rest: seq<Stmt>,
                   vars: set<string>, collection: string, names: set<string>)
    requires crsr !in vars && cursor in vars + {collection} && (root.Some? ==> root.value in vars)
    requires Once(rest, names) && crsr !in names
    ensures var all := [For(crsr, cursor, how), Filter(crsr, root, e, t)] + rest;
            && (Scoped(all, vars, collection) <==> Scoped(rest, vars + {crsr}, collection))
            && ParamsOf(all) == Placeholders(e) + ParamsOf(rest) && Declared(all) == Declared(rest) + {crsr}
            && Once(all, names + {crsr})
  {
    hide Scoped, Declared, ParamsOf, Cursors, Once, StmtScoped;
    var filter := Filter(crsr, root, e, t);
    FilterOnly(crsr, root, e, t, rest, vars + {crsr}, collection);
    ForScoped(crsr, cursor, how, [filter] + rest, vars, collection, names);
    assert [For(crsr, cursor, how), filter] + rest == [For(crsr, cursor, how)] + ([filter] + rest);
  }

  lemma FilterOnly(on: string, root: Option<string>, e: Expr, t: Term, rest: seq<Stmt>, vars: set<string>,
                   collection: string)
    requires on in vars && (root.Some? ==> root.value in vars)
    ensures Scoped([Filter(on, root, e, t)] + rest, vars, collection) <==> Scoped(rest, vars, collection)
    ensures ParamsOf([Filter(on, root, e, t)] + rest) == Placeholders(e) + ParamsOf(rest)
    ensures Declared([Filter(on, root, e, t)] + rest) == Declared(rest)
    ensures forall names :: Once(rest, names) ==> Once([Filter(on, root, e, t)] + rest, names)
  {
    hide Scoped, Declared, ParamsOf, Cursors;
    ScopedPlus([Filter(on, root, e, t)], rest, vars, collection);
    ScopedOne(Filter(on, root, e, t), vars, collection);
    assert vars + {} == vars;
  }

  lemma OnceMore(body: seq<Stmt>, names: set<string>, more: set<string>)
    requires Once(body, names) && names <= more
    ensures Once(body, more)
  {
  }

  /** One LET of a new numbered name. */
  lemma LetFits(x: string, inner: seq<Stmt>, vars: set<string>, collection: string, s: State, s': State, ok: bool)
    requires Good(s') && Later(s, s') && vars <= s.issued && x in s'.issued && x !in s.issued
    requires ParamsOf(inner) <= s'.c.binds.Keys && (Scoped(inner, vars, collection) <==> ok)
    requires Once(inner, s'.issued - s.issued - {x})
    ensures Fits([Let(x, inner)], vars, collection, s, s', x, {}, ok)
  {
    hide Good, Later, Scoped, Declared, ParamsOf, Cursors;
    ScopedOne(Let(x, inner), vars, collection);
  }

  lemma InOutFits(cursor: string, hops: Steps, direct: bool, edges: bool, s: State, vars: set<string>,
                  collection: string)
    requires Good(s) && vars <= s.issued && cursor in vars + {collection}
    ensures var (out, body, s') := InOut(cursor, hops, direct, edges, s);
            Fits(body, vars, collection, s, s', out, {}, true) && out in Declared(body) && s.issued <= s'.issued
            && Good(s') && out in s'.issued
  {
    hide Good, Later, Once, Scoped, ParamsOf, Declared, Cursors, NextCrs, Numbered;
    var (inC, s1) := NextCrs(s, "io_in");
    var (out, s2) := NextCrs(s1, "io_out");
    var (outCrsr, s3) := NextCrs(s2, "io_crs");
    var (link, s4) := NextCrs(s3, "io_link");
    NextCrsFresh(s, "io_in");
    NextCrsFresh(s1, "io_out");
    NextCrsFresh(s2, "io_crs");
    NextCrsFresh(s3, "io_link");
    LaterTrans(s, s1, s2);
    LaterTrans(s, s2, s3);
    LaterTrans(s, s3, s4);
    var source := if direct then cursor else inC;
    var a := if direct then [] else [For(inC, cursor, Each)];
    var b := if edges then [For(link, source, hops), Use([link])] else [];
    InOutScoped(a, b, vars, collection, cursor, source, hops, inC, outCrsr, link, direct, edges);
    var all := a + [For(outCrsr, source, hops)] + b + [Use([outCrsr])];
    OnceMore(all, {inC, outCrsr, link}, s4.issued - s.issued - {out});
    LetFits(out, all, vars, collection, s, s4, true);
    ScopedOne(Let(out, all), vars, collection);
  }

  lemma InOutScoped(a: seq<Stmt>, b: seq<Stmt>, vars: set<string>, collection: string, cursor: string, source: string,
                    hops: Steps, inC: string, outCrsr: string, link: string, direct: bool, edges: bool)
    requires cursor in vars + {collection}
    requires inC !in vars && outCrsr !in vars + {inC} && link !in vars + {inC, outCrsr}
    requires source == (if direct then cursor else inC)
    requires a == (if direct then [] else [For(inC, cursor, Each)])
    requires b == (if edges then [For(link, source, hops), Use([link])] else [])
    ensures Scoped(a + [For(outCrsr, source, hops)] + b + [Use([outCrsr])], vars, collection)
    ensures ParamsOf(a + [For(outCrsr, source, hops)] + b + [Use([outCrsr])]) == {}
    ensures Once(a + [For(outCrsr, source, hops)] + b + [Use([outCrsr])], {inC, outCrsr, link})
  {
    hide Scoped, Declared, ParamsOf, Cursors, Once, StmtScoped;
    var d := [Use([outCrsr])];
    var bd, c := b + d, [For(outCrsr, source, hops)];
    var v1 := if direct then vars else vars + {inC};
    LinkScoped(b, d, v1 + {outCrsr}, collection, source, hops, outCrsr, link, edges);
    ForScoped(outCrsr, source, hops, bd, v1, collection, {link});
    assert a + c + b + d == a + (c + bd);
    if direct {
      assert a + (c + bd) == c + bd;
      OnceMore(c + bd, {link} + {outCrsr}, {inC, outCrsr, link});
    } else {
      ForScoped(inC, cursor, Each, c + bd, vars, collection, {link} + {outCrsr});
      OnceMore(a + (c + bd), {link} + {outCrsr} + {inC}, {inC, outCrsr, link});
    }
  }

  lemma LinkScoped(b: seq<Stmt>, d: seq<Stmt>, vars: set<string>, collection: string, source: string, hops: Steps,
                   outCrsr: string, link: string, edges: bool)
    requires link !in vars && outCrsr in vars && source in vars + {collection}
    requires b == (if edges then [For(link, source, hops), Use([link])] else []) && d == [Use([outCrsr])]
    ensures Scoped(b + d, vars, collection) && ParamsOf(b + d) == {} && Once(b + d, {link})
  {
    hide Scoped, ParamsOf, Cursors, Once;
    if edges {
      var rest := [Use([link])] + d;
      UsesScoped([link], d, vars + {link}, collection);
      UsesScoped([outCrsr], [], vars + {link}, collection);
      assert d + [] == d;
      ScopedNothing(vars + {link}, collection);
      ForScoped(link, source, hops, rest, vars, collection, {});
      assert b + d == [For(link, source, hops)] + rest;
      assert {} + {link} == {link};
    } else {
      assert b + d == d + [];
      UsesScoped([outCrsr], [], vars, collection);
      ScopedNothing(vars, collection);
      OnceMore(d + [], {}, {link});
    }
  }

  lemma UsesScoped(uses: seq<string>, rest: seq<Stmt>, vars: set<string>, collection: string)
    requires AllIn(uses, vars + {collection})
    ensures Scoped([Use(uses)] + rest, vars, collection) <==> Scoped(rest, vars, collection)
    ensures ParamsOf([Use(uses)] + rest) == ParamsOf(rest) && Declared([Use(uses)] + rest) == Declared(rest)
    ensures forall names :: Once(rest, names) ==> Once([Use(uses)] + rest, names)
  {
    hide Scoped, Declared, ParamsOf, Cursors;
    ScopedPlus([Use(uses)], rest, vars, collection);
    ScopedOne(Use(uses), vars, collection);
    assert vars + {} == vars;
  }

  lemma ForScoped(x: string, source: string, how: Steps, rest: seq<Stmt>, vars: set<string>, collection: string,
                  names: set<string>)
    requires x !in vars && source in vars + {collection} && Once(rest, names) && x !in names
    ensures Scoped([For(x, source, how)] + rest, vars, collection) <==> Scoped(rest, vars + {x}, collection)
    ensures ParamsOf([For(x, source, how)] + rest) == ParamsOf(rest) && Declared([For(x, source, how)] + rest)
        == Declared(rest) + {x}
    ensures Once([For(x, source, how)] + rest, names + {x})
  {
    hide Scoped, Declared, ParamsOf, Cursors;
    ScopedPlus([For(x, source, how)], rest, vars, collection);
    ScopedOne(For(x, source, how), vars, collection);
  }

  lemma ScopedNothing(vars: set<string>, collection: string)
    ensures Scoped([], vars, collection) && Declared([]) == {} && ParamsOf([]) == {} && Once([], {})
  {
  }

  lemma NavigateFits(cursor: string, nav: Navigation, direct: bool, edges: bool, s: State, vars: set<string>,
                     collection: string)
    requires Good(s) && vars <= s.issued && cursor in vars + {collection}
    ensures var (out, body, s') := Navigate(cursor, nav, direct, edges, s);
            Fits(body, vars, collection, s, s', out, {}, true)
  {
    hide Good, Later, InOut, NextCrs, Fits;
    if nav.direction != Both_ {
      InOutFits(cursor, Hops(nav.start, nav.until, nav.direction, nav.edgeType), direct, edges, s, vars, collection);
    } else {
      var hops := Hops(nav.start, nav.until, Inbound, nav.edgeType);
      var (first, body1, s1) := InOut(cursor, hops, direct, edges, s);
      InOutFits(cursor, hops, direct, edges, s, vars, collection);
      var vars1 := vars + Declared(body1);
      FitsFacts(body1, vars, collection, s, s1, first, {}, true);
      var (second, body2, s2) := InOut(cursor, OutHops(nav), direct, edges, s1);
      InOutFits(cursor, OutHops(nav), direct, edges, s1, vars1, collection);
      FitsFacts(body2, vars1, collection, s1, s2, second, {}, true);
      FitsSeq(body1, body2, vars, collection, s, s1, s2, first, second, {}, true, true);
      var (both, s3) := NextCrs(s2, "m");
      NextCrsFresh(s2, "m");
      ScopedPlus(body1, body2, vars, collection);
      LetOfFits(both, [first, second], vars + Declared(body1 + body2), collection, s2, s3);
      FitsSeq(body1 + body2, [LetOf(both, [first, second])], vars, collection, s, s2, s3, second, both, {}, true, true);
    }
  }

  lemma FitsFacts(body: seq<Stmt>, vars: set<string>, collection: string, s: State, s': State,
                  result: string, extra: set<string>, ok: bool)
    requires Fits(body, vars, collection, s, s', result, extra, ok)
    ensures Good(s') && Later(s, s') && s.issued <= s'.issued && Declared(body) <= s'.issued + extra
    ensures result in vars + Declared(body) + {collection}
  {
    hide Good;
  }

  lemma LetOfFits(x: string, uses: seq<string>, vars: set<string>, collection: string, s: State, s': State)
    requires Good(s') && Later(s, s') && vars <= s.issued && x in s'.issued && x !in s.issued
    ensures Fits([LetOf(x, uses)], vars, collection, s, s', x, {}, AllIn(uses, vars + {collection}))
  {
    hide Good, Later, Scoped, Declared, ParamsOf, Cursors;
    ScopedOne(LetOf(x, uses), vars, collection);
  }

  /** What a traversal and those inside it declare is new, and the cursors of every depth are among it. */
  ghost predicate Traverses(body: seq<Stmt>, vars: set<string>, collection: string, s: State, s': State,
                            cursors: seq<string>) {
    && Fits(body, vars, collection, s, s', collection, {}, true)
    && forall c :: c in cursors ==> c in Declared(body)
  }

  lemma {:induction false} TraversalFits(model: Model, current: nat, cl: WithClause, cursor: string, depth: nat,
                                         s: State, vars: set<string>, collection: string)
    requires Good(s) && vars <= s.issued && cursor in vars && WithCrs(current, 0) in vars
    requires Above(s, current, depth)
    ensures var (body, s') := TraversalFilter(model, current, cl, cursor, depth, s);
            Traverses(body, vars, collection, s, s', WithCursors(current, cl, depth))
    decreases cl
  {
    hide Good, Later, CompileTerm, Above, WithCrs, Issue, WithTerm, Traverses;
    var crsr := WithCrs(current, depth);
    var s1 := Issue(s, crsr);
    IssueFresh(s, current, depth);
    Issuing(s, crsr);
    var (e, c) := CompileTerm(model, WithTerm(cl), s1.c);
    var s2 := s1.(c := c);
    TermLater(model, WithTerm(cl), s1);
    LaterTrans(s, s1, s2);
    var hops := Hops(0, cl.nav.until, Towards(cl.nav.direction), cl.nav.edgeType);
    if cl.inner.Some? {
      AboveLater(s1, s2, current, depth + 1);
      var (rest, s3) := TraversalFilter(model, current, cl.inner.value, crsr, depth + 1, s2);
      var cursors := WithCursors(current, cl.inner.value, depth + 1);
      TraversalFits(model, current, cl.inner.value, crsr, depth + 1, s2, vars + {crsr}, collection);
      TraversalMore(crsr, cursor, hops, WithCrs(current, 0), e, WithTerm(cl), rest, vars, collection, s, s2, s3, cursors);
      assert TraversalFilter(model, current, cl, cursor, depth, s) == ([For(crsr, cursor, hops),
          Filter(crsr, Some(WithCrs(current, 0)), e, WithTerm(cl))] + rest, s3);
    } else {
      TraversalLast(vars, collection, s2, crsr);
      TraversalMore(crsr, cursor, hops, WithCrs(current, 0), e, WithTerm(cl), [], vars, collection, s, s2, s2, []);
      assert TraversalFilter(model, current, cl, cursor, depth, s) == ([For(crsr, cursor, hops),
          Filter(crsr, Some(WithCrs(current, 0)), e, WithTerm(cl))] + [], s2);
    }
  }

  lemma TraversalLast(vars: set<string>, collection: string, s: State, crsr: string)
    requires Good(s)
    ensures Traverses([], vars + {crsr}, collection, s, s, [])
  {
    hide Good, Later;
    SameLater(s);
  }

  lemma TraversalMore(crsr: string, cursor: string, hops: Steps, root: string, e: Expr, t: Term, rest: seq<Stmt>,
                      vars: set<string>, collection: string, s: State, s2: State, s3: State, cursors: seq<string>)
    requires Later(s, s2) && vars <= s.issued && crsr !in s.issued && s2.issued == s.issued + {crsr}
    requires cursor in vars && root in vars && Placeholders(e) <= s2.c.binds.Keys
    requires Traverses(rest, vars + {crsr}, collection, s2, s3, cursors)
    ensures var all := [For(crsr, cursor, hops), Filter(crsr, Some(root), e, t)] + rest;
            Traverses(all, vars, collection, s, s3, [crsr] + cursors)
  {
    hide Good, Later, Scoped, Declared, ParamsOf, Cursors, Once;
    BindsKept(s2, s3);
    LaterTrans(s, s2, s3);
    LoopScoped(crsr, cursor, hops, Some(root), e, t, rest, vars, collection, s3.issued - s2.issued);
    var all := [For(crsr, cursor, hops), Filter(crsr, Some(root), e, t)] + rest;
    OnceMore(all, s3.issued - s2.issued + {crsr}, s3.issued - s.issued);
  }

  lemma WithFits(model: Model, cursor: string, cl: WithClause, s: State, vars: set<string>, collection: string)
    requires Good(s) && vars <= s.issued && cursor in vars + {collection}
    ensures var (out, body, s') := WithStatement(model, cursor, cl, s);
            Fits(body, vars, collection, s, s', out, {}, true)
  {
    hide Good, Later, Above, WithCrs, Issue, NextCrs, NextCounter, TraversalFilter, WithCursors;
    var (current, s1) := NextCounter(s, "with_clause");
    NextWith(s);
    var l0 := WithCrs(current, 0);
    var s2 := Issue(s1, l0);
    IssueFresh(s1, current, 0);
    Issuing(s1, l0);
    var (out, s3) := NextCrs(s2, "m");
    NextCrsFresh(s2, "m");
    AboveNext(s2, "m", current, 1);
    var (body, s4) := TraversalFilter(model, current, cl, l0, 1, s3);
    var cursors := WithCursors(current, cl, 1);
    TraversalFits(model, current, cl, l0, 1, s3, vars + {l0}, collection);
    FitsFacts(body, vars + {l0}, collection, s3, s4, collection, {}, true);
    hide Once, Scoped, ParamsOf, Declared;
    LaterTrans(s, s1, s2);
    LaterTrans(s, s2, s3);
    LaterTrans(s, s3, s4);
    MergeScoped(body, cursors, l0, cursor, vars, collection, s3, s4, collection, true);
    var inner := [For(l0, cursor, Each)] + body + [Use([l0] + cursors)];
    OnceMore(inner, s4.issued - s3.issued + {l0}, s4.issued - s.issued - {out});
    LetFits(out, inner, vars, collection, s, s4, true);
  }

  lemma FitsUnless(body: seq<Stmt>, vars: set<string>, collection: string, s: State, s': State,
                   result: string, extra: set<string>, ok: bool, x: string)
    requires Fits(body, vars, collection, s, s', result, extra, ok) && vars <= s.issued
    requires !Numbered(x) && x !in extra
    ensures x !in vars + Declared(body)
  {
    if x in vars + Declared(body) {
      hide Good, Scoped, Declared, ParamsOf;
      assert x in s'.issued;
      IssuedNumbered(s', x);
    }
  }

  lemma MergePartFits(partRes: string, body: seq<Stmt>, crs: string, vars: set<string>, collection: string,
                      s: State, s3: State, s4: State, ok: bool)
    requires Good(s3) && Later(s, s3) && partRes in s3.issued && partRes !in s.issued && vars <= s.issued
    requires Fits(body, vars, collection, s3, s4, crs, Extras(), ok)
    ensures Fits([Let(partRes, body + [For("r", crs, Each), Use(["r"])])], vars, collection, s, s4, partRes, {}, ok)
  {
    hide Good, Later, Scoped, Declared, ParamsOf;
    FitsFacts(body, vars, collection, s3, s4, crs, Extras(), ok);
    BindsKept(s, s3);
    FitsUnless(body, vars, collection, s3, s4, crs, Extras(), ok, "r");
    LaterTrans(s, s3, s4);
    FixedScoped(body, "r", crs, vars, collection, s4.issued - s3.issued);
    OnceMore(body + [For("r", crs, Each), Use(["r"])], s4.issued - s3.issued, s4.issued - s.issued - {partRes});
    hide Once, Fits;
    LetFits(partRes, body + [For("r", crs, Each), Use(["r"])], vars, collection, s, s4, ok);
  }

  /** Reading a result under one of the fixed names. */
  lemma FixedScoped(body: seq<Stmt>, x: string, crs: string, vars: set<string>, collection: string, names: set<string>)
    requires x !in vars + Declared(body) && !Numbered(x) && crs in vars + Declared(body) + {collection}
    ensures var all := body + [For(x, crs, Each), Use([x])];
            && (Scoped(all, vars, collection) <==> Scoped(body, vars, collection))
            && ParamsOf(all) == ParamsOf(body) && (Once(body, names) ==> Once(all, names))
  {
    hide Scoped, Declared, ParamsOf, Cursors;
    var vars' := vars + Declared(body);
    var tail := [For(x, crs, Each)] + [Use([x])];
    ScopedPlus([For(x, crs, Each)], [Use([x])], vars', collection);
    ScopedOne(For(x, crs, Each), vars', collection);
    ScopedOne(Use([x]), vars' + {x}, collection);
    ScopedPlus(body, tail, vars, collection);
    assert [For(x, crs, Each), Use([x])] == tail;
  }

  lemma MergeScoped(body: seq<Stmt>, names: seq<string>, m: string, cursor: string, vars: set<string>,
                    collection: string, s: State, s': State, r: string, ok: bool)
    requires Fits(body, vars + {m}, collection, s, s', r, {}, ok) && AllIn(names, vars + {m} + Declared(body))
    requires m !in vars && cursor in vars + {collection} && m in s.issued
    ensures var inner := [For(m, cursor, Each)] + body + [Use([m] + names)];
            && (Scoped(inner, vars, collection) <==> ok) && ParamsOf(inner) <= s'.c.binds.Keys
            && Once(inner, s'.issued - s.issued + {m})
  {
    hide Good, Later, Scoped, ParamsOf, Cursors, Declared, Once;
    var use := [Use([m] + names)];
    var vars' := vars + {m} + Declared(body);
    ScopedPlus(body, use, vars + {m}, collection);
    UsesScoped([m] + names, [], vars', collection);
    ScopedNothing(vars', collection);
    assert use == use + [];
    OnceUse(body, [m] + names, s'.issued - s.issued);
    ForScoped(m, cursor, Each, body + use, vars, collection, s'.issued - s.issued);
    assert [For(m, cursor, Each)] + body + use == [For(m, cursor, Each)] + (body + use);
  }

  lemma OnceUse(body: seq<Stmt>, uses: seq<string>, names: set<string>)
    requires Once(body, names)
    ensures Once(body + [Use(uses)], names)
  {
    hide Scoped, ParamsOf, Declared, Cursors;
    ScopedPlus(body, [Use(uses)], {}, "");
    ScopedOne(Use(uses), {}, "");
  }

  lemma DeclaredPlus(a: seq<Stmt>, b: seq<Stmt>)
    ensures Declared(a + b) == Declared(a) + Declared(b)
  {
    ScopedPlus(a, b, {}, "");
  }

  function NameSet(names: seq<string>): set<string> {
    set n | n in names
  }

  /** The names are new beside `vars` and one another. */
  predicate NewNames(names: seq<string>, vars: set<string>) {
    Distinct(names) && forall n :: n in names ==> n !in vars
  }

  lemma DistinctHead(x: string, names: seq<string>)
    ensures Distinct([x] + names) <==> x !in names && Distinct(names)
  {
    var all := [x] + names;
    assert forall i :: 0 <= i < |names| ==> all[i + 1] == names[i];
    if Distinct(all) {
      forall i | 0 <= i < |names|
        ensures names[i] != x
      {
        assert all[0] != all[i + 1];
      }
      forall i, j | 0 <= i < j < |names|
        ensures names[i] != names[j]
      {
        assert all[i + 1] != all[j + 1];
      }
    }
  }

  lemma NewNamesHead(names: seq<string>, vars: set<string>)
    requires names != []
    ensures NewNames(names, vars) <==> names[0] !in vars && NewNames(names[1..], vars + {names[0]})
    ensures NameSet(names) == {names[0]} + NameSet(names[1..]) && forall n :: n in names <==> n == names[0] || n in names[1..]
  {
    hide Distinct;
    DistinctHead(names[0], names[1..]);
    assert names == [names[0]] + names[1..];
  }

  /** Statements that declare exactly the given fixed names, and are well scoped exactly when `ok`. */
  ghost predicate Adds(body: seq<Stmt>, vars: set<string>, collection: string, s: State, s': State,
      added: set<string>, ok: bool) {
    && Good(s') && Later(s, s') && s'.issued == s.issued
    && (Scoped(body, vars, collection) <==> ok)
    && Declared(body) == added && ParamsOf(body) <= s'.c.binds.Keys && Once(body, {})
  }

  lemma AddsNothing(vars: set<string>, collection: string, s: State)
    requires Good(s)
    ensures Adds([], vars, collection, s, s, {}, true)
  {
    hide Good;
  }

  lemma AddsSeq(a: seq<Stmt>, b: seq<Stmt>, vars: set<string>, collection: string, s: State, s1: State, s2: State,
                added: set<string>, more: set<string>, ok1: bool, ok2: bool)
    requires Adds(a, vars, collection, s, s1, added, ok1) && Adds(b, vars + added, collection, s1, s2, more, ok2)
    ensures Adds(a + b, vars, collection, s, s2, added + more, ok1 && ok2)
  {
    hide Good, Scoped, ParamsOf, Declared, Cursors;
    ScopedPlus(a, b, vars, collection);
    LaterTrans(s, s1, s2);
  }

  /** LET x = ( FOR p IN source ... params ... ) for a fixed name x. */
  lemma LetNode(x: string, source: string, how: Steps, params: seq<string>, values: seq<Value>, vars: set<string>, collection: string,
                s: State, s': State)
    requires source in vars && !Numbered(x)
    requires Good(s') && Later(s, s') && s'.issued == s.issued && AllIn(params, s'.c.binds.Keys)
    ensures Adds([Let(x, [For("p", source, how), Kinds("p", params, values), Use(["p"])])], vars, collection, s, s', {x},
                 x !in vars && "p" !in vars)
  {
    hide Good, Later, Scoped, ParamsOf, Declared, Cursors, Numbered;
    var a, b, c := For("p", source, how), Kinds("p", params, values), Use(["p"]);
    var inner := [a, b, c];
    NotNumbered();
    ScopedPlus([a] + [b], [c], vars, collection);
    ScopedPlus([a], [b], vars, collection);
    ScopedOne(a, vars, collection);
    ScopedOne(b, vars + {"p"}, collection);
    assert vars + Declared([a] + [b]) == vars + {"p"};
    ScopedOne(c, vars + {"p"}, collection);
    assert inner == [a] + [b] + [c];
    ScopedOne(Let(x, inner), vars, collection);
  }

  predicate LookedUp(names: seq<string>, vars: set<string>) {
    NewNames(names, vars) && (names != [] ==> "p" !in vars && "p" !in names[..|names| - 1])
  }

  lemma LookedUpHead(names: seq<string>, vars: set<string>)
    requires names != []
    ensures LookedUp(names, vars)
       <==> names[0] !in vars && "p" !in vars && LookedUp(names[1..], vars + {names[0]})
  {
    hide NewNames;
    NewNamesHead(names, vars);
    var init, tail := names[..|names| - 1], names[1..];
    if tail != [] {
      assert init == [names[0]] + tail[..|tail| - 1];
    }
  }

  lemma {:induction false} BindEachAdds(names: seq<string>, s: State, vars: set<string>, collection: string)
    requires Good(s) && PlainNames(names) && "ancestor_nodes" in vars
    ensures var (body, s') := BindEach(names, s);
            Adds(body, vars, collection, s, s', NameSet(names), LookedUp(names, vars))
    decreases |names|
  {
    hide Good, Later, Adds, Numbered, BindName, LookedUp;
    if names == [] {
      AddsNothing(vars, collection, s);
      assert NameSet(names) == {};
      assert LookedUp(names, vars) by { NothingLookedUp(vars); }
    } else {
      NewNamesHead(names, vars);
      LookedUpHead(names, vars);
      var (bv, s1) := BindName(s, Str(names[0]));
      BindLater(s, Str(names[0]));
      var one := [Let(names[0], [For("p", "ancestor_nodes", Each), Kinds("p", [bv], [Str(names[0])]), Use(["p"])])];
      LetNode(names[0], "ancestor_nodes", Each, [bv], [Str(names[0])], vars, collection, s, s1);
      var (rest, s2) := BindEach(names[1..], s1);
      BindEachAdds(names[1..], s1, vars + {names[0]}, collection);
      AddsSeq(one, rest, vars, collection, s, s1, s2, {names[0]}, NameSet(names[1..]),
              names[0] !in vars && "p" !in vars, LookedUp(names[1..], vars + {names[0]}));
    }
  }

  lemma NothingLookedUp(vars: set<string>)
    ensures LookedUp([], vars) && NewNames([], vars)
  {
  }

  lemma LookUpAdds(names: seq<string>, s: State, vars: set<string>, collection: string)
    requires Good(s) && PlainNames(names) && "node" in vars && "p" !in vars && "ancestor_nodes" !in vars
    ensures var (body, s') := LookUp(names, s);
            Adds(body, vars, collection, s, s', if names == [] then {} else {"ancestor_nodes"} + NameSet(names),
                 names == [] || LookedUp(names, vars + {"ancestor_nodes"}))
  {
    hide Good, Later, Adds, Numbered, BindName, BindEach, LookedUp;
    if names == [] {
      AddsNothing(vars, collection, s);
    } else {
      var (stop, s1) := BindName(s, Str(names[0]));
      BindLater(s, Str(names[0]));
      var (nodes, s2) := BindName(s1, List(Strings(names)));
      BindLater(s1, List(Strings(names)));
      LaterTrans(s, s1, s2);
      BindsKept(s1, s2);
      var one := [Let("ancestor_nodes", [For("p", "node", AncestorHops()), Kinds("p", [stop, nodes], LookUpValues(names)), Use(["p"])])];
      NotNumbered();
      LetNode("ancestor_nodes", "node", AncestorHops(), [stop, nodes], LookUpValues(names), vars, collection, s, s2);
      var (each, s3) := BindEach(names, s2);
      BindEachAdds(names, s2, vars + {"ancestor_nodes"}, collection);
      AddsSeq(one, each, vars, collection, s, s2, s3, {"ancestor_nodes"}, NameSet(names), true,
              LookedUp(names, vars + {"ancestor_nodes"}));
    }
  }

  lemma NumberedEnd(x: string)
    requires Numbered(x)
    ensures x != "" && IsDigit(x[|x| - 1])
  {
    var base, n: nat :| CursorName(x, base, n);
    assert x[|x| - 1] == Text(n)[|Text(n)| - 1];
  }

  lemma NotNumbered()
    ensures !Numbered("ancestor_nodes") && !Numbered("node") && !Numbered("p") && !Numbered("res")
        && !Numbered("result") && !Numbered("r")
    ensures !Numbered("aggregated") && !Numbered("merge_with_ancestor") && !Numbered("")
  {
    forall x | Numbered(x)
      ensures x != "" && IsDigit(x[|x| - 1])
    {
      NumberedEnd(x);
    }
  }

  lemma {:induction false} DocumentsAdd(names: seq<string>, s: State, vars: set<string>, collection: string)
    requires Good(s) && PlainNames(names) && "node" in vars
    ensures Adds(Documents(names), vars, collection, s, s, NameSet(names), NewNames(names, vars))
    decreases |names|
  {
    hide Good, Later, Adds, Numbered, NewNames;
    if names == [] {
      AddsNothing(vars, collection, s);
      assert NameSet(names) == {};
      NothingLookedUp(vars);
    } else {
      NewNamesHead(names, vars);
      var one := LetRef(names[0], "node", names[0]);
      SameLater(s);
      DocumentAdds(names[0], s, vars, collection);
      DocumentsAdd(names[1..], s, vars + {names[0]}, collection);
      AddsSeq([one], Documents(names[1..]), vars, collection, s, s, s, {names[0]}, NameSet(names[1..]),
              names[0] !in vars, NewNames(names[1..], vars + {names[0]}));
      assert Documents(names) == [one] + Documents(names[1..]);
    }
  }

  lemma DocumentAdds(x: string, s: State, vars: set<string>, collection: string)
    requires Good(s) && Later(s, s) && "node" in vars && !Numbered(x)
    ensures Adds([LetRef(x, "node", x)], vars, collection, s, s, {x}, x !in vars)
  {
    hide Good, Later, Scoped, ParamsOf, Declared, Cursors;
    ScopedOne(LetRef(x, "node", x), vars, collection);
  }

  lemma {:induction false} SelectIs(names: seq<string>, from: set<string>)
    ensures forall n :: n in Select(names, from, false) <==> n in names && n !in from
    ensures forall n :: n in Select(names, from, true) <==> n in names && n in from
    ensures Distinct(names) <==> Distinct(Select(names, from, false)) && Distinct(Select(names, from, true))
  {
    if names != [] {
      hide Distinct;
      SelectIs(names[1..], from);
      DistinctHead(names[0], names[1..]);
      DistinctHead(names[0], Select(names[1..], from, names[0] in from));
      assert names == [names[0]] + names[1..];
      assert [] + Select(names[1..], from, names[0] !in from) == Select(names[1..], from, names[0] !in from);
    } else {
      assert Select(names, from, false) == [] && Select(names, from, true) == [];
    }
  }

  /** The lookups and the documents are well scoped exactly when the names are usable. */
  lemma NamesUsable(db: Db, names: seq<string>, vars: set<string>)
    requires "p" !in vars && "ancestor_nodes" !in vars && "node" !in vars && forall n :: n in names ==> n !in vars
    ensures var up, here := Select(names, db.resolved, false), Select(names, db.resolved, true);
            var added := if up == [] then {} else {"ancestor_nodes"} + NameSet(up);
            (up == [] || LookedUp(up, vars + {"node"} + {"ancestor_nodes"})) && NewNames(here, vars + {"node"} + added)
            <==> AncestorsNamed(db, names)
  {
    hide Distinct, Select, Missing;
    SelectIs(names, db.resolved);
    MissingIs(names, db.resolved);
    var up, here := Select(names, db.resolved, false), Select(names, db.resolved, true);
    assert Distinct([]) by { DistinctNone(); }
    assert "node" in names <==> "node" in up || "node" in here;
    assert "ancestor_nodes" in names <==> "ancestor_nodes" in up || "ancestor_nodes" in here;
  }

  lemma DistinctNone()
    ensures Distinct([])
  {
  }

  lemma AncestorsFits(db: Db, cursor: string, names: seq<string>, s: State, vars: set<string>)
    requires Good(s) && vars <= s.issued && cursor in vars + {db.collection} && PlainNames(names)
    ensures var (body, s') := MergeAncestors(db, cursor, names, s);
            Fits(body, vars, db.collection, s, s', "merge_with_ancestor", Extras(), AncestorsNamed(db, names))
  {
    hide Good, Later, Adds, LookUp, Documents, Select, Distinct, LookedUp, NewNames, AncestorsNamed;
    var c := db.collection;
    var v1 := vars + {"node"};
    var up, here := Select(names, db.resolved, false), Select(names, db.resolved, true);
    SelectIs(names, db.resolved);
    NotNumbered();
    FixedNotIssued(s, vars);
    NamesUsable(db, names, vars);
    var (looked, s1) := LookUp(up, s);
    LookUpAdds(up, s, v1, c);
    var added := if up == [] then {} else {"ancestor_nodes"} + NameSet(up);
    var ok1, ok2 := up == [] || LookedUp(up, v1 + {"ancestor_nodes"}), NewNames(here, v1 + added);
    AddsFacts(looked, v1, c, s, s1, added, ok1);
    DocumentsAdd(here, s1, v1 + added, c);
    AddsSeq(looked, Documents(here), v1, c, s, s1, s1, added, NameSet(here), ok1, ok2);
    hide Numbered;
    assert AllIn(["node"] + names, v1 + (added + NameSet(here)) + {c});
    AncestorsScoped(looked + Documents(here), names, cursor, vars, c, s, s1, added + NameSet(here), ok1 && ok2);
    assert [For("node", cursor, Each)] + looked + Documents(here) + [Use(["node"] + names)]
        == [For("node", cursor, Each)] + (looked + Documents(here)) + [Use(["node"] + names)];
  }

  lemma AddsFacts(body: seq<Stmt>, vars: set<string>, collection: string, s: State, s': State, added: set<string>,
                  ok: bool)
    requires Adds(body, vars, collection, s, s', added, ok)
    ensures Good(s') && Later(s, s') && s'.issued == s.issued
  {
    hide Good;
  }

  lemma FixedNotIssued(s: State, vars: set<string>)
    requires Good(s) && vars <= s.issued
    ensures forall x :: !Numbered(x) ==> x !in vars
  {
    forall x | !Numbered(x)
      ensures x !in vars
    {
      if x in vars {
        IssuedNumbered(s, x);
      }
    }
  }

  lemma AncestorsScoped(body: seq<Stmt>, names: seq<string>, cursor: string, vars: set<string>, c: string,
                        s: State, s': State, added: set<string>, ok: bool)
    requires Adds(body, vars + {"node"}, c, s, s', added, ok) && AllIn(["node"] + names, vars + {"node"} + added + {c})
    requires "node" !in vars && "merge_with_ancestor" !in vars && cursor in vars + {c}
    ensures Fits([Let("merge_with_ancestor", [For("node", cursor, Each)] + body + [Use(["node"] + names)])], vars, c,
                 s, s', "merge_with_ancestor", Extras(), ok)
  {
    hide Good, Later, Scoped, ParamsOf, Declared, Cursors, AllIn, Numbered;
    var use := [Use(["node"] + names)];
    var inner := [For("node", cursor, Each)] + body + use;
    NotNumbered();
    ScopedPlus([For("node", cursor, Each)] + body, use, vars, c);
    ScopedPlus([For("node", cursor, Each)], body, vars, c);
    ScopedOne(For("node", cursor, Each), vars, c);
    assert vars + Declared([For("node", cursor, Each)] + body) == vars + {"node"} + added;
    ScopedOne(Use(["node"] + names), vars + {"node"} + added, c);
    ScopedOne(Let("merge_with_ancestor", inner), vars, c);
  }

  lemma LetRefFits(x: string, node: string, kind: string, vars: set<string>, collection: string, s: State, s': State)
    requires Good(s') && Later(s, s') && vars <= s.issued && x in s'.issued && x !in s.issued && node in vars
    ensures Fits([LetRef(x, node, kind)], vars, collection, s, s', x, {}, true)
  {
    hide Good, Later, Scoped, Declared, ParamsOf, Cursors;
    ScopedOne(LetRef(x, node, kind), vars, collection);
  }

  /** One LET of a fixed or numbered name after the rest of a query. */
  lemma LastLet(body: seq<Stmt>, x: string, inner: seq<Stmt>, vars: set<string>, collection: string,
                s: State, s1: State, s2: State, r: string, ok1: bool, ok2: bool)
    requires Fits(body, vars, collection, s, s1, r, Extras(), ok1) && Good(s2) && Later(s1, s2)
    requires x !in vars + Declared(body) && (x == "aggregated" || (x in s2.issued && x !in s1.issued))
    requires ParamsOf(inner) == {} && Once(inner, s2.issued - s1.issued - {x})
    requires Scoped(inner, vars + Declared(body), collection) <==> ok2
    ensures Fits(body + [Let(x, inner)], vars, collection, s, s2, x, Extras(), ok1 && ok2)
  {
    hide Good, Scoped, ParamsOf, Declared, Cursors;
    LaterTrans(s, s1, s2);
    ScopedPlus(body, [Let(x, inner)], vars, collection);
    ScopedOne(Let(x, inner), vars + Declared(body), collection);
    NotNumbered();
    hide Numbered, Later;
    BindsKept(s1, s2);
    assert ParamsOf(body) <= s2.c.binds.Keys by { BindsKept(s1, s2); }
  }

  lemma FitsMore(body: seq<Stmt>, vars: set<string>, collection: string, s: State, s': State, r: string, ok: bool)
    requires Fits(body, vars, collection, s, s', r, {}, ok)
    ensures Fits(body, vars, collection, s, s', r, Extras(), ok)
  {
    hide Good, Later, Scoped, ParamsOf, Declared, Cursors;
  }

  /** A name handed out after the fact changes nothing. */
  lemma FitsThen(body: seq<Stmt>, vars: set<string>, collection: string, s: State, s1: State, s2: State, r: string,
      ok: bool)
    requires Fits(body, vars, collection, s, s1, r, Extras(), ok) && Good(s2) && Later(s1, s2)
    ensures Fits(body, vars, collection, s, s2, r, Extras(), ok)
  {
    hide Good, Scoped, ParamsOf, Declared, Cursors;
    LaterTrans(s, s1, s2);
    BindsKept(s1, s2);
  }

  lemma AncestorsDeclared(db: Db, cursor: string, names: seq<string>, s: State)
    ensures Declared(MergeAncestors(db, cursor, names, s).0) == {"merge_with_ancestor"}
  {
    hide LookUp, Documents, Select;
    var (body, _) := MergeAncestors(db, cursor, names, s);
    assert body[1..] == [];
  }

  lemma OnceNothing(body: seq<Stmt>, names: set<string>)
    requires Cursors(body) == multiset{}
    ensures Once(body, names)
  {
  }

  lemma AggregateFits(q: Query, body: seq<Stmt>, crs: string, vars: set<string>, c: string, s: State, s2: State,
      ok: bool)
    requires Fits(body, vars, c, s, s2, crs, Extras(), ok) && Good(s2) && "aggregated" !in vars + Declared(body)
    requires vars + Declared(body) <= s2.issued + {"merge_with_ancestor"}
    ensures var (nxt, s3) := NextCrs(s2, "m");
            var (agg, s4) := NextCrs(s3, "agg");
            var body3 := body + [Let("aggregated", [For(agg, crs, Each), Use([agg])])];
            && Fits(body3, vars, c, s, s4, "aggregated", Extras(), ok)
            && Fits(body3 + [Let(nxt, [For("res", "aggregated", Each), Use(["res"])])], vars, c, s, s4, nxt, Extras(), ok)
  {
    hide Good, Later, Fits, Declared, NextCrs, Scoped, ParamsOf, Cursors, Once;
    var (nxt, s3) := NextCrs(s2, "m");
    NextCrsFresh(s2, "m");
    var (agg, s4) := NextCrs(s3, "agg");
    NextCrsFresh(s3, "agg");
    LaterTrans(s2, s3, s4);
    NotNumbered();
    FixedNotIssued(s2, s2.issued);
    hide Numbered;
    FitsFacts(body, vars, c, s, s2, crs, Extras(), ok);
    var a, b := Let("aggregated", [For(agg, crs, Each), Use([agg])]), Let(nxt, [For("res", "aggregated", Each), Use(["res"])]);
    var vars2 := vars + Declared(body);
    AggregatedScoped(a, agg, crs, vars2, c, s2, s4);
    ResultScoped(b, nxt, vars2 + {"aggregated"}, c);
    AggregateSteps(a, b, nxt, vars2, c, s2, s4, s4.issued - s2.issued - {nxt});
    FitsSeq(body, [a], vars, c, s, s2, s4, crs, "aggregated", Extras(), ok, true);
    FitsSeq(body, [a] + [b], vars, c, s, s2, s4, crs, nxt, Extras(), ok, true);
    assert body + [a] + [b] == body + ([a] + [b]);
  }

  lemma AggregatedScoped(a: Stmt, agg: string, crs: string, vars: set<string>, c: string, s2: State, s4: State)
    requires a == Let("aggregated", [For(agg, crs, Each), Use([agg])]) && "aggregated" !in vars && agg !in vars
    requires crs in vars + {c}
    ensures StmtScoped(a, vars, c) && Declares(a) == {"aggregated"} && StmtParams(a) == {}
    ensures forall x :: StmtCursors(a)[x] <= if x == agg then 1 else 0
  {
    hide Scoped, ParamsOf, Cursors, Declared;
    var inner := [For(agg, crs, Each)] + [Use([agg])];
    assert [For(agg, crs, Each), Use([agg])] == inner;
    ScopedPlus([For(agg, crs, Each)], [Use([agg])], vars, c);
    ScopedOne(For(agg, crs, Each), vars, c);
    ScopedOne(Use([agg]), vars + {agg}, c);
    NotNumbered();
  }

  lemma ResultScoped(b: Stmt, nxt: string, vars: set<string>, c: string)
    requires b == Let(nxt, [For("res", "aggregated", Each), Use(["res"])]) && nxt !in vars && "res" !in vars
    requires "aggregated" in vars
    ensures StmtScoped(b, vars, c) && Declares(b) == {nxt} && StmtParams(b) == {}
    ensures forall x :: StmtCursors(b)[x] <= if x == nxt then 1 else 0
  {
    hide Scoped, ParamsOf, Cursors, Declared;
    var inner := [For("res", "aggregated", Each)] + [Use(["res"])];
    assert [For("res", "aggregated", Each), Use(["res"])] == inner;
    ScopedPlus([For("res", "aggregated", Each)], [Use(["res"])], vars, c);
    ScopedOne(For("res", "aggregated", Each), vars, c);
    ScopedOne(Use(["res"]), vars + {"res"}, c);
    NotNumbered();
  }

  lemma AggregateSteps(a: Stmt, b: Stmt, nxt: string, vars: set<string>, c: string, s2: State, s4: State,
                       names: set<string>)
    requires Good(s4) && Later(s2, s4) && nxt in s4.issued - s2.issued && names == s4.issued - s2.issued - {nxt}
    requires StmtScoped(a, vars, c) && Declares(a) == {"aggregated"} && StmtParams(a) == {}
    requires StmtScoped(b, vars + {"aggregated"}, c) && Declares(b) == {nxt} && StmtParams(b) == {}
    requires forall x :: StmtCursors(a)[x] <= if x in names then 1 else 0
    requires forall x :: StmtCursors(b)[x] <= if x == nxt then 1 else 0
    ensures Fits([a], vars, c, s2, s4, "aggregated", Extras(), true)
    ensures Fits([a] + [b], vars, c, s2, s4, nxt, Extras(), true)
  {
    hide Good, Later, Scoped, ParamsOf, Cursors, Declared, StmtScoped, StmtParams, StmtCursors, Declares;
    ScopedOne(a, vars, c);
    ScopedOne(b, vars + {"aggregated"}, c);
    ScopedPlus([a], [b], vars, c);
  }
}
