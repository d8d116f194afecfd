/** Merges, parts and whole queries, which contain each other, fit where they are put. */
module AqlMerges {
  import opened Aql
  import opened AqlTerms
  import opened Options
  import opened Decimal
  import opened AqlQueries
  import opened AqlPieces

  lemma {:induction false} MergeOneFits(db: Db, cursor: string, q: Query, s: State, vars: set<string>)
    requires Good(s) && vars <= s.issued && cursor in vars && PlainQuery(q) && db.collection != ""
    ensures var (partRes, one, s') := MergeOne(db, cursor, q, s);
            Fits([one], vars, db.collection, s, s', partRes, {}, MergeNamed(db, q)) && Declares(one) == {partRes}
    decreases q, 7
  {
    hide Good, Later, Fits, PlainQuery, WellNamed, NextCrs, QueryString, AlreadyResolved, StartsWithNavigation, Fail,
        Reference, StartsPlain;
    var (partRes, s1) := NextCrs(s, "part_res");
    NextCrsFresh(s, "part_res");
    MergeTests(db.resolved, q);
    var kind := AlreadyResolved(db.resolved, q);
    if kind.Some? {
      LetRefFits(partRes, cursor, kind.value, vars, db.collection, s, s1);
    } else if !StartsWithNavigation(q) {
      FailLater(s1);
      LaterTrans(s, s1, Fail(s1));
      LetOfFits(partRes, [], vars, db.collection, s, Fail(s1));
    } else {
      var (_, s2) := NextCrs(s1, "merge_part");
      NextCrsFresh(s1, "merge_part");
      LaterTrans(s, s1, s2);
      var (crs, body, s3) := QueryString(db, q, cursor, true, s2);
      QueryFits(db, q, cursor, true, s2, vars);
      MergePartFits(partRes, body, crs, vars, db.collection, s, s2, s3, WellNamed(db, q));
    }
  }

  lemma {:induction false} MergeAllFits(db: Db, cursor: string, merges: seq<Query>, s: State, vars: set<string>)
    requires Good(s) && vars <= s.issued && cursor in vars && PlainMerges(merges) && db.collection != ""
    ensures var (names, body, s') := MergeAll(db, cursor, merges, s);
            && Fits(body, vars, db.collection, s, s', cursor, {}, MergesNamed(db, merges))
            && AllIn(names, vars + Declared(body))
    decreases merges, 1
  {
    hide Good, Later, Fits, PlainQuery, MergeNamed, MergeOne, Declared, Declares, Scoped, ParamsOf, Cursors;
    if merges == [] {
      FitsNothing(vars, db.collection, s, cursor);
    } else {
      var (partRes, one, s1) := MergeOne(db, cursor, merges[0], s);
      var ok := MergeNamed(db, merges[0]);
      MergeOneFits(db, cursor, merges[0], s, vars);
      FitsFacts([one], vars, db.collection, s, s1, partRes, {}, ok);
      ScopedOne(one, vars, db.collection);
      var (names, rest, s2) := MergeAll(db, cursor, merges[1..], s1);
      MergeAllFits(db, cursor, merges[1..], s1, vars + {partRes});
      FitsSeq([one], rest, vars, db.collection, s, s1, s2, partRes, cursor, {}, ok, MergesNamed(db, merges[1..]));
      ScopedPlus([one], rest, vars, db.collection);
    }
  }

  lemma {:induction false} MergeFits(db: Db, cursor: string, merges: seq<Query>, s: State, vars: set<string>)
    requires Good(s) && vars <= s.issued && cursor in vars + {db.collection} && PlainMerges(merges)
    requires db.collection != ""
    ensures var (result, body, s') := MergeStatement(db, cursor, merges, s);
            Fits(body, vars, db.collection, s, s', result, {}, MergesNamed(db, merges))
    decreases merges, 2
  {
    hide Good, Later, Fits, PlainMerges, MergesNamed, MergeAll, NextCrs, Scoped, ParamsOf, Cursors, Declared, Once;
    var (result, s1) := NextCrs(s, "merge_result");
    NextCrsFresh(s, "merge_result");
    var (mergeCursor, s2) := NextCrs(s1, "m");
    NextCrsFresh(s1, "m");
    LaterTrans(s, s1, s2);
    var vars' := vars + {mergeCursor};
    var (names, body, s3) := MergeAll(db, mergeCursor, merges, s2);
    MergeAllFits(db, mergeCursor, merges, s2, vars');
    FitsFacts(body, vars', db.collection, s2, s3, mergeCursor, {}, MergesNamed(db, merges));
    LaterTrans(s, s2, s3);
    var inner := [For(mergeCursor, cursor, Each)] + body + [Use([mergeCursor] + names)];
    MergeScoped(body, names, mergeCursor, cursor, vars, db.collection, s2, s3, mergeCursor, MergesNamed(db, merges));
    OnceMore(inner, s3.issued - s2.issued + {mergeCursor}, s3.issued - s.issued - {result});
    LetFits(result, inner, vars, db.collection, s, s3, MergesNamed(db, merges));
  }

  lemma TermFits(db: Db, p: Part, cursor: string, s: State, vars: set<string>)
    requires Good(s) && vars <= s.issued && cursor in vars + {db.collection} && PlainPart(p) && db.collection != ""
    ensures var (crs, filtered, body, s') := TermStatement(db, p, cursor, s);
            && Fits(body, vars, db.collection, s, s', crs, {}, PartNamed(db, p))
            && (if HasFilter(p) then filtered in vars + Declared(body) else filtered == "")
    decreases p, 3
  {
    hide Good, Later, Fits, PlainMerges, MergesNamed, FilterStatement, MergeStatement, Declared, Filters;
    match p.term
    case Simple(t) => FilterFits(db.model, p, cursor, t, s, vars, db.collection);
    case Merge(pre, merges, post) =>
      var c := db.collection;
      var (crs1, body1, s1) := FilterStatement(db.model, p, cursor, pre, s);
      FilterFits(db.model, p, cursor, pre, s, vars, c);
      FitsFacts(body1, vars, c, s, s1, crs1, {}, true);
      var vars1 := vars + Declared(body1);
      var (crs2, body2, s2) := MergeStatement(db, crs1, merges, s1);
      MergeFits(db, crs1, merges, s1, vars1);
      FitsFacts(body2, vars1, c, s1, s2, crs2, {}, MergesNamed(db, merges));
      FitsSeq(body1, body2, vars, c, s, s1, s2, crs1, crs2, {}, true, MergesNamed(db, merges));
      DeclaredPlus(body1, body2);
      var t := if post.Some? then post.value else AllTerm;
      var (crs3, body3, s3) := FilterStatement(db.model, p, crs2, t, s2);
      var vars2 := vars + Declared(body1 + body2);
      assert vars2 == vars1 + Declared(body2);
      FilterFits(db.model, p, crs2, t, s2, vars2, c);
      FitsSeq(body1 + body2, body3, vars, c, s, s2, s3, crs2, crs3, {}, MergesNamed(db, merges), true);
      DeclaredPlus(body1 + body2, body3);
  }

  lemma PartFits(db: Db, p: Part, cursor: string, direct: bool, s: State, vars: set<string>)
    requires Good(s) && vars <= s.issued && cursor in vars + {db.collection} && PlainPart(p) && db.collection != ""
    ensures var (crs, filtered, body, s') := PartStatement(db, p, cursor, direct, s);
            && Fits(body, vars, db.collection, s, s', crs, {}, PartNamed(db, p))
            && (if HasFilter(p) then filtered in vars + Declared(body) else filtered == "")
    decreases p, 4
  {
    hide Good, Later, Fits, PlainPart, PartNamed, TermStatement, WithStatement, Navigate, Declared, HasFilter;
    var c := db.collection;
    var (crs1, filtered, body1, s1) := TermStatement(db, p, cursor, s);
    TermFits(db, p, cursor, s, vars);
    FitsFacts(body1, vars, c, s, s1, crs1, {}, PartNamed(db, p));
    var vars1 := vars + Declared(body1);
    var (crs2, body2, s2) := if p.withClause.Some? then WithStatement(db.model, crs1, p.withClause.value, s1)
                             else (crs1, [], s1);
    if p.withClause.Some? {
      WithFits(db.model, crs1, p.withClause.value, s1, vars1, c);
    } else {
      FitsNothing(vars1, c, s1, crs1);
    }
    FitsFacts(body2, vars1, c, s1, s2, crs2, {}, true);
    FitsSeq(body1, body2, vars, c, s, s1, s2, crs1, crs2, {}, PartNamed(db, p), true);
    DeclaredPlus(body1, body2);
    var vars2 := vars + Declared(body1 + body2);
    assert vars2 == vars1 + Declared(body2);
    var (crs3, body3, s3) := if p.nav.Some? then Navigate(crs2, p.nav.value, direct, db.edges, s2)
                             else (crs2, [], s2);
    if p.nav.Some? {
      NavigateFits(crs2, p.nav.value, direct, db.edges, s2, vars2, c);
    } else {
      FitsNothing(vars2, c, s2, crs2);
    }
    FitsSeq(body1 + body2, body3, vars, c, s, s2, s3, crs2, crs3, {}, PartNamed(db, p), true);
    DeclaredPlus(body1 + body2, body3);
  }

  /** What is tagged is in scope, except for the empty name of a part without a filter. */
  ghost predicate TagsKnown(tagged: seq<string>, known: set<string>, ok: bool) {
    && (forall t :: t in tagged && t != "" ==> t in known)
    && ("" !in tagged <==> ok)
  }

  lemma PartsFits(db: Db, parts: seq<Part>, cursor: string, direct: bool, s: State, vars: set<string>)
    requires Good(s) && vars <= s.issued && cursor in vars + {db.collection} && PlainParts(parts) && db.collection != ""
    ensures var (crs, tagged, body, s') := Parts(db, parts, cursor, direct, s);
            && Fits(body, vars, db.collection, s, s', crs, {}, PartsNamed(db, parts))
            && TagsKnown(tagged, vars + Declared(body), TagsFilter(parts))
    decreases parts, 5
  {
    hide Good, Later, Fits, PlainPart, PartNamed, PartStatement, Declared, HasFilter;
    if parts == [] {
      FitsNothing(vars, db.collection, s, cursor);
    } else {
      var c, last := db.collection, |parts| - 1;
      var p, ok := parts[last], PartsNamed(db, parts[..last]);
      var (crs1, filtered, body1, s1) := PartStatement(db, p, cursor, direct, s);
      PartFits(db, p, cursor, direct, s, vars);
      FitsFacts(body1, vars, c, s, s1, crs1, {}, PartNamed(db, p));
      var vars1 := vars + Declared(body1);
      var (crs2, tagged, body2, s2) := Parts(db, parts[..last], crs1, false, s1);
      PartsFits(db, parts[..last], crs1, false, s1, vars1);
      FitsSeq(body1, body2, vars, c, s, s1, s2, crs1, crs2, {}, PartNamed(db, p), ok);
      DeclaredPlus(body1, body2);
      assert vars + Declared(body1 + body2) == vars1 + Declared(body2);
      PartsNamedLast(db, parts);
      NotNumbered();
      hide Numbered;
      FitsUnless(body1, vars, c, s, s1, crs1, {}, PartNamed(db, p), "");
      TagsKnownLast(db, parts, filtered, tagged, vars1, vars1 + Declared(body2));
    }
  }

  lemma PartsNamedLast(db: Db, parts: seq<Part>)
    requires parts != []
    ensures PartsNamed(db, parts) <==> PartNamed(db, parts[|parts| - 1]) && PartsNamed(db, parts[..|parts| - 1])
    ensures TagsFilter(parts)
       <==> (parts[|parts| - 1].tagged ==> HasFilter(parts[|parts| - 1])) && TagsFilter(parts[..|parts| - 1])
  {
    hide PartNamed, HasFilter;
    var init := parts[..|parts| - 1];
    assert forall i :: 0 <= i < |init| ==> init[i] == parts[i];
  }

  lemma TagsKnownLast(db: Db, parts: seq<Part>, filtered: string, tagged: seq<string>, before: set<string>,
      known: set<string>)
    requires parts != [] && before <= known && "" !in before
    requires var p := parts[|parts| - 1]; if HasFilter(p) then filtered in before else filtered == ""
    requires TagsKnown(tagged, known, TagsFilter(parts[..|parts| - 1]))
    ensures TagsKnown((if parts[|parts| - 1].tagged then [filtered] else []) + tagged, known, TagsFilter(parts))
  {
    hide HasFilter, TagsFilter, PartNamed;
    PartsNamedLast(db, parts);
  }

  lemma NoAncestors(db: Db)
    ensures AncestorsNamed(db, [])
  {
  }

  lemma PipelineFits(db: Db, q: Query, start: string, direct: bool, s: State, vars: set<string>)
    requires Good(s) && vars <= s.issued && start in vars + {db.collection} && PlainQuery(q) && db.collection != ""
    ensures var (crs, tagged, body, s') := Pipeline(db, q, start, direct, s);
            && Fits(body, vars, db.collection, s, s', crs, Extras(),
                    AncestorsNamed(db, q.ancestors) && PartsNamed(db, q.parts))
            && TagsKnown(tagged, vars + Declared(body), TagsFilter(q.parts))
            && "aggregated" !in vars + Declared(body) && "" !in vars + Declared(body)
            && vars + Declared(body) <= s'.issued + {"merge_with_ancestor"}
    decreases q, 5
  {
    hide Good, Later, Fits, PlainParts, PartsNamed, TagsFilter, MergeAncestors, Parts, Declared, PlainNames,
        AncestorsNamed;
    var c := db.collection;
    var (crs1, tagged, body1, s1) := Parts(db, q.parts, start, direct, s);
    var ok, named := PartsNamed(db, q.parts), AncestorsNamed(db, q.ancestors);
    PartsFits(db, q.parts, start, direct, s, vars);
    FitsFacts(body1, vars, c, s, s1, crs1, {}, ok);
    NotNumbered();
    hide Numbered;
    FitsUnless(body1, vars, c, s, s1, crs1, {}, ok, "");
    FitsUnless(body1, vars, c, s, s1, crs1, {}, ok, "aggregated");
    FitsMore(body1, vars, c, s, s1, crs1, ok);
    if q.ancestors == [] {
      NoAncestors(db);
    } else {
      var vars1 := vars + Declared(body1);
      var (body2, s2) := MergeAncestors(db, crs1, q.ancestors, s1);
      AncestorsFits(db, crs1, q.ancestors, s1, vars1);
      FitsSeq(body1, body2, vars, c, s, s1, s2, crs1, "merge_with_ancestor", Extras(), ok, named);
      FitsFacts(body2, vars1, c, s1, s2, "merge_with_ancestor", Extras(), named);
      DeclaredPlus(body1, body2);
      AncestorsDeclared(db, crs1, q.ancestors, s1);
    }
  }

  lemma {:induction false} QueryFits(db: Db, q: Query, start: string, direct: bool, s: State, vars: set<string>)
    requires Good(s) && vars <= s.issued && start in vars + {db.collection} && PlainQuery(q) && db.collection != ""
    ensures var (crs, body, s') := QueryString(db, q, start, direct, s);
            Fits(body, vars, db.collection, s, s', crs, Extras(), WellNamed(db, q))
    decreases q, 6
  {
    hide Good, Later, Fits, PlainQuery, PartsNamed, TagsFilter, MergeAncestors, Parts, Declared, NextCrs, Scoped,
        ParamsOf, Cursors, Once, TagsKnown, AncestorsNamed;
    var c, ok := db.collection, AncestorsNamed(db, q.ancestors) && PartsNamed(db, q.parts);
    var (crs2, tagged, body, s2) := Pipeline(db, q, start, direct, s);
    PipelineFits(db, q, start, direct, s, vars);
    FitsFacts(body, vars, c, s, s2, crs2, Extras(), ok);
    QueryShape(db, q, start, direct, s);
    hide Pipeline, QueryString;
    if q.aggregate {
      AggregateFits(q, body, crs2, vars, c, s, s2, ok);
    } else {
      TaggedFits(q, body, tagged, crs2, vars, c, s, s2, ok);
    }
  }

  lemma TaggedFits(q: Query, body: seq<Stmt>, tagged: seq<string>, crs: string, vars: set<string>, c: string,
                   s: State, s2: State, ok: bool)
    requires Fits(body, vars, c, s, s2, crs, Extras(), ok) && Good(s2) && c != "" && "" !in vars + Declared(body)
    requires vars + Declared(body) <= s2.issued + {"merge_with_ancestor"}
    requires TagsKnown(tagged, vars + Declared(body), TagsFilter(q.parts))
    ensures var (nxt, s3) := NextCrs(s2, "m");
            if tagged != [] then Fits(body + [Let(nxt, [Use(tagged + [crs])])], vars, c, s, s3, nxt, Extras(),
                TagsFilter(q.parts) && ok)
            else TagsFilter(q.parts) && Fits(body, vars, c, s, s3, crs, Extras(), ok)
  {
    hide Good, Later, Fits, Declared, NextCrs, Scoped, ParamsOf, Cursors, Once, TagsFilter;
    var (nxt, s3) := NextCrs(s2, "m");
    NextCrsFresh(s2, "m");
    if tagged == [] {
      FitsThen(body, vars, c, s, s2, s3, crs, ok);
    } else {
      NotNumbered();
      hide Numbered;
      FitsFacts(body, vars, c, s, s2, crs, Extras(), ok);
      var vars2 := vars + Declared(body);
      var inner := [Use(tagged + [crs])];
      ScopedOne(inner[0], vars2, c);
      OnceNothing(inner, s3.issued - s2.issued - {nxt});
      TagsUse(tagged, crs, vars2, c, TagsFilter(q.parts));
      LastLet(body, nxt, inner, vars, c, s, s2, s3, crs, ok, TagsFilter(q.parts));
    }
  }

  lemma TagsUse(tagged: seq<string>, crs: string, known: set<string>, c: string, ok: bool)
    requires TagsKnown(tagged, known, ok) && c != "" && "" !in known && crs in known + {c}
    ensures AllIn(tagged + [crs], known + {c}) <==> ok
  {
    if "" in tagged {
      assert "" in tagged + [crs];
    }
  }
}
