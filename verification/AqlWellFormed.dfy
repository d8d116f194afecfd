/** The names in a compiled query. */
module AqlWellFormed {
  import opened Aql
  import opened AqlTerms
  import opened Options
  import opened Decimal
  import opened AqlQueries
  import opened AqlPieces
  import opened AqlMerges

  /** Every name is used where it is declared: for every query, to_query binds each placeholder, declares
      each numbered cursor at most once in the whole text, and every variable is in scope where it is used
      and never declared twice if and only if every tagged part has a filter and the ancestors' names do not
      collide with one another or with those of the lookup. */
  lemma QueryWellFormed(db: Db, q: Query)
    requires PlainQuery(q) && db.collection != ""
    ensures var (body, s) := ToQuery(db, q);
            && ParamsOf(body) <= s.c.binds.Keys
            && (forall x :: Cursors(body)[x] <= 1)
            && (Scoped(body, {}, db.collection) <==> WellNamed(db, q))
  {
    hide Good, Later, PlainQuery, WellNamed, QueryString, Scoped, ParamsOf, Cursors, Declared;
    var s0 := State(Compiled(map[], map[], false), {});
    StartGood();
    var (crs, body, s) := QueryString(db, q, db.collection, false, s0);
    QueryFits(db, q, db.collection, false, s0, {});
    NotNumbered();
    FitsUnless(body, {}, db.collection, s0, s, crs, Extras(), WellNamed(db, q), "result");
    FixedScoped(body, "result", crs, {}, db.collection, s.issued - s0.issued);
  }
}
