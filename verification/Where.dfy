/** `where(fn)`: drives one query build from the table's empty query. */
module Where {
  import opened Conditions
  import opened Predicates
  import opened QueryBuilder
  import opened QueryMeaning
  import opened QueryExact

  /** The query that replaces the results' earlier predicate. */
  method BuildQuery(s: Storage, t: Pred) returns (full: CoreQuery)
    ensures fresh(full) && full.cond == Compile(s, t, True).result
    ensures Safe(s, t) ==> forall db, o :: Selects(full.cond, db, o) == Means(InsteadAll(t), db, o)
    ensures Safe(s, t) && AllFaithful(t) ==> forall db, o :: Selects(full.cond, db, o) == Means(t, db, o)
  {
    var root := new CoreQuery(True);
    var builder := new RBool(s, root);
    var r := Evaluate(t, builder);
    full := Copy(s, r.q);
    if Safe(s, t) {
      forall db, o
        ensures Selects(full.cond, db, o) == Means(InsteadAll(t), db, o)
        ensures AllFaithful(t) ==> Selects(full.cond, db, o) == Means(t, db, o)
      {
        CompiledSelects(s, t, db, o);
      }
    }
  }
}
