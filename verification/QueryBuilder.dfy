/** The recording builder: `rbool` over the two storage modes of the bridge query. */
module QueryBuilder {
  import opened Conditions
  import opened Predicates

  /** A core query: conditions are added to it in place. */
  class CoreQuery {
    var cond: Condition

    constructor (c: Condition)
      ensures cond == c
    {
      cond := c;
    }
  }

  /** Copying a bridge query: a new core query, or the same one. */
  method Copy(s: Storage, src: CoreQuery) returns (dst: CoreQuery)
    ensures s.Shared? ==> dst == src
    ensures s.Owned? ==> fresh(dst) && dst.cond == src.cond
  {
    if s.Shared? {
      dst := src;
    } else {
      dst := new CoreQuery(src.cond);
    }
  }

  class RBool {
    const storage: Storage
    var q: CoreQuery
    var chain: seq<Column>  // links navigated and not yet consumed

    constructor (s: Storage, query: CoreQuery)
      ensures storage == s && q == query && chain == []
    {
      storage := s;
      q := query;
      chain := [];
    }

    /** Assigning a temporary query to `q`. */
    method Assign(src: CoreQuery)
      requires src != q
      modifies this`q, q
      ensures storage.Shared? ==> q == src && old(q).cond == old(q.cond)
      ensures storage.Owned? ==> q == old(q)
      ensures q.cond == old(src.cond)
    {
      if storage.Shared? {
        q := src;
      } else {
        q.cond := src.cond;
      }
    }

    /** `q.op(...)`: the core query is extended in place, then a copy of it is assigned to `q`. */
    method ExtendQuery(a: Atom)
      modifies this`q, q
      ensures q.cond == Conj(old(q.cond), Test(a)) && old(q).cond == q.cond
      ensures if storage.Shared? then fresh(q) else q == old(q)
    {
      q.cond := Conj(q.cond, Test(a));
      var copy := new CoreQuery(q.cond);
      Assign(copy);
    }

    /** `q = query(table).op(...)` or a comparison on a link chain: a query of its own. */
    method ReplaceQuery(a: Atom)
      modifies this`q, q
      ensures q.cond == Conj(True, Test(a))
      ensures if storage.Shared? then fresh(q) && old(q).cond == old(q.cond) else q == old(q)
    {
      var root := new CoreQuery(Conj(True, Test(a)));
      Assign(root);
    }

    /** Navigating a link on the recording object. */
    method AddLinkChain(col: Column)
      modifies this`chain
      ensures chain == old(chain) + [col]
    {
      if chain != [] {
        chain := chain + [col];
      } else {
        chain := [col];
      }
    }

    method Navigate(path: seq<Column>)
      modifies this`chain
      ensures chain == old(chain) + path
    {
      for i := 0 to |path|
        invariant chain == old(chain) + path[..i]
      {
        AddLinkChain(path[i]);
      }
      assert path[..|path|] == path;
    }

    /** A comparison operator on a property of the recording object: every comparison except
        a dictionary one uses up the pending chain; a mixed or link one without a chain extends the
        query held so far, all others start from the table. */
    method Comparison(l: Leaf) returns (r: RBool)
      modifies this, q
      ensures fresh(r) && r.storage == storage && r.chain == []
      ensures chain == if OnDictionary(l) then old(chain) else []
      ensures var a := RecordedVia(old(chain), l);
              q.cond == if (l.MixedField? || l.LinkField?) && old(chain) == [] then Conj(old(q.cond), Test(a))
                        else Conj(True, Test(a))
      ensures r.q.cond == q.cond
      ensures storage.Shared? ==> r.q == q && fresh(q)
      ensures storage.Owned? ==> q == old(q) && fresh(r.q)
      ensures (l.MixedField? || l.LinkField?) && old(chain) == [] ==> old(q).cond == q.cond
      ensures storage.Shared? && !((l.MixedField? || l.LinkField?) && old(chain) == []) ==> old(q).cond == old(q.cond)
    {
      var a := RecordedVia(chain, l);
      if OnDictionary(l) {
        ReplaceQuery(a);
      } else if chain != [] {
        ReplaceQuery(a);
        chain := [];
      } else if l.MixedField? || l.LinkField? {
        ExtendQuery(a);
      } else {
        ReplaceQuery(a);
      }
      var copy := Copy(storage, q);
      r := new RBool(storage, copy);
    }

    /** `!rbool`, on a query. */
    method Negate() returns (r: RBool)
      modifies this`q, q
      ensures q.cond == Neg(old(q.cond))
      ensures if storage.Shared? then fresh(q) && old(q).cond == old(q.cond) else q == old(q)
      ensures fresh(r) && r.storage == storage && r.chain == [] && r.q.cond == q.cond
      ensures if storage.Shared? then r.q == q else fresh(r.q)
    {
      var negated := new CoreQuery(Neg(q.cond));
      Assign(negated);
      var copy := Copy(storage, q);
      r := new RBool(storage, copy);
    }

    /** `lhs && rhs`, on a query: the left core query is extended in place. */
    method AndWith(rhs: RBool) returns (r: RBool)
      modifies q
      ensures q.cond == Conj(old(q.cond), old(rhs.q.cond))
      ensures fresh(r) && r.storage == storage && r.chain == [] && r.q.cond == q.cond
      ensures if storage.Shared? then r.q == q else fresh(r.q)
    {
      q.cond := Conj(q.cond, rhs.q.cond);
      var copy := Copy(storage, q);
      r := new RBool(storage, copy);
    }

    /** `lhs || rhs`, on a query: the disjunction is a new core query. */
    method OrWith(rhs: RBool) returns (r: RBool)
      modifies this`q, q
      ensures q.cond == Disj(old(q.cond), old(rhs.q.cond))
      ensures if storage.Shared? then fresh(q) && old(q).cond == old(q.cond) else q == old(q)
      ensures fresh(r) && r.storage == storage && r.chain == [] && r.q.cond == q.cond
      ensures if storage.Shared? then r.q == q else fresh(r.q)
    {
      var either := new CoreQuery(Disj(q.cond, rhs.q.cond));
      Assign(either);
      var copy := Copy(storage, q);
      r := new RBool(storage, copy);
    }
  }

  /** Evaluates the user's expression left to right against the builder. */
  method Evaluate(t: Pred, builder: RBool) returns (r: RBool)
    requires builder.chain == []
    modifies builder, builder.q
    ensures builder.chain == [] && fresh(r) && fresh(r.q) && r.storage == builder.storage
    ensures builder.q == old(builder.q) || fresh(builder.q)
    ensures var x := Compile(builder.storage, t, old(builder.q.cond));
            && r.q.cond == x.result
            && builder.q.cond == x.builder
            && old(builder.q).cond == x.first
            && (r.q == builder.q <==> x.shares)
            && (builder.q != old(builder.q) <==> x.moved)
    decreases t
  {
    ghost var b := builder.q.cond;
    match t
    case Is(l) =>
      builder.Navigate(Path(l));
      assert builder.chain == Path(l);
      r := builder.Comparison(l);
    case Everything =>
      var all := new CoreQuery(True);
      r := new RBool(builder.storage, all);
    case Nothing =>
      var none := new CoreQuery(Conj(True, False));
      r := new RBool(builder.storage, none);
    case Not(p) =>
      SharingFacts(builder.storage, p, b);
      var x := Evaluate(p, builder);
      r := x.Negate();
    case And(p, q) =>
      SharingFacts(builder.storage, p, b);
      SharingFacts(builder.storage, q, Compile(builder.storage, p, b).builder);
      var x := Evaluate(p, builder);
      var y := Evaluate(q, builder);
      r := x.AndWith(y);
    case Or(p, q) =>
      SharingFacts(builder.storage, p, b);
      SharingFacts(builder.storage, q, Compile(builder.storage, p, b).builder);
      var x := Evaluate(p, builder);
      var y := Evaluate(q, builder);
      r := x.OrWith(y);
  }
}
