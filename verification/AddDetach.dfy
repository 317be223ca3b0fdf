/** Adding a graph and reading it back. */
module AddDetach {
  import opened Store
  import opened Graph
  import opened GraphInvariant
  import opened GraphFrame
  import opened RoundTrip
  import opened Sharing
  import opened Upsert
  import opened Mirror
  import opened Rebuild

  // ----- adding to tables that hold none of the keys

  lemma CreatedIsReady(sch: Schema, env: map<Ref, Obj>, st: Tables, o: Obj)
    requires ValidSchema(sch) && WellFormed(sch, st) && Typed(sch, o) && !EmbeddedClass(sch, o.cls)
    requires Solid(o) && Named(sch, env, o) && env.Keys !! st.rows.Keys
    ensures var c := Create(sch, st, o);
            c.ok && AtProp(sch, env, c.st, map[c.ref := o], map[c.ref := 0], c.ref, o.vals, 0, {})
  {
    var c := Create(sch, st, o);
    CreatedRow(sch, st, o);
    CreatedIsOutside(sch, env, st, o);
    NamedKeys(sch, env, o);
    assert PropKeys(sch, o.vals) <= Keys(sch, o);
    ForProps(sch, env, c.st, map[c.ref := o], map[c.ref := 0], c.ref, o, {});
  }

  lemma CreatedIsOutside(sch: Schema, env: map<Ref, Obj>, st: Tables, o: Obj)
    requires ValidSchema(sch) && WellFormed(sch, st) && Typed(sch, o) && !EmbeddedClass(sch, o.cls) && Named(sch, env, o)
    ensures var c := Create(sch, st, o);
            c.ok && Outside(sch, c.st, c.ref, PropKeys(sch, o.vals), {}) && Suits(sch, c.ref, o.vals)
  {
    var c := Create(sch, st, o);
    CreatedRow(sch, st, o);
    assert GoodTarget(sch, st, c, o) by { CreateKeeps(sch, st, o); }
    assert !IsEmbedded(sch, c.ref);
    if c.ref in PropKeys(sch, o.vals) { KeyInside(sch, env, o, c.ref); }
  }

  lemma AddMirrors(sch: Schema, env: map<Ref, Obj>, st: Tables, o: Obj) returns (sh: Shadow)
    requires ValidSchema(sch) && WellFormed(sch, st) && Typed(sch, o) && !EmbeddedClass(sch, o.cls)
    requires Solid(o) && Named(sch, env, o) && env.Keys !! st.rows.Keys
    ensures var m := Add(sch, st, o);
            && m.ok && WellFormed(sch, m.st) && m.ref in m.st.rows && StandsFor(sh, m.ref, o)
            && Mirrors(sch, m.st, sh, map[]) && KeysStand(env, m.st, sh)
  {
    var c := Create(sch, st, o);
    CreatedIsReady(sch, env, st, o);
    sh := MirrorProps(sch, env, c.st, map[c.ref := o], map[c.ref := 0], c.ref, o.vals, 0, {});
    assert map[c.ref := 0] - {c.ref} == map[];
    assert StandsFor(sh, c.ref, map[c.ref := o][c.ref]);
    RootRemains(sch, st, o);
  }

  lemma RootRemains(sch: Schema, st: Tables, o: Obj)
    requires ValidSchema(sch) && WellFormed(sch, st) && Typed(sch, o) && !EmbeddedClass(sch, o.cls)
    ensures var c := Create(sch, st, o); c.ref in WriteProps(sch, c.st, c.ref, o.vals, 0).st.rows
  {
    var c := Create(sch, st, o);
    CreatedRow(sch, st, o);
    assert GoodTarget(sch, st, c, o) by { CreateKeeps(sch, st, o); }
    WritePropsKeeps(sch, c.st, c.ref, o.vals, 0);
  }

  // ----- reading back

  /** The lists of the row are as long as those of its object. */
  ghost predicate Exact(sch: Schema, st: Tables, r: Ref, o: Obj) {
    forall c: nat :: Length(sch, st, r, c) == ObjAdds(sch, o, c)
  }

  ghost predicate AllExact(sch: Schema, st: Tables, sh: Shadow) {
    forall r :: r in sh && r in st.rows && r.Keyed? ==> Exact(sch, st, r, sh[r])
  }

  lemma LinkIsLive(sch: Schema, st: Tables, ref: Ref, col: nat, i: nat)
    requires WellFormed(sch, st) && Live(st, ref, col) && i < |Targets(st.rows[ref][col])|
    ensures ref.cls in sch && col < |sch[ref.cls].props|
    ensures var t := Targets(st.rows[ref][col])[i];
            && t in st.rows && (sch[ref.cls].props[col].KLink? || sch[ref.cls].props[col].KLinks?) && t.cls == sch[ref.cls].props[col].target
  {
    assert At(st.rows, Slot(ref, col, i)).Some?;
    assert RowFits(sch, ref, st.rows[ref]);
  }

  lemma {:induction false} MirrorDetaches(sch: Schema, st: Tables, sh: Shadow, ref: Ref, o: Obj)
    requires ValidSchema(sch) && WellFormed(sch, st) && Mirrors(sch, st, sh, map[]) && AllExact(sch, st, sh)
    requires StandsFor(sh, ref, o) && ref in st.rows && Solid(o)
    ensures Detaches(sch, st.rows, ref, ref.cls, o)
    decreases o
  {
    assert RowMirrors(sch, st, sh, map[], ref);
    forall i | 0 <= i < |o.vals| ensures DetachesCol(sch, st.rows, ref, ref.cls, i, o.vals[i]) {
      SeenOwn(sch, st.rows, ref, i);
      MirrorDetachesVal(sch, st, sh, ref, i, o.vals[i]);
    }
  }

  lemma {:induction false} MirrorDetachesVal(sch: Schema, st: Tables, sh: Shadow, ref: Ref, col: nat, v: Val)
    requires ValidSchema(sch) && WellFormed(sch, st) && Mirrors(sch, st, sh, map[]) && AllExact(sch, st, sh)
    requires ref in sh && Live(st, ref, col) && col < |sh[ref].vals| && sh[ref].vals[col] == v && SolidVal(v)
    ensures ref.cls in sch && col < |sch[ref.cls].props|
    ensures if sch[ref.cls].props[col].KBacklinks? then v == Backlinks
            else DetachesVal(sch, st.rows, ref, sch[ref.cls].props[col], st.rows[ref][col], v)
    decreases v
  {
    var k, cell := sch[ref.cls].props[col], st.rows[ref][col];
    assert RowFits(sch, ref, st.rows[ref]);
    assert RowMirrors(sch, st, sh, map[], ref);
    assert Says(sh, k, ref.Auto?, cell, v);
    match v
    case Link(t) =>
      LinkIsLive(sch, st, ref, col, 0);
      MirrorDetaches(sch, st, sh, cell.link.value, t.value);
    case Links(elems) =>
      SameLength(sch, st, sh, ref, col);
      forall i | 0 <= i < |elems| ensures DetachesElem(sch, st.rows, cell.links[i], k.target, elems[i]) {
        LinkIsLive(sch, st, ref, col, i);
        assert SolidElem(elems[i]);
        MirrorDetaches(sch, st, sh, cell.links[i], elems[i].value);
      }
    case Items(_) => SameLength(sch, st, sh, ref, col);
    case _ =>
  }

  lemma SameLength(sch: Schema, st: Tables, sh: Shadow, ref: Ref, col: nat)
    requires WellFormed(sch, st) && Mirrors(sch, st, sh, map[]) && AllExact(sch, st, sh)
    requires ref in sh && Live(st, ref, col) && col < |sh[ref].vals| && SolidVal(sh[ref].vals[col])
    ensures sh[ref].vals[col].Links? ==> st.rows[ref][col].CLinks? && |st.rows[ref][col].links| == |sh[ref].vals[col].elems|
    ensures sh[ref].vals[col].Items? ==> st.rows[ref][col].CList? && |st.rows[ref][col].items| == |sh[ref].vals[col].items|
  {
    var v := sh[ref].vals[col];
    assert RowFits(sch, ref, st.rows[ref]);
    assert RowMirrors(sch, st, sh, map[], ref);
    assert Says(sh, sch[ref.cls].props[col], ref.Auto?, st.rows[ref][col], v);
    if ref.Keyed? {
      assert Exact(sch, st, ref, sh[ref]);
      assert Length(sch, st, ref, col) == ObjAdds(sch, sh[ref], col);
    }
    if v.Links? {
      forall j | 0 <= j < |v.elems| ensures v.elems[j].Some? { assert SolidElem(v.elems[j]); }
      AllPresentCount(v.elems);
    }
  }

  /** If the root detaches to what it stands for, no keyed row of the graph has a list that is too long. */
  lemma {:induction false} DetachedIsExact(sch: Schema, st: Tables, sh: Shadow, ref: Ref, o: Obj, r: Ref)
    requires ValidSchema(sch) && WellFormed(sch, st) && Mirrors(sch, st, sh, map[]) && Solid(o)
    requires StandsFor(sh, ref, o) && ref in st.rows && Detaches(sch, st.rows, ref, ref.cls, o) && r in Keys(sch, o)
    ensures r in sh && Exact(sch, st, r, sh[r])
    decreases o
  {
    assert RowFits(sch, ref, st.rows[ref]);
    assert RowMirrors(sch, st, sh, map[], ref);
    if HasKey(sch, o) && r == Keyed(o.cls, KeyOf(sch, o)) {
      RootIsExact(sch, st, sh, ref, o);
    } else {
      var i :| 0 <= i < |o.vals| && r in ValKeys(sch, o.vals[i]);
      OwnColumn(sch, st.rows, ref, o, i);
      assert Says(sh, sch[ref.cls].props[i], ref.Auto?, st.rows[ref][i], o.vals[i]);
      match o.vals[i]
      case Link(t) =>
        LinkIsLive(sch, st, ref, i, 0);
        DetachedIsExact(sch, st, sh, st.rows[ref][i].link.value, t.value, r);
      case Links(elems) =>
        var j :| 0 <= j < |elems| && r in ElemKeys(sch, elems[j]);
        var ts := st.rows[ref][i].links;
        assert DetachesElem(sch, st.rows, ts[j], sch[ref.cls].props[i].target, elems[j]) && SolidElem(elems[j]);
        LinkIsLive(sch, st, ref, i, j);
        DetachedIsExact(sch, st, sh, ts[j], elems[j].value, r);
    }
  }

  lemma OwnColumn(sch: Schema, rows: Rows, ref: Ref, o: Obj, i: nat)
    requires ref in rows && ref.cls in sch && ValidClass(sch, sch[ref.cls]) && |rows[ref]| == |sch[ref.cls].props|
    requires Detaches(sch, rows, ref, ref.cls, o) && i < |o.vals| && !sch[ref.cls].props[i].KBacklinks?
    ensures DetachesVal(sch, rows, ref, sch[ref.cls].props[i], rows[ref][i], o.vals[i])
  {
    SeenOwn(sch, rows, ref, i);
    assert DetachesCol(sch, rows, ref, ref.cls, i, o.vals[i]);
  }

  lemma RootIsExact(sch: Schema, st: Tables, sh: Shadow, ref: Ref, o: Obj)
    requires ValidSchema(sch) && WellFormed(sch, st) && Mirrors(sch, st, sh, map[]) && Solid(o)
    requires StandsFor(sh, ref, o) && ref in st.rows && Detaches(sch, st.rows, ref, ref.cls, o) && HasKey(sch, o)
    ensures ref == Keyed(o.cls, KeyOf(sch, o)) && Exact(sch, st, ref, o)
  {
    assert RowFits(sch, ref, st.rows[ref]);
    assert RowMirrors(sch, st, sh, map[], ref);
    assert Says(sh, sch[ref.cls].props[sch[ref.cls].pk.value], ref.Auto?, st.rows[ref][sch[ref.cls].pk.value], o.vals[sch[ref.cls].pk.value]);
    forall c: nat ensures Length(sch, st, ref, c) == ObjAdds(sch, o, c) {
      if c < |o.vals| && !sch[ref.cls].props[c].KBacklinks? {
        OwnColumn(sch, st.rows, ref, o, c);
        ColumnIsExact(sch, st, sh, ref, o, c);
      }
    }
  }

  lemma ColumnIsExact(sch: Schema, st: Tables, sh: Shadow, ref: Ref, o: Obj, c: nat)
    requires WellFormed(sch, st) && ref in st.rows && ref.cls in sch && o.cls == ref.cls && Solid(o)
    requires c < |st.rows[ref]| == |sch[ref.cls].props| == |o.vals|
    requires DetachesVal(sch, st.rows, ref, sch[ref.cls].props[c], st.rows[ref][c], o.vals[c])
    ensures Length(sch, st, ref, c) == ObjAdds(sch, o, c)
  {
    assert RowFits(sch, ref, st.rows[ref]) && SolidVal(o.vals[c]);
    if o.vals[c].Links? {
      forall j | 0 <= j < |o.vals[c].elems| ensures o.vals[c].elems[j].Some? { assert SolidElem(o.vals[c].elems[j]); }
      AllPresentCount(o.vals[c].elems);
    }
  }

  // ----- the theorem

  /** No object that is pointed to more than once has links or items that adding it again adds again. */
  ghost predicate SharesSafely(sch: Schema, env: map<Ref, Obj>, o: Obj) {
    forall r, c: nat :: r in Keys(sch, o) && r in env && |Occurrences(sch, r, o)| > 1 ==> ObjAdds(sch, env[r], c) == 0
  }

  lemma LengthsAfterAdd(sch: Schema, env: map<Ref, Obj>, st: Tables, o: Obj, r: Ref, c: nat)
    requires ValidSchema(sch) && WellFormed(sch, st) && Typed(sch, o) && Add(sch, st, o).ok
    requires Named(sch, env, o) && r in Keys(sch, o) && r !in st.rows
    ensures r in env
    ensures Length(sch, Add(sch, st, o).st, r, c) == ObjAdds(sch, env[r], c) <==>
              |Occurrences(sch, r, o)| == 1 || ObjAdds(sch, env[r], c) == 0
  {
    KeyInside(sch, env, o, r);
    AddLength(sch, st, o, r, c);
    OccurrencesAre(sch, env, o, r);
    TotalOfSame(sch, c, Occurrences(sch, r, o), env[r]);
  }

  lemma AllExactIff(sch: Schema, env: map<Ref, Obj>, st: Tables, o: Obj)
    requires ValidSchema(sch) && WellFormed(sch, st) && Typed(sch, o) && Add(sch, st, o).ok
    requires Named(sch, env, o) && Keys(sch, o) !! st.rows.Keys
    ensures SharesSafely(sch, env, o) <==> forall r :: r in Keys(sch, o) && r in env ==> Exact(sch, Add(sch, st, o).st, r, env[r])
  {
    var st' := Add(sch, st, o).st;
    if SharesSafely(sch, env, o) {
      forall r, c: nat | r in Keys(sch, o) && r in env ensures Length(sch, st', r, c) == ObjAdds(sch, env[r], c) {
        LengthsAfterAdd(sch, env, st, o, r, c);
        OccurrencesAre(sch, env, o, r);
      }
    }
    if forall r :: r in Keys(sch, o) && r in env ==> Exact(sch, st', r, env[r]) {
      forall r, c: nat | r in Keys(sch, o) && r in env && |Occurrences(sch, r, o)| > 1 ensures ObjAdds(sch, env[r], c) == 0 {
        LengthsAfterAdd(sch, env, st, o, r, c);
        assert Exact(sch, st', r, env[r]);
      }
    }
  }

  /** Added to tables that hold none of its keys, a graph of a top-level class detaches to itself exactly
      when it has no null link and no null element, and whatever is in it more than once under a key has
      nothing that is added again. */
  lemma AddThenDetach(sch: Schema, env: map<Ref, Obj>, st: Tables, o: Obj)
    requires ValidSchema(sch) && WellFormed(sch, st) && Typed(sch, o) && !EmbeddedClass(sch, o.cls)
    requires Named(sch, env, o) && Keys(sch, o) !! st.rows.Keys
    ensures var m := Add(sch, st, o);
            (m.ok && Detaches(sch, m.st.rows, m.ref, m.ref.cls, o)) <==> Solid(o) && SharesSafely(sch, env, o)
  {
    var m := Add(sch, st, o);
    if Solid(o) {
      SolidThenDetach(sch, env, st, o);
    } else if m.ok && Detaches(sch, m.st.rows, m.ref, m.ref.cls, o) {
      DetachedIsSolid(sch, m.st.rows, m.ref, m.ref.cls, o);
    }
  }

  lemma SolidThenDetach(sch: Schema, env: map<Ref, Obj>, st: Tables, o: Obj)
    requires ValidSchema(sch) && WellFormed(sch, st) && Typed(sch, o) && !EmbeddedClass(sch, o.cls)
    requires Named(sch, env, o) && Keys(sch, o) !! st.rows.Keys && Solid(o)
    ensures var m := Add(sch, st, o);
            m.ok && (Detaches(sch, m.st.rows, m.ref, m.ref.cls, o) <==> SharesSafely(sch, env, o))
  {
    var m := Add(sch, st, o);
    var env1 := map r | r in Keys(sch, o) && r in env :: env[r];
    NamedWithin(sch, env, env1, o);
    var sh := AddMirrors(sch, env1, st, o);
    AllExactIff(sch, env, st, o);
    if SharesSafely(sch, env, o) {
      forall r | r in sh && r in m.st.rows && r.Keyed? ensures Exact(sch, m.st, r, sh[r]) {
        assert r in env1 && sh[r] == env[r];
      }
      MirrorDetaches(sch, m.st, sh, m.ref, o);
    }
    if Detaches(sch, m.st.rows, m.ref, m.ref.cls, o) {
      forall r | r in Keys(sch, o) && r in env ensures Exact(sch, m.st, r, env[r]) {
        DetachedIsExact(sch, m.st, sh, m.ref, o, r);
        assert r in sh && r.Keyed? && sh[r] == env1[r] by { KeyInside(sch, env, o, r); }
      }
    }
  }
}
