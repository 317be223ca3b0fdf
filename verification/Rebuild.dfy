/** Writing a graph without null links succeeds, objects that are pointed to more than once included, and
    leaves rows that say what their objects say. */
module Rebuild {
  import opened Wrappers
  import opened Store
  import opened Graph
  import opened GraphInvariant
  import opened GraphFrame
  import opened RoundTrip
  import opened Sharing
  import opened Upsert
  import opened Mirror

  /** What is known before the properties of a row are written from the `i`-th on. */
  ghost predicate AtProp(sch: Schema, env: map<Ref, Obj>, st: Tables, sh: Shadow, left: Unfinished, ref: Ref, vals: seq<Val>, i: nat, up: set<Ref>) {
    && Ready(sch, env, st, sh, left, ref, PropKeys(sch, vals), up) && sh[ref].vals == vals && Suits(sch, ref, vals) && i <= |vals|
    && (forall j :: 0 <= j < |vals| ==> SolidVal(vals[j]) && NamedVal(sch, env, vals[j]))
    && (ref in left ==> left[ref] == i && Unwritten(sch, st, ref, vals, i))
  }

  /** What is known before one column is written. */
  ghost predicate AtVal(sch: Schema, env: map<Ref, Obj>, st: Tables, sh: Shadow, left: Unfinished, ref: Ref, col: nat, v: Val, up: set<Ref>) {
    && Ready(sch, env, st, sh, left, ref, ValKeys(sch, v), up) && ToWrite(sch, st, sh, left, ref, col, v)
    && SolidVal(v) && NamedVal(sch, env, v)
  }

  lemma {:induction false} MirrorVal(sch: Schema, env: map<Ref, Obj>, st: Tables, sh: Shadow, left: Unfinished, ref: Ref, col: nat, v: Val, up: set<Ref>)
    returns (sh': Shadow)
    requires AtVal(sch, env, st, sh, left, ref, col, v, up)
    ensures var w := WriteVal(sch, st, ref, col, v);
            w.ok && Mirrored(sch, env, w.st, sh, sh', Further(left, ref, col + 1))
    decreases v
  {
    match v
    case Link(t) => sh' := MirrorLink(sch, env, st, sh, left, ref, col, t.value, up);
    case Links(elems) =>
      FirstOfList(sch, env, st, sh, left, ref, col, elems, up);
      sh' := MirrorElems(sch, env, st, sh, left, ref, col, elems, 0, up);
    case _ =>
      PlainMirrors(sch, env, st, sh, left, ref, col, v, up);
      sh' := sh;
  }

  lemma {:induction false} MirrorLink(sch: Schema, env: map<Ref, Obj>, st: Tables, sh: Shadow, left: Unfinished, ref: Ref, col: nat, o: Obj, up: set<Ref>)
    returns (sh': Shadow)
    requires AtVal(sch, env, st, sh, left, ref, col, Link(Some(o)), up)
    ensures var w := WriteVal(sch, st, ref, col, Link(Some(o)));
            w.ok && Mirrored(sch, env, w.st, sh, sh', Further(left, ref, col + 1))
    decreases o
  {
    var m := PlaceLink(sch, st, ref, col, o);
    var left1 := Further(left, ref, col + 1);
    LinkToProps(sch, env, st, sh, left, ref, col, o, up);
    sh' := MirrorProps(sch, env, m.st, sh[m.ref := o], WithTarget(left1, st, m.ref), m.ref, o.vals, 0, up + {ref});
    TargetDone(sch, env, WriteProps(sch, m.st, m.ref, o.vals, 0).st, sh, sh', left1, st, m.ref, o);
  }

  lemma LinkToProps(sch: Schema, env: map<Ref, Obj>, st: Tables, sh: Shadow, left: Unfinished, ref: Ref, col: nat, o: Obj, up: set<Ref>)
    requires AtVal(sch, env, st, sh, left, ref, col, Link(Some(o)), up)
    ensures var m := PlaceLink(sch, st, ref, col, o);
            && m.ok && Grown(sh, sh[m.ref := o]) && m.ref !in Further(left, ref, col + 1)
            && AtProp(sch, env, m.st, sh[m.ref := o], WithTarget(Further(left, ref, col + 1), st, m.ref), m.ref, o.vals, 0, up + {ref})
  {
    var m := PlaceLink(sch, st, ref, col, o);
    assert Solid(o) && Named(sch, env, o);
    assert m.ok && m.ref !in up + {ref} && Grown(sh, sh[m.ref := o])
        && ReadyFor(sch, env, m.st, sh[m.ref := o], WithTarget(Further(left, ref, col + 1), st, m.ref), m.ref, o, up + {ref}) by {
      LinkReady(sch, env, st, sh, left, ref, col, o, up);
    }
    ForProps(sch, env, m.st, sh[m.ref := o], WithTarget(Further(left, ref, col + 1), st, m.ref), m.ref, o, up + {ref});
  }

  lemma ForProps(sch: Schema, env: map<Ref, Obj>, st: Tables, sh: Shadow, left: Unfinished, t: Ref, o: Obj, up: set<Ref>)
    requires ReadyFor(sch, env, st, sh, left, t, o, up) && Solid(o) && Named(sch, env, o)
    ensures AtProp(sch, env, st, sh, left, t, o.vals, 0, up)
  {
  }

  lemma TargetDone(sch: Schema, env: map<Ref, Obj>, st': Tables, sh: Shadow, sh': Shadow, left: Unfinished, st: Tables, t: Ref, o: Obj)
    requires Mirrored(sch, env, st', sh[t := o], sh', WithTarget(left, st, t) - {t}) && Grown(sh, sh[t := o]) && t !in left
    ensures Mirrored(sch, env, st', sh, sh', left) && StandsFor(sh', t, o)
  {
    assert WithTarget(left, st, t) - {t} == left;
    assert StandsFor(sh', t, sh[t := o][t]);
    forall r | r in sh ensures StandsFor(sh', r, sh[r]) { assert StandsFor(sh[t := o], r, sh[r]); }
  }

  lemma FirstOfList(sch: Schema, env: map<Ref, Obj>, st: Tables, sh: Shadow, left: Unfinished, ref: Ref, col: nat, elems: seq<Option<Obj>>, up: set<Ref>)
    requires AtVal(sch, env, st, sh, left, ref, col, Links(elems), up)
    ensures AtElem(sch, env, st, sh, left, ref, col, elems, 0, up)
  {
    if ref !in left { SaysAlready(sch, env, st, sh, left, ref, col, Links(elems), up); }
  }

  /** What is known before the elements of a list are written from the `i`-th on. */
  ghost predicate AtElem(sch: Schema, env: map<Ref, Obj>, st: Tables, sh: Shadow, left: Unfinished, ref: Ref, col: nat,
                         elems: seq<Option<Obj>>, i: nat, up: set<Ref>) {
    && Ready(sch, env, st, sh, left, ref, ValKeys(sch, Links(elems)), up) && ListTo(st, sh, left, ref, col, elems, i)
    && SuitsCol(sch, ref, col, Links(elems)) && SolidVal(Links(elems)) && NamedVal(sch, env, Links(elems))
  }

  lemma {:induction false} MirrorElems(sch: Schema, env: map<Ref, Obj>, st: Tables, sh: Shadow, left: Unfinished, ref: Ref, col: nat,
                                       elems: seq<Option<Obj>>, i: nat, up: set<Ref>)
    returns (sh': Shadow)
    requires AtElem(sch, env, st, sh, left, ref, col, elems, i, up)
    ensures var w := WriteElems(sch, st, ref, col, elems, i);
            w.ok && Mirrored(sch, env, w.st, sh, sh', Further(left, ref, col + 1))
    decreases elems, |elems| - i
  {
    if i == |elems| {
      ListFinished(sch, st, sh, left, ref, col, elems);
      sh' := sh;
    } else {
      ThisElem(sch, env, st, sh, left, ref, col, elems, i, up);
      var w := WriteElem(sch, st, ref, col, i, elems[i]);
      var sh1 := MirrorElem(sch, env, st, sh, left, ref, col, elems, i, elems[i], up);
      NextElem(sch, env, st, sh, sh1, left, ref, col, elems, i, up);
      sh' := MirrorElems(sch, env, w.st, sh1, left, ref, col, elems, i + 1, up);
      MirroredOn(sch, env, w.st, WriteElems(sch, w.st, ref, col, elems, i + 1).st, sh, sh1, sh', left, Further(left, ref, col + 1));
    }
  }

  /** What is known before one element is written. */
  ghost predicate AtThis(sch: Schema, env: map<Ref, Obj>, st: Tables, sh: Shadow, left: Unfinished, ref: Ref, col: nat,
                         elems: seq<Option<Obj>>, i: nat, o: Obj, up: set<Ref>) {
    && Ready(sch, env, st, sh, left, ref, Keys(sch, o), up) && ListTo(st, sh, left, ref, col, elems, i)
    && i < |elems| && elems[i] == Some(o) && Solid(o) && Typed(sch, o) && Named(sch, env, o)
    && ref.cls in sch && col < |sch[ref.cls].props| && sch[ref.cls].props[col] == KLinks(o.cls)
  }

  lemma ThisElem(sch: Schema, env: map<Ref, Obj>, st: Tables, sh: Shadow, left: Unfinished, ref: Ref, col: nat,
                 elems: seq<Option<Obj>>, i: nat, up: set<Ref>)
    requires AtElem(sch, env, st, sh, left, ref, col, elems, i, up) && i < |elems|
    ensures elems[i].Some? && AtThis(sch, env, st, sh, left, ref, col, elems, i, elems[i].value, up)
  {
    assert SolidElem(elems[i]) && NamedElem(sch, env, elems[i]) && TypedElem(sch, sch[ref.cls].props[col].target, elems[i]);
    ElemKeysIn(sch, elems, i);
  }

  lemma NextElem(sch: Schema, env: map<Ref, Obj>, st: Tables, sh: Shadow, sh1: Shadow, left: Unfinished, ref: Ref, col: nat,
                 elems: seq<Option<Obj>>, i: nat, up: set<Ref>)
    requires AtElem(sch, env, st, sh, left, ref, col, elems, i, up) && i < |elems| && elems[i].Some?
    requires var w := WriteElem(sch, st, ref, col, i, elems[i]);
             Mirrored(sch, env, w.st, sh, sh1, left) && ListTo(w.st, sh1, left, ref, col, elems, i + 1) && Inside(sch, w.st, ref, up)
    ensures AtElem(sch, env, WriteElem(sch, st, ref, col, i, elems[i]).st, sh1, left, ref, col, elems, i + 1, up)
  {
    assert StandsFor(sh1, ref, sh[ref]);
  }

  lemma ListFinished(sch: Schema, st: Tables, sh: Shadow, left: Unfinished, ref: Ref, col: nat, elems: seq<Option<Obj>>)
    requires ListTo(st, sh, left, ref, col, elems, |elems|) && Mirrors(sch, st, sh, left) && ref.cls in sch && col < |sch[ref.cls].props|
    ensures Mirrors(sch, st, sh, Further(left, ref, col + 1))
  {
    if ref in left {
      var row := st.rows[ref];
      assert row[col := row[col]] == row;
      SameShadow(sch, st, st, sh, left, ref, col, row[col]);
    }
  }

  lemma {:induction false} MirrorElem(sch: Schema, env: map<Ref, Obj>, st: Tables, sh: Shadow, left: Unfinished, ref: Ref, col: nat,
                                      elems: seq<Option<Obj>>, i: nat, e: Option<Obj>, up: set<Ref>)
    returns (sh': Shadow)
    requires e.Some? && AtThis(sch, env, st, sh, left, ref, col, elems, i, e.value, up)
    ensures var w := WriteElem(sch, st, ref, col, i, e);
            && w.ok && Mirrored(sch, env, w.st, sh, sh', left) && ListTo(w.st, sh', left, ref, col, elems, i + 1)
            && Inside(sch, w.st, ref, up)
    decreases e
  {
    var o := e.value;
    var m := PlaceElem(sch, st, ref, col, i, o);
    ElemToProps(sch, env, st, sh, left, ref, col, elems, i, o, up);
    sh' := MirrorProps(sch, env, m.st, sh[m.ref := o], WithTarget(left, st, m.ref), m.ref, o.vals, 0, up + {ref});
    TargetDone(sch, env, WriteProps(sch, m.st, m.ref, o.vals, 0).st, sh, sh', left, st, m.ref, o);
    ElemListed(sch, env, st, sh, sh', left, ref, col, elems, i, o, up);
  }

  lemma ElemToProps(sch: Schema, env: map<Ref, Obj>, st: Tables, sh: Shadow, left: Unfinished, ref: Ref, col: nat,
                    elems: seq<Option<Obj>>, i: nat, o: Obj, up: set<Ref>)
    requires AtThis(sch, env, st, sh, left, ref, col, elems, i, o, up)
    ensures var m := PlaceElem(sch, st, ref, col, i, o);
            && m.ok && Grown(sh, sh[m.ref := o]) && m.ref !in left
            && AtProp(sch, env, m.st, sh[m.ref := o], WithTarget(left, st, m.ref), m.ref, o.vals, 0, up + {ref})
  {
    ElemReady(sch, env, st, sh, left, ref, col, elems, i, o, up);
  }

  /** Once its properties are written, the row of an element is in the list. */
  lemma ElemListed(sch: Schema, env: map<Ref, Obj>, st: Tables, sh: Shadow, sh': Shadow, left: Unfinished, ref: Ref, col: nat,
                   elems: seq<Option<Obj>>, i: nat, o: Obj, up: set<Ref>)
    requires AtThis(sch, env, st, sh, left, ref, col, elems, i, o, up)
    requires var m := PlaceElem(sch, st, ref, col, i, o);
             var w1 := WriteProps(sch, m.st, m.ref, o.vals, 0);
             m.ok && w1.ok && Mirrored(sch, env, w1.st, sh, sh', left) && StandsFor(sh', m.ref, o)
    ensures var w := WriteElem(sch, st, ref, col, i, Some(o));
            && w.ok && Mirrored(sch, env, w.st, sh, sh', left) && ListTo(w.st, sh', left, ref, col, elems, i + 1)
            && Inside(sch, w.st, ref, up)
  {
    var m := PlaceElem(sch, st, ref, col, i, o);
    var w1 := WriteProps(sch, m.st, m.ref, o.vals, 0);
    var w := WriteElem(sch, st, ref, col, i, Some(o));
    assert w.ok && Mirrors(sch, w.st, sh', left) && KeysStand(env, w.st, sh') by {
      if !EmbeddedClass(sch, o.cls) {
        HolderUntouched(sch, st, ref, col, i, o, up);
        AppendMirrors(sch, env, w1.st, sh', left, ref, col, elems, i, m.ref, st, sh);
      }
    }
    assert ElemEffect(sch, st, w.st, ref, col, i, m.ref, o) by { WriteElemEffect(sch, st, ref, col, i, Some(o), up); }
    assert Inside(sch, w.st, ref, up) by { ElemKeepsInside(sch, st, ref, col, i, Some(o), up); }
    assert ListTo(w.st, sh', left, ref, col, elems, i + 1) by { ListLonger(sch, st, w.st, sh, sh', left, ref, col, elems, i, m.ref, o); }
  }

  lemma HolderUntouched(sch: Schema, st: Tables, ref: Ref, col: nat, i: nat, o: Obj, up: set<Ref>)
    requires Outside(sch, st, ref, Keys(sch, o), up) && Typed(sch, o) && !EmbeddedClass(sch, o.cls)
    requires ref.cls in sch && col < |sch[ref.cls].props| && sch[ref.cls].props[col] == KLinks(o.cls)
    requires PlaceElem(sch, st, ref, col, i, o).ok
    requires var m := PlaceElem(sch, st, ref, col, i, o); WriteProps(sch, m.st, m.ref, o.vals, 0).ok
    ensures var m := PlaceElem(sch, st, ref, col, i, o);
            var w1 := WriteProps(sch, m.st, m.ref, o.vals, 0);
            ref in st.rows && ref in w1.st.rows && w1.st.rows[ref] == st.rows[ref]
  {
    PlaceElemEffect(sch, st, ref, col, i, o, up);
    var m := PlaceElem(sch, st, ref, col, i, o);
    assert m.ref in m.st.rows by { PlaceElemKeeps(sch, st, ref, col, i, o); }
    ElsewhereProps(sch, m.st, ref, m.ref, o.vals, up);
  }

  lemma AppendMirrors(sch: Schema, env: map<Ref, Obj>, st1: Tables, sh': Shadow, left: Unfinished, ref: Ref, col: nat,
                      elems: seq<Option<Obj>>, i: nat, t: Ref, st: Tables, sh: Shadow)
    requires Mirrors(sch, st1, sh', left) && KeysStand(env, st1, sh') && Grown(sh, sh') && ref in st1.rows && ref in st.rows
    requires ListTo(st, sh, left, ref, col, elems, i)
    requires st1.rows[ref] == st.rows[ref] && ref.cls in sch && col < |sch[ref.cls].props|
    ensures var w := AppendLink(st1, ref, col, t); w.ok && Mirrors(sch, w.st, sh', left) && KeysStand(env, w.st, sh')
  {
    var ts := st.rows[ref][col].links;
    assert StandsFor(sh', ref, sh[ref]);
    assert sh'[ref := sh'[ref]] == sh';
    OneCellMirrors(sch, st1, AppendLink(st1, ref, col, t).st, sh', left, left, ref, col, CLinks(ts + [t]), ref, sh'[ref]);
  }

  lemma ListLonger(sch: Schema, st: Tables, st': Tables, sh: Shadow, sh': Shadow, left: Unfinished, ref: Ref, col: nat,
                   elems: seq<Option<Obj>>, i: nat, t: Ref, o: Obj)
    requires ListTo(st, sh, left, ref, col, elems, i) && i < |elems| && elems[i] == Some(o) && Grown(sh, sh') && StandsFor(sh', t, o)
    requires ElemEffect(sch, st, st', ref, col, i, t, o)
    ensures ListTo(st', sh', left, ref, col, elems, i + 1)
  {
    assert StandsFor(sh', ref, sh[ref]);
    var ts := st.rows[ref][col].links;
    if ref in left {
      assert ts[..i] + [t] + ts[i..] == ts + [t];
      forall k | 0 <= k < i + 1 ensures elems[k].Some? && StandsFor(sh', (ts + [t])[k], elems[k].value) {
        if k < i { assert StandsFor(sh, ts[k], elems[k].value); }
      }
    }
  }

  lemma PropToVal(sch: Schema, env: map<Ref, Obj>, st: Tables, sh: Shadow, left: Unfinished, ref: Ref, vals: seq<Val>, i: nat, up: set<Ref>)
    requires AtProp(sch, env, st, sh, left, ref, vals, i, up) && i < |vals|
    ensures AtVal(sch, env, st, sh, left, ref, i, vals[i], up)
  {
    ValKeysIn(sch, vals, i);
    assert RowMirrors(sch, st, sh, left, ref);
  }

  lemma ValToProp(sch: Schema, env: map<Ref, Obj>, st: Tables, sh: Shadow, sh1: Shadow, left: Unfinished, ref: Ref, vals: seq<Val>, i: nat, up: set<Ref>)
    requires AtProp(sch, env, st, sh, left, ref, vals, i, up) && i < |vals|
    requires var w := WriteVal(sch, st, ref, i, vals[i]); w.ok && Mirrored(sch, env, w.st, sh, sh1, Further(left, ref, i + 1))
    ensures AtProp(sch, env, WriteVal(sch, st, ref, i, vals[i]).st, sh1, Further(left, ref, i + 1), ref, vals, i + 1, up)
  {
    ValKeysIn(sch, vals, i);
    WriteValEffect(sch, st, ref, i, vals[i], up);
    assert StandsFor(sh1, ref, sh[ref]);
  }

  lemma MirroredOn(sch: Schema, env: map<Ref, Obj>, st1: Tables, st2: Tables, sh: Shadow, sh1: Shadow, sh2: Shadow, left1: Unfinished, left2: Unfinished)
    requires Mirrored(sch, env, st1, sh, sh1, left1) && Mirrored(sch, env, st2, sh1, sh2, left2)
    ensures Mirrored(sch, env, st2, sh, sh2, left2)
  {
    forall r | r in sh ensures StandsFor(sh2, r, sh[r]) { assert StandsFor(sh1, r, sh[r]); }
  }

  /** Writing the properties of a row, from the `i`-th on, succeeds, and afterwards that row and every
      row written on the way say what their objects say. */
  lemma {:induction false} MirrorProps(sch: Schema, env: map<Ref, Obj>, st: Tables, sh: Shadow, left: Unfinished, ref: Ref, vals: seq<Val>,
                                       i: nat, up: set<Ref>)
    returns (sh': Shadow)
    requires AtProp(sch, env, st, sh, left, ref, vals, i, up)
    ensures var w := WriteProps(sch, st, ref, vals, i);
            w.ok && Mirrored(sch, env, w.st, sh, sh', left - {ref})
    decreases vals, |vals| - i, 1
  {
    if i == |vals| {
      Finished(sch, env, st, sh, left, ref, vals, up);
      sh' := sh;
    } else {
      sh' := MirrorRest(sch, env, st, sh, left, ref, vals, i, up);
    }
  }

  lemma {:induction false} MirrorRest(sch: Schema, env: map<Ref, Obj>, st: Tables, sh: Shadow, left: Unfinished, ref: Ref, vals: seq<Val>,
                                      i: nat, up: set<Ref>)
    returns (sh': Shadow)
    requires AtProp(sch, env, st, sh, left, ref, vals, i, up) && i < |vals|
    ensures var w := WriteProps(sch, st, ref, vals, i);
            w.ok && Mirrored(sch, env, w.st, sh, sh', left - {ref})
    decreases vals, |vals| - i, 0
  {
    var sh1 := MirrorProp(sch, env, st, sh, left, ref, vals, i, up);
    var w := WriteVal(sch, st, ref, i, vals[i]);
    sh' := MirrorProps(sch, env, w.st, sh1, Further(left, ref, i + 1), ref, vals, i + 1, up);
    RestDone(sch, env, st, sh, sh1, sh', left, ref, vals, i);
  }

  /** The `i`-th property alone. */
  lemma {:induction false} MirrorProp(sch: Schema, env: map<Ref, Obj>, st: Tables, sh: Shadow, left: Unfinished, ref: Ref, vals: seq<Val>,
                                      i: nat, up: set<Ref>)
    returns (sh1: Shadow)
    requires AtProp(sch, env, st, sh, left, ref, vals, i, up) && i < |vals|
    ensures var w := WriteVal(sch, st, ref, i, vals[i]);
            && w.ok && Mirrored(sch, env, w.st, sh, sh1, Further(left, ref, i + 1))
            && AtProp(sch, env, w.st, sh1, Further(left, ref, i + 1), ref, vals, i + 1, up)
    decreases vals, 0, 0
  {
    PropToVal(sch, env, st, sh, left, ref, vals, i, up);
    sh1 := MirrorVal(sch, env, st, sh, left, ref, i, vals[i], up);
    ValToProp(sch, env, st, sh, sh1, left, ref, vals, i, up);
  }

  lemma RestDone(sch: Schema, env: map<Ref, Obj>, st: Tables, sh: Shadow, sh1: Shadow, sh2: Shadow, left: Unfinished, ref: Ref, vals: seq<Val>, i: nat)
    requires i < |vals| && WriteVal(sch, st, ref, i, vals[i]).ok
    requires var w := WriteVal(sch, st, ref, i, vals[i]);
             var left1 := Further(left, ref, i + 1);
             var w2 := WriteProps(sch, w.st, ref, vals, i + 1);
             && Mirrored(sch, env, w.st, sh, sh1, left1) && w2.ok && Mirrored(sch, env, w2.st, sh1, sh2, left1 - {ref})
    ensures var w := WriteProps(sch, st, ref, vals, i); w.ok && Mirrored(sch, env, w.st, sh, sh2, left - {ref})
  {
    var w := WriteVal(sch, st, ref, i, vals[i]);
    var left1 := Further(left, ref, i + 1);
    assert left1 - {ref} == left - {ref};
    MirroredOn(sch, env, w.st, WriteProps(sch, w.st, ref, vals, i + 1).st, sh, sh1, sh2, left1, left1 - {ref});
  }

  lemma Finished(sch: Schema, env: map<Ref, Obj>, st: Tables, sh: Shadow, left: Unfinished, ref: Ref, vals: seq<Val>, up: set<Ref>)
    requires AtProp(sch, env, st, sh, left, ref, vals, |vals|, up)
    ensures Mirrored(sch, env, st, sh, sh, left - {ref})
  {
    forall r | r in sh ensures RowMirrors(sch, st, sh, left - {ref}, r) {
      assert RowMirrors(sch, st, sh, left, r);
    }
  }
}
