/** What writing an object graph leaves alone. */
module GraphFrame {
  import opened Wrappers
  import opened Store
  import opened StoreInvariant
  import opened Graph
  import opened GraphInvariant

  /** The keyed rows a graph names. */
  ghost function Keys(sch: Schema, o: Obj): set<Ref>
    decreases o
  {
    (if HasKey(sch, o) then {Keyed(o.cls, KeyOf(sch, o))} else {}) + PropKeys(sch, o.vals)
  }

  ghost function PropKeys(sch: Schema, vals: seq<Val>): set<Ref>
    decreases vals
  {
    set i, r | 0 <= i < |vals| && r in ValKeys(sch, vals[i]) :: r
  }

  ghost function ValKeys(sch: Schema, v: Val): set<Ref>
    decreases v
  {
    match v
    case Link(Some(o)) => Keys(sch, o)
    case Links(elems) => set i, r | 0 <= i < |elems| && r in ElemKeys(sch, elems[i]) :: r
    case _ => {}
  }

  ghost function ElemKeys(sch: Schema, e: Option<Obj>): set<Ref>
    decreases e
  {
    if e.Some? then Keys(sch, e.value) else {}
  }

  lemma ValKeysIn(sch: Schema, vals: seq<Val>, i: nat)
    requires i < |vals|
    ensures ValKeys(sch, vals[i]) <= PropKeys(sch, vals)
  {
  }

  lemma ElemKeysIn(sch: Schema, elems: seq<Option<Obj>>, i: nat)
    requires i < |elems|
    ensures ElemKeys(sch, elems[i]) <= ValKeys(sch, Links(elems))
  {
  }

  /** The rows of `u` exist and stay as they are. */
  ghost predicate Unchanged(st: Tables, st': Tables, u: set<Ref>) {
    forall r :: r in u ==> r in st.rows && r in st'.rows && st'.rows[r] == st.rows[r]
  }

  /** `u` can be left alone by writing to `ref`. */
  ghost predicate Apart(sch: Schema, st: Tables, ref: Ref, u: set<Ref>) {
    u <= st.rows.Keys && OwnerClosed(sch, st.rows, u) && ref !in u
  }

  /** Rows left alone stay apart: their owners are where they were. */
  lemma ApartKept(sch: Schema, st: Tables, st': Tables, ref: Ref, u: set<Ref>)
    requires Apart(sch, st, ref, u) && Unchanged(st, st', u) && WellFormed(sch, st) && WellFormed(sch, st')
    ensures Apart(sch, st', ref, u)
  {
    forall s, e | Owns(sch, st'.rows, s, e) && e in u ensures s.owner in u {
      var s0 :| Owns(sch, st.rows, s0, e);
      assert Owns(sch, st'.rows, s0, e);
    }
  }

  /** `up` holds the rows that `ref` is embedded in, directly or not, and nothing `ref` owns. */
  ghost predicate Inside(sch: Schema, st: Tables, ref: Ref, up: set<Ref>) {
    ref in st.rows && Apart(sch, st, ref, up) && OwnerClosed(sch, st.rows, up + {ref})
  }

  lemma InsideKept(sch: Schema, st: Tables, st': Tables, ref: Ref, up: set<Ref>)
    requires Inside(sch, st, ref, up) && WellFormed(sch, st) && WellFormed(sch, st')
    requires Unchanged(st, st', up) && ref in st'.rows
    ensures Inside(sch, st', ref, up)
  {
    ApartKept(sch, st, st', ref, up);
    forall s, e | Owns(sch, st'.rows, s, e) && e in up + {ref} ensures s.owner in up + {ref} {
      var s0 :| Owns(sch, st.rows, s0, e);
      assert Older(s0.owner, e);
      assert Owns(sch, st'.rows, s0, e);
    }
  }

  /** The rows that `ref` is embedded in. */
  ghost function Holders(sch: Schema, st: Tables, ref: Ref): set<Ref>
    requires WellFormed(sch, st)
    decreases if ref.Auto? then ref.n + 1 else 0
  {
    if ref in st.rows && IsEmbedded(sch, ref) then
      var s :| Owns(sch, st.rows, s, ref);
      assert Older(s.owner, ref);
      {s.owner} + Holders(sch, st, s.owner)
    else {}
  }

  lemma {:induction false} HoldersHold(sch: Schema, st: Tables, ref: Ref)
    requires WellFormed(sch, st) && ref in st.rows
    ensures Inside(sch, st, ref, Holders(sch, st, ref)) && forall h :: h in Holders(sch, st, ref) ==> Older(h, ref)
    decreases if ref.Auto? then ref.n + 1 else 0
  {
    var up := Holders(sch, st, ref);
    if IsEmbedded(sch, ref) {
      var s :| Owns(sch, st.rows, s, ref) && up == {s.owner} + Holders(sch, st, s.owner);
      assert Older(s.owner, ref);
      HoldersHold(sch, st, s.owner);
      assert up == Holders(sch, st, s.owner) + {s.owner};
    }
  }

  lemma CreateFrame(sch: Schema, st: Tables, o: Obj, u: set<Ref>)
    requires WellFormed(sch, st) && u <= st.rows.Keys && u !! Keys(sch, o)
    ensures var m := Create(sch, st, o); Unchanged(st, m.st, u) && (m.ok ==> m.ref !in u)
  {
    NumbersAreNew(sch, st, o.cls);
  }

  lemma PlaceLinkFrame(sch: Schema, st: Tables, ref: Ref, col: nat, o: Obj, u: set<Ref>)
    requires ValidSchema(sch) && WellFormed(sch, st) && Typed(sch, o) && Apart(sch, st, ref, u) && u !! Keys(sch, o)
    requires SuitsCol(sch, ref, col, Link(Some(o)))
    ensures var m := PlaceLink(sch, st, ref, col, o); Unchanged(st, m.st, u) && (m.ok ==> m.ref !in u)
  {
    NumbersAreNew(sch, st, o.cls);
    if EmbeddedClass(sch, o.cls) {
      if Live(st, ref, col) { VictimsApart(sch, st, ref, col, u); }
    } else {
      CreateFrame(sch, st, o, u);
    }
  }

  lemma VictimsApart(sch: Schema, st: Tables, ref: Ref, col: nat, u: set<Ref>)
    requires WellFormed(sch, st) && Live(st, ref, col) && Apart(sch, st, ref, u)
    ensures Victims(sch, st, ref, col) !! u
  {
    if Victims(sch, st, ref, col) != {} {
      var t := st.rows[ref][col].link.value;
      assert Owns(sch, st.rows, Slot(ref, col, 0), t);
      CascadeAvoids(sch, st.rows, {t}, u);
    }
  }

  lemma {:induction false} WriteValFrame(sch: Schema, st: Tables, ref: Ref, col: nat, v: Val, u: set<Ref>)
    requires ValidSchema(sch) && WellFormed(sch, st) && SuitsCol(sch, ref, col, v)
    requires Apart(sch, st, ref, u) && u !! ValKeys(sch, v)
    ensures Unchanged(st, WriteVal(sch, st, ref, col, v).st, u)
    decreases v
  {
    match v
    case Link(Some(o)) =>
      PlaceLinkFrame(sch, st, ref, col, o, u);
      PlaceLinkKeeps(sch, st, ref, col, o);
      var m := PlaceLink(sch, st, ref, col, o);
      if m.ok {
        ApartKept(sch, st, m.st, ref, u);
        WritePropsFrame(sch, m.st, m.ref, o.vals, 0, u);
      }
    case Links(elems) =>
      if Live(st, ref, col) { WriteElemsFrame(sch, st, ref, col, elems, 0, u); }
    case _ =>
  }

  lemma {:induction false} WritePropsFrame(sch: Schema, st: Tables, ref: Ref, vals: seq<Val>, i: nat, u: set<Ref>)
    requires ValidSchema(sch) && WellFormed(sch, st) && i <= |vals| && Suits(sch, ref, vals)
    requires Apart(sch, st, ref, u) && u !! PropKeys(sch, vals)
    ensures Unchanged(st, WriteProps(sch, st, ref, vals, i).st, u)
    decreases vals, |vals| - i
  {
    if i < |vals| {
      var w := WriteVal(sch, st, ref, i, vals[i]);
      assert Unchanged(st, w.st, u) by {
        ValKeysIn(sch, vals, i);
        WriteValFrame(sch, st, ref, i, vals[i], u);
      }
      assert WellFormed(sch, w.st) by { WriteValKeeps(sch, st, ref, i, vals[i]); }
      if w.ok {
        assert Apart(sch, w.st, ref, u) by { ApartKept(sch, st, w.st, ref, u); }
        WritePropsFrame(sch, w.st, ref, vals, i + 1, u);
      }
    }
  }

  lemma {:induction false} WriteElemsFrame(sch: Schema, st: Tables, ref: Ref, col: nat, elems: seq<Option<Obj>>, i: nat, u: set<Ref>)
    requires ValidSchema(sch) && WellFormed(sch, st) && i <= |elems| && SuitsCol(sch, ref, col, Links(elems))
    requires Apart(sch, st, ref, u) && u !! ValKeys(sch, Links(elems))
    ensures Unchanged(st, WriteElems(sch, st, ref, col, elems, i).st, u)
    decreases elems, |elems| - i
  {
    if i < |elems| {
      if elems[i].None? {
        WriteElemsFrame(sch, st, ref, col, elems, i + 1, u);
      } else {
        assert TypedElem(sch, sch[ref.cls].props[col].target, elems[i]);
        var w := WriteElem(sch, st, ref, col, i, elems[i]);
        assert Unchanged(st, w.st, u) by {
          ElemKeysIn(sch, elems, i);
          WriteElemFrame(sch, st, ref, col, i, elems[i], u);
        }
        assert WellFormed(sch, w.st) by { WriteElemKeeps(sch, st, ref, col, i, elems[i]); }
        if w.ok {
          assert Apart(sch, w.st, ref, u) by { ApartKept(sch, st, w.st, ref, u); }
          WriteElemsFrame(sch, w.st, ref, col, elems, i + 1, u);
        }
      }
    }
  }

  lemma PlaceElemFrame(sch: Schema, st: Tables, ref: Ref, col: nat, i: nat, o: Obj, u: set<Ref>)
    requires WellFormed(sch, st) && Apart(sch, st, ref, u) && u !! Keys(sch, o)
    ensures var m := PlaceElem(sch, st, ref, col, i, o); Unchanged(st, m.st, u) && (m.ok ==> m.ref !in u)
  {
    NumbersAreNew(sch, st, o.cls);
    if !EmbeddedClass(sch, o.cls) { CreateFrame(sch, st, o, u); }
  }

  lemma {:induction false} WriteElemFrame(sch: Schema, st: Tables, ref: Ref, col: nat, i: nat, e: Option<Obj>, u: set<Ref>)
    requires ValidSchema(sch) && WellFormed(sch, st) && e.Some? && Typed(sch, e.value)
    requires ref.cls in sch && col < |sch[ref.cls].props| && sch[ref.cls].props[col] == KLinks(e.value.cls)
    requires Apart(sch, st, ref, u) && u !! ElemKeys(sch, e)
    ensures Unchanged(st, WriteElem(sch, st, ref, col, i, e).st, u)
    decreases e
  {
    var o := e.value;
    var m := PlaceElem(sch, st, ref, col, i, o);
    PlaceElemFrame(sch, st, ref, col, i, o, u);
    assert GoodTarget(sch, st, m, o) by { PlaceElemKeeps(sch, st, ref, col, i, o); }
    if m.ok {
      assert Apart(sch, m.st, m.ref, u) by { ApartKept(sch, st, m.st, ref, u); }
      WritePropsFrame(sch, m.st, m.ref, o.vals, 0, u);
    }
  }

  /** `add` leaves every row alone that the graph does not name, for any set of rows that is closed
      under ownership. */
  lemma AddFrame(sch: Schema, st: Tables, o: Obj, u: set<Ref>)
    requires ValidSchema(sch) && WellFormed(sch, st) && Typed(sch, o)
    requires u <= st.rows.Keys && OwnerClosed(sch, st.rows, u) && u !! Keys(sch, o)
    ensures Unchanged(st, Add(sch, st, o).st, u)
  {
    CreateFrame(sch, st, o, u);
    CreateKeeps(sch, st, o);
    var m := Create(sch, st, o);
    if m.ok {
      assert Apart(sch, st, m.ref, u);
      ApartKept(sch, st, m.st, m.ref, u);
      WritePropsFrame(sch, m.st, m.ref, o.vals, 0, u);
    }
  }
}
