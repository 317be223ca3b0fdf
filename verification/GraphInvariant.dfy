/** Writing any object graph keeps the tables well formed. */
module GraphInvariant {
  import opened Wrappers
  import opened Store
  import opened StoreInvariant
  import opened Graph

  /** The values are those of an object of the row's class, with the row's own key. */
  ghost predicate Suits(sch: Schema, ref: Ref, vals: seq<Val>) {
    && ref.cls in sch && |vals| == |sch[ref.cls].props|
    && forall i :: 0 <= i < |vals| ==> SuitsCol(sch, ref, i, vals[i])
  }

  ghost predicate SuitsCol(sch: Schema, ref: Ref, col: nat, v: Val) {
    && ref.cls in sch && col < |sch[ref.cls].props| && TypedVal(sch, sch[ref.cls].props[col], v)
    && (ref.Keyed? && sch[ref.cls].pk == Some(col) ==> v == Scalar(ref.pk))
  }

  lemma TypedHasKey(sch: Schema, o: Obj)
    requires ValidSchema(sch) && Typed(sch, o)
    ensures HasKey(sch, o) <==> sch[o.cls].pk.Some?
    ensures HasKey(sch, o) ==> Suits(sch, Keyed(o.cls, KeyOf(sch, o)), o.vals)
    ensures forall n :: Suits(sch, Auto(o.cls, n), o.vals)
    ensures sch[o.cls].embedded ==> sch[o.cls].pk.None?
  {
    assert ValidClass(sch, sch[o.cls]);
  }

  /** Only embedded rows ever disappear. */
  ghost predicate Keeps(sch: Schema, st: Tables, st': Tables) {
    && WellFormed(sch, st')
    && forall r :: r in st.rows && !IsEmbedded(sch, r) ==> r in st'.rows
  }

  /** What creating a target row promises. */
  ghost predicate GoodTarget(sch: Schema, st: Tables, m: Made, o: Obj) {
    Keeps(sch, st, m.st) && (m.ok ==> m.ref in m.st.rows && Suits(sch, m.ref, o.vals))
  }

  lemma CreateKeeps(sch: Schema, st: Tables, o: Obj)
    requires ValidSchema(sch) && WellFormed(sch, st) && Typed(sch, o)
    ensures var m := Create(sch, st, o);
            GoodTarget(sch, st, m, o) && m.ref.cls == o.cls && (m.ok ==> !sch[o.cls].embedded)
  {
    TypedHasKey(sch, o);
    if HasKey(sch, o) {
      CreateWithKeyKeeps(sch, st, o.cls, KeyOf(sch, o));
    } else {
      CreateObjectKeeps(sch, st, o.cls);
    }
  }

  lemma PlaceLinkKeeps(sch: Schema, st: Tables, ref: Ref, col: nat, o: Obj)
    requires ValidSchema(sch) && WellFormed(sch, st) && Typed(sch, o) && SuitsCol(sch, ref, col, Link(Some(o)))
    ensures GoodTarget(sch, st, PlaceLink(sch, st, ref, col, o), o)
  {
    if EmbeddedClass(sch, o.cls) {
      PlaceEmbeddedKeeps(sch, st, ref, col, o);
    } else {
      CreateKeeps(sch, st, o);
      var m := Create(sch, st, o);
      if m.ok { LinkCellKeeps(sch, m.st, ref, col, m.ref); }
    }
  }

  lemma PlaceEmbeddedKeeps(sch: Schema, st: Tables, ref: Ref, col: nat, o: Obj)
    requires ValidSchema(sch) && WellFormed(sch, st) && Typed(sch, o) && SuitsCol(sch, ref, col, Link(Some(o)))
    requires EmbeddedClass(sch, o.cls)
    ensures GoodTarget(sch, st, AttachEmbedded(sch, st, ref, col, o.cls), o)
  {
    TypedHasKey(sch, o);
    if Live(st, ref, col) {
      assert RowFits(sch, ref, st.rows[ref]);
      ReplaceEmbeddedKeeps(sch, st, ref, col, Some(Auto(o.cls, st.next)));
      VictimsFacts(sch, st, ref, col);
    }
  }

  lemma LinkCellKeeps(sch: Schema, st: Tables, ref: Ref, col: nat, t: Ref)
    requires ValidSchema(sch) && WellFormed(sch, st) && t in st.rows && !IsEmbedded(sch, t) && t.cls in sch
    requires ref.cls in sch && col < |sch[ref.cls].props| && sch[ref.cls].props[col] == KLink(t.cls)
    ensures Keeps(sch, st, SetCell(st, ref, col, CLink(Some(t))).st)
  {
    if Live(st, ref, col) {
      assert RowFits(sch, ref, st.rows[ref]) && ValidClass(sch, sch[ref.cls]);
      SetCellKeeps(sch, st, ref, col, CLink(Some(t)));
    }
  }

  lemma PlaceElemKeeps(sch: Schema, st: Tables, ref: Ref, col: nat, i: nat, o: Obj)
    requires ValidSchema(sch) && WellFormed(sch, st) && Typed(sch, o)
    requires ref.cls in sch && col < |sch[ref.cls].props| && sch[ref.cls].props[col] == KLinks(o.cls)
    ensures var m := PlaceElem(sch, st, ref, col, i, o);
            GoodTarget(sch, st, m, o) && m.ref.cls == o.cls && (m.ok && !EmbeddedClass(sch, o.cls) ==> !IsEmbedded(sch, m.ref))
  {
    TypedHasKey(sch, o);
    if EmbeddedClass(sch, o.cls) {
      InsertEmbeddedKeeps(sch, st, ref, col, i, o.cls);
    } else {
      CreateKeeps(sch, st, o);
    }
  }

  /** Writing a cell without links to a column of such cells. */
  lemma SetPlainKeeps(sch: Schema, st: Tables, ref: Ref, col: nat, c: Cell)
    requires WellFormed(sch, st) && (Live(st, ref, col) ==> Writable(sch, ref, col, c))
    requires c.CPrim? || c.CList? || c.CSet? || c.CMap?
    ensures Keeps(sch, st, SetCell(st, ref, col, c).st)
  {
    if Live(st, ref, col) {
      assert RowFits(sch, ref, st.rows[ref]);
      SetCellKeeps(sch, st, ref, col, c);
    }
  }

  lemma {:induction false} WriteValKeeps(sch: Schema, st: Tables, ref: Ref, col: nat, v: Val)
    requires ValidSchema(sch) && WellFormed(sch, st) && SuitsCol(sch, ref, col, v)
    ensures Keeps(sch, st, WriteVal(sch, st, ref, col, v).st)
    decreases v
  {
    match v
    case Scalar(p) => SetPlainKeeps(sch, st, ref, col, CPrim(p));
    case Link(None) =>
    case Link(Some(o)) =>
      PlaceLinkKeeps(sch, st, ref, col, o);
      var m := PlaceLink(sch, st, ref, col, o);
      if m.ok { WritePropsKeeps(sch, m.st, m.ref, o.vals, 0); }
    case Links(elems) =>
      if Live(st, ref, col) { WriteElemsKeeps(sch, st, ref, col, elems, 0); }
    case Items(items) => WriteItemsKeeps(sch, st, ref, col, items);
    case Elems(s) =>
      if Live(st, ref, col) && st.rows[ref][col].CSet? { SetPlainKeeps(sch, st, ref, col, CSet(st.rows[ref][col].elems + s)); }
    case Entries(m) =>
      if Live(st, ref, col) && st.rows[ref][col].CMap? { SetPlainKeeps(sch, st, ref, col, CMap(st.rows[ref][col].entries + m)); }
    case Backlinks =>
  }

  lemma WriteItemsKeeps(sch: Schema, st: Tables, ref: Ref, col: nat, items: seq<Prim>)
    requires WellFormed(sch, st) && SuitsCol(sch, ref, col, Items(items))
    ensures Keeps(sch, st, WriteItems(sch, st, ref, col, items).st)
  {
    var c := match sch[ref.cls].props[col].write
      case Replace => CList(items)
      case Append => if Live(st, ref, col) && st.rows[ref][col].CList? then CList(st.rows[ref][col].items + items) else CList(items)
      case InsertAtIndex => if Live(st, ref, col) && st.rows[ref][col].CList? then CList(items + st.rows[ref][col].items) else CList(items);
    SetPlainKeeps(sch, st, ref, col, c);
    assert SetCell(st, ref, col, c).ok ==> Live(st, ref, col);
  }

  lemma {:induction false} WritePropsKeeps(sch: Schema, st: Tables, ref: Ref, vals: seq<Val>, i: nat)
    requires ValidSchema(sch) && WellFormed(sch, st) && i <= |vals| && Suits(sch, ref, vals)
    ensures Keeps(sch, st, WriteProps(sch, st, ref, vals, i).st)
    decreases vals, |vals| - i
  {
    if i < |vals| {
      WriteValKeeps(sch, st, ref, i, vals[i]);
      var w := WriteVal(sch, st, ref, i, vals[i]);
      if w.ok { WritePropsKeeps(sch, w.st, ref, vals, i + 1); }
    }
  }

  lemma {:induction false} WriteElemsKeeps(sch: Schema, st: Tables, ref: Ref, col: nat, elems: seq<Option<Obj>>, i: nat)
    requires ValidSchema(sch) && WellFormed(sch, st) && i <= |elems| && SuitsCol(sch, ref, col, Links(elems))
    ensures Keeps(sch, st, WriteElems(sch, st, ref, col, elems, i).st)
    decreases elems, |elems| - i
  {
    if i < |elems| {
      if elems[i].None? {
        WriteElemsKeeps(sch, st, ref, col, elems, i + 1);
      } else {
        assert TypedElem(sch, sch[ref.cls].props[col].target, elems[i]);
        WriteElemKeeps(sch, st, ref, col, i, elems[i]);
        var w := WriteElem(sch, st, ref, col, i, elems[i]);
        if w.ok { WriteElemsKeeps(sch, w.st, ref, col, elems, i + 1); }
      }
    }
  }

  lemma {:induction false} WriteElemKeeps(sch: Schema, st: Tables, ref: Ref, col: nat, i: nat, e: Option<Obj>)
    requires ValidSchema(sch) && WellFormed(sch, st) && e.Some? && Typed(sch, e.value)
    requires ref.cls in sch && col < |sch[ref.cls].props| && sch[ref.cls].props[col] == KLinks(e.value.cls)
    ensures Keeps(sch, st, WriteElem(sch, st, ref, col, i, e).st)
    decreases e
  {
    var o := e.value;
    PlaceElemKeeps(sch, st, ref, col, i, o);
    var m := PlaceElem(sch, st, ref, col, i, o);
    if m.ok {
      WritePropsKeeps(sch, m.st, m.ref, o.vals, 0);
      var w := WriteProps(sch, m.st, m.ref, o.vals, 0);
      if w.ok && !EmbeddedClass(sch, o.cls) { AppendLinkKeeps(sch, w.st, ref, col, m.ref); }
    }
  }

  lemma AppendLinkKeeps(sch: Schema, st: Tables, ref: Ref, col: nat, t: Ref)
    requires WellFormed(sch, st) && !IsEmbedded(sch, t) && t in st.rows
    requires ref.cls in sch && col < |sch[ref.cls].props| && sch[ref.cls].props[col] == KLinks(t.cls)
    ensures Keeps(sch, st, AppendLink(st, ref, col, t).st)
  {
    if Live(st, ref, col) && st.rows[ref][col].CLinks? {
      var ts := st.rows[ref][col].links;
      assert RowFits(sch, ref, st.rows[ref]);
      forall r | r in ts ensures r in st.rows {
        var i :| 0 <= i < |ts| && ts[i] == r;
        assert At(st.rows, Slot(ref, col, i)) == Some(r);
      }
      SetCellKeeps(sch, st, ref, col, CLinks(ts + [t]));
    }
  }

  /** `add` keeps the tables well formed, for every object graph and all well-formed tables. */
  lemma AddKeeps(sch: Schema, st: Tables, o: Obj)
    requires ValidSchema(sch) && WellFormed(sch, st) && Typed(sch, o)
    ensures var m := Add(sch, st, o); Keeps(sch, st, m.st) && UniqueKeys(sch, m.st)
  {
    CreateKeeps(sch, st, o);
    var m := Create(sch, st, o);
    if m.ok { WritePropsKeeps(sch, m.st, m.ref, o.vals, 0); }
    KeysUnique(sch, Add(sch, st, o).st);
  }
}
