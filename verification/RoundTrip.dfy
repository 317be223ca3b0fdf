/** What `detach` reads back, and the graphs that can come back. */
module RoundTrip {
  import opened Wrappers
  import opened Store
  import opened Graph

  /** The first column with the given name, from the `i`-th on. */
  function ColumnNamed(names: seq<Name>, name: Name, i: nat): (col: Option<nat>)
    requires i <= |names|
    ensures col.Some? ==> i <= col.value < |names| && names[col.value] == name
    ensures col.None? ==> forall j :: i <= j < |names| ==> names[j] != name
    decreases |names| - i
  {
    if i == |names| then None
    else if names[i] == name then Some(i)
    else ColumnNamed(names, name, i + 1)
  }

  /** A column of one kind can be read as a property of another one: links may lead anywhere. */
  predicate ReadsAs(stored: Kind, asked: Kind) {
    match asked
    case KLink(_) => stored.KLink?
    case KLinks(_) => stored.KLinks?
    case _ => stored == asked
  }

  /** The cell that property `i` of class `c` is read from: the accessors are bound to the columns of
      the row's own table that have the names of the class's properties. */
  function Seen(sch: Schema, rows: Rows, ref: Ref, c: Class, i: nat): Option<Cell> {
    if ref in rows && ref.cls in sch && c in sch && i < |sch[c].names| && i < |sch[c].props| then
      match ColumnNamed(sch[ref.cls].names, sch[c].names[i], 0)
      case Some(j) =>
        if j < |rows[ref]| && j < |sch[ref.cls].props| && ReadsAs(sch[ref.cls].props[j], sch[c].props[i]) then Some(rows[ref][j])
        else None
      case None => None
    else None
  }

  /** A column is seen under its name, wherever it stands, by properties of its type, and links by links
      to any class. */
  lemma SeenByName(sch: Schema, rows: Rows, ref: Ref, c: Class, i: nat, j: nat)
    requires ref in rows && ref.cls in sch && c in sch && ValidClass(sch, sch[ref.cls]) && ValidClass(sch, sch[c])
    requires i < |sch[c].props| && j < |rows[ref]| == |sch[ref.cls].props| && sch[ref.cls].names[j] == sch[c].names[i]
    ensures var stored, asked := sch[ref.cls].props[j], sch[c].props[i];
            Seen(sch, rows, ref, c, i) ==
              if stored == asked || (stored.KLink? && asked.KLink?) || (stored.KLinks? && asked.KLinks?) then Some(rows[ref][j]) else None
  {
    var k := ColumnNamed(sch[ref.cls].names, sch[c].names[i], 0);
    assert k == Some(j);
  }

  /** A row read as its own class shows its own cells. */
  lemma SeenOwn(sch: Schema, rows: Rows, ref: Ref, i: nat)
    requires ref in rows && ref.cls in sch && ValidClass(sch, sch[ref.cls])
    requires i < |rows[ref]| == |sch[ref.cls].props|
    ensures Seen(sch, rows, ref, ref.cls, i) == Some(rows[ref][i])
  {
    var names := sch[ref.cls].names;
    var j := ColumnNamed(names, names[i], 0);
    assert names[i] == names[j.value];
  }

  /** `detach` of row `ref`, read as an object of class `c`, returns `o`. Only a finite `o` can be
      related, so this also says that the recursion of `detach` ends. */
  ghost predicate Detaches(sch: Schema, rows: Rows, ref: Ref, c: Class, o: Obj)
    decreases o
  {
    && ref in rows && c in sch && o.cls == c && |o.vals| == |sch[c].props|
    && forall i :: 0 <= i < |o.vals| ==> DetachesCol(sch, rows, ref, c, i, o.vals[i])
  }

  /** Backlinks are not read at all. */
  ghost predicate DetachesCol(sch: Schema, rows: Rows, ref: Ref, c: Class, i: nat, v: Val)
    requires c in sch && i < |sch[c].props|
    decreases v, 1
  {
    if sch[c].props[i].KBacklinks? then v == Backlinks
    else Seen(sch, rows, ref, c, i).Some? && DetachesVal(sch, rows, ref, sch[c].props[i], Seen(sch, rows, ref, c, i).value, v)
  }

  ghost predicate DetachesVal(sch: Schema, rows: Rows, ref: Ref, k: Kind, cell: Cell, v: Val)
    decreases v, 0
  {
    match cell
    case CPrim(p) => v == Scalar(p)
    // on a null link, `detach` reads the row holding the link as if it were the target
    case CLink(t) => k.KLink? && v.Link? && v.target.Some? &&
      Detaches(sch, rows, if t.Some? then t.value else ref, k.target, v.target.value)
    case CLinks(ts) => k.KLinks? && v.Links? && |v.elems| == |ts| &&
      forall i :: 0 <= i < |ts| ==> DetachesElem(sch, rows, ts[i], k.target, v.elems[i])
    case CList(items) => v == Items(items)
    case CSet(s) => v == Elems(s)
    case CMap(m) => v == Entries(m)
    case CNone => v == Backlinks
  }

  ghost predicate DetachesElem(sch: Schema, rows: Rows, ref: Ref, c: Class, e: Option<Obj>)
    decreases e
  {
    e.Some? && Detaches(sch, rows, ref, c, e.value)
  }

  /** There is one result at most. */
  lemma {:induction false} DetachesOnce(sch: Schema, rows: Rows, ref: Ref, c: Class, o: Obj, o': Obj)
    requires Detaches(sch, rows, ref, c, o) && Detaches(sch, rows, ref, c, o')
    ensures o == o'
    decreases o
  {
    forall i | 0 <= i < |o.vals| ensures o.vals[i] == o'.vals[i] {
      assert DetachesCol(sch, rows, ref, c, i, o.vals[i]) && DetachesCol(sch, rows, ref, c, i, o'.vals[i]);
      if !sch[c].props[i].KBacklinks? {
        DetachesOnceVal(sch, rows, ref, sch[c].props[i], Seen(sch, rows, ref, c, i).value, o.vals[i], o'.vals[i]);
      }
    }
  }

  lemma {:induction false} DetachesOnceVal(sch: Schema, rows: Rows, ref: Ref, k: Kind, cell: Cell, v: Val, v': Val)
    requires DetachesVal(sch, rows, ref, k, cell, v) && DetachesVal(sch, rows, ref, k, cell, v')
    ensures v == v'
    decreases v
  {
    match cell
    case CLink(t) => DetachesOnce(sch, rows, if t.Some? then t.value else ref, k.target, v.target.value, v'.target.value);
    case CLinks(ts) =>
      forall i | 0 <= i < |ts| ensures v.elems[i] == v'.elems[i] {
        assert DetachesElem(sch, rows, ts[i], k.target, v.elems[i]) && DetachesElem(sch, rows, ts[i], k.target, v'.elems[i]);
        DetachesOnce(sch, rows, ts[i], k.target, v.elems[i].value, v'.elems[i].value);
      }
    case _ =>
  }

  // ----- the graphs that come back

  /** No null link and no null element anywhere. */
  ghost predicate Solid(o: Obj)
    decreases o
  {
    forall i :: 0 <= i < |o.vals| ==> SolidVal(o.vals[i])
  }

  ghost predicate SolidVal(v: Val)
    decreases v
  {
    match v
    case Link(t) => t.Some? && Solid(t.value)
    case Links(elems) => forall i :: 0 <= i < |elems| ==> SolidElem(elems[i])
    case _ => true
  }

  ghost predicate SolidElem(e: Option<Obj>)
    decreases e
  {
    e.Some? && Solid(e.value)
  }

  lemma {:induction false} DetachedIsSolid(sch: Schema, rows: Rows, ref: Ref, c: Class, o: Obj)
    requires Detaches(sch, rows, ref, c, o)
    ensures Solid(o)
    decreases o
  {
    forall i | 0 <= i < |o.vals| ensures SolidVal(o.vals[i]) {
      assert DetachesCol(sch, rows, ref, c, i, o.vals[i]);
      if !sch[c].props[i].KBacklinks? {
        DetachedValIsSolid(sch, rows, ref, sch[c].props[i], Seen(sch, rows, ref, c, i).value, o.vals[i]);
      }
    }
  }

  lemma {:induction false} DetachedValIsSolid(sch: Schema, rows: Rows, ref: Ref, k: Kind, cell: Cell, v: Val)
    requires DetachesVal(sch, rows, ref, k, cell, v)
    ensures SolidVal(v)
    decreases v
  {
    match cell
    case CLink(t) => DetachedIsSolid(sch, rows, if t.Some? then t.value else ref, k.target, v.target.value);
    case CLinks(ts) =>
      forall i | 0 <= i < |ts| ensures SolidElem(v.elems[i]) {
        assert DetachesElem(sch, rows, ts[i], k.target, v.elems[i]);
        DetachedIsSolid(sch, rows, ts[i], k.target, v.elems[i].value);
      }
    case _ =>
  }
}
