/** When the recursion of `detach` ends, null links included. */
module NullLinks {
  import opened Wrappers
  import opened Store
  import opened Graph
  import opened RoundTrip

  // A null link is followed to the row that holds it, which is then read as an object of the target
  // class.

  /** A row and the class it is read as. */
  datatype View = View(row: Ref, cls: Class)

  /** Every property but the backlinks finds a column of its name that it can be read from. */
  ghost predicate Fits(sch: Schema, rows: Rows, v: View) {
    && v.row in rows && v.cls in sch
    && forall i :: 0 <= i < |sch[v.cls].props| && !sch[v.cls].props[i].KBacklinks? ==> Seen(sch, rows, v.row, v.cls, i).Some?
  }

  /** The rows `detach` goes to next, and what it reads them as. */
  ghost predicate Follows(sch: Schema, rows: Rows, v: View, w: View) {
    v.cls in sch && exists i :: 0 <= i < |sch[v.cls].props| && FollowsCol(sch, rows, v, i, w)
  }

  ghost predicate FollowsCol(sch: Schema, rows: Rows, v: View, i: nat, w: View)
    requires v.cls in sch && i < |sch[v.cls].props|
  {
    match sch[v.cls].props[i]
    case KLink(c) =>
      && w.cls == c
      && (match Seen(sch, rows, v.row, v.cls, i)
          case Some(CLink(t)) => w.row == if t.Some? then t.value else v.row
          case _ => false)
    case KLinks(c) =>
      && w.cls == c
      && (match Seen(sch, rows, v.row, v.cls, i)
          case Some(CLinks(ts)) => w.row in ts
          case _ => false)
    case _ => false
  }

  ghost predicate Path(sch: Schema, rows: Rows, p: seq<View>) {
    p != [] && forall i :: 0 <= i < |p| - 1 ==> Follows(sch, rows, p[i], p[i + 1])
  }

  predicate NoRepeat(p: seq<View>) {
    forall i, j :: 0 <= i < j < |p| ==> p[i] != p[j]
  }

  ghost predicate GoodPath(sch: Schema, rows: Rows, p: seq<View>) {
    p != [] && Fits(sch, rows, p[|p| - 1]) && NoRepeat(p)
  }

  /** Every row `detach` comes to fits, and it comes to none again as the same class. */
  ghost predicate Readable(sch: Schema, rows: Rows, v: View) {
    forall p :: Path(sch, rows, p) && p[0] == v ==> GoodPath(sch, rows, p)
  }

  /** What is seen has the shape of the property. */
  lemma SeenShape(sch: Schema, st: Tables, ref: Ref, c: Class, i: nat)
    requires WellFormed(sch, st) && Seen(sch, st.rows, ref, c, i).Some?
    ensures var cell := Seen(sch, st.rows, ref, c, i).value;
            match sch[c].props[i]
            case KScalar(_) => cell.CPrim?
            case KLink(_) => cell.CLink?
            case KLinks(_) => cell.CLinks?
            case KList(_, _) => cell.CList?
            case KSet(_) => cell.CSet?
            case KMap(_) => cell.CMap?
            case KBacklinks => cell.CNone?
  {
    assert RowFits(sch, ref, st.rows[ref]);
  }

  // ----- an end is only possible on readable rows

  /** Following a path leads to ever smaller parts of what is detached. */
  lemma {:induction false} DetachesAlong(sch: Schema, st: Tables, p: seq<View>, o: Obj) returns (part: Obj)
    requires WellFormed(sch, st) && Path(sch, st.rows, p) && Detaches(sch, st.rows, p[0].row, p[0].cls, o)
    ensures Detaches(sch, st.rows, p[|p| - 1].row, p[|p| - 1].cls, part)
    ensures if |p| == 1 then part == o else part < o
    decreases |p|
  {
    if |p| == 1 {
      part := o;
    } else {
      var next := DetachesNext(sch, st, p[0], p[1], o);
      assert Path(sch, st.rows, p[1..]);
      part := DetachesAlong(sch, st, p[1..], next);
    }
  }

  lemma DetachesNext(sch: Schema, st: Tables, v: View, w: View, o: Obj) returns (part: Obj)
    requires WellFormed(sch, st) && Follows(sch, st.rows, v, w) && Detaches(sch, st.rows, v.row, v.cls, o)
    ensures Detaches(sch, st.rows, w.row, w.cls, part) && part < o
  {
    var i :| 0 <= i < |sch[v.cls].props| && FollowsCol(sch, st.rows, v, i, w);
    assert DetachesCol(sch, st.rows, v.row, v.cls, i, o.vals[i]);
    var cell := Seen(sch, st.rows, v.row, v.cls, i).value;
    assert DetachesVal(sch, st.rows, v.row, sch[v.cls].props[i], cell, o.vals[i]);
    match cell
    case CLink(_) => part := o.vals[i].target.value;
    case CLinks(ts) =>
      var j :| 0 <= j < |ts| && ts[j] == w.row;
      assert DetachesElem(sch, st.rows, ts[j], w.cls, o.vals[i].elems[j]);
      part := o.vals[i].elems[j].value;
  }

  lemma DetachedFits(sch: Schema, rows: Rows, v: View, o: Obj)
    requires Detaches(sch, rows, v.row, v.cls, o)
    ensures Fits(sch, rows, v)
  {
    forall i | 0 <= i < |sch[v.cls].props| && !sch[v.cls].props[i].KBacklinks? ensures Seen(sch, rows, v.row, v.cls, i).Some? {
      assert DetachesCol(sch, rows, v.row, v.cls, i, o.vals[i]);
    }
  }

  lemma DetachedIsReadable(sch: Schema, st: Tables, v: View, o: Obj)
    requires WellFormed(sch, st) && Detaches(sch, st.rows, v.row, v.cls, o)
    ensures Readable(sch, st.rows, v)
  {
    forall p: seq<View> | Path(sch, st.rows, p) && p[0] == v ensures GoodPath(sch, st.rows, p) {
      var last := DetachesAlong(sch, st, p, o);
      DetachedFits(sch, st.rows, p[|p| - 1], last);
      forall i, j | 0 <= i < j < |p| ensures p[i] != p[j] { DetachedNeverAgain(sch, st, p, o, i, j); }
    }
  }

  lemma PartOfPath(sch: Schema, rows: Rows, p: seq<View>, i: nat, j: nat)
    requires Path(sch, rows, p) && i < j <= |p|
    ensures Path(sch, rows, p[i..j])
  {
  }

  lemma DetachedNeverAgain(sch: Schema, st: Tables, p: seq<View>, o: Obj, i: nat, j: nat)
    requires WellFormed(sch, st) && Path(sch, st.rows, p) && Detaches(sch, st.rows, p[0].row, p[0].cls, o) && i < j < |p|
    ensures p[i] != p[j]
  {
    PartOfPath(sch, st.rows, p, 0, i + 1);
    PartOfPath(sch, st.rows, p, i, j + 1);
    var there := DetachesAlong(sch, st, p[0..i + 1], o);
    var again := DetachesAlong(sch, st, p[i..j + 1], there);
    if p[i] == p[j] { DetachesOnce(sch, st.rows, p[i].row, p[i].cls, there, again); }
  }

  // ----- and certain on them

  function Views(sch: Schema, rows: Rows): set<View> {
    set r, c | r in rows && c in sch :: View(r, c)
  }

  lemma {:induction false} NoRepeatIsShort(p: seq<View>, all: set<View>)
    requires NoRepeat(p) && forall i :: 0 <= i < |p| ==> p[i] in all
    ensures |p| <= |all|
    decreases |p|
  {
    if p != [] {
      var init, last := p[..|p| - 1], p[|p| - 1];
      NoRepeatIsShort(init, all - {last});
    }
  }

  ghost predicate SomeDetach(sch: Schema, rows: Rows, v: View) {
    exists o :: Detaches(sch, rows, v.row, v.cls, o)
  }

  /** All paths from `v` being good, and the way to it long, `v` detaches. */
  lemma {:induction false} ReadableDetaches(sch: Schema, st: Tables, way: seq<View>, v: View)
    requires ValidSchema(sch) && WellFormed(sch, st) && Path(sch, st.rows, way + [v]) && Readable(sch, st.rows, (way + [v])[0])
    ensures SomeDetach(sch, st.rows, v)
    decreases |Views(sch, st.rows)| - |way|
  {
    var p := way + [v];
    assert GoodPath(sch, st.rows, p);
    WayIsShort(sch, st.rows, p);
    forall w | Follows(sch, st.rows, v, w) ensures SomeDetach(sch, st.rows, w) {
      assert Path(sch, st.rows, p + [w]) && (p + [w])[0] == p[0];
      ReadableDetaches(sch, st, p, w);
    }
    AllNextDetach(sch, st, v);
  }

  lemma WayIsShort(sch: Schema, rows: Rows, p: seq<View>)
    requires Path(sch, rows, p) && Readable(sch, rows, p[0])
    ensures |p| <= |Views(sch, rows)|
  {
    assert GoodPath(sch, rows, p);
    forall i | 0 <= i < |p| ensures p[i] in Views(sch, rows) {
      assert Path(sch, rows, p[..i + 1]);
      assert GoodPath(sch, rows, p[..i + 1]);
    }
    NoRepeatIsShort(p, Views(sch, rows));
  }

  lemma AllNextDetach(sch: Schema, st: Tables, v: View)
    requires ValidSchema(sch) && WellFormed(sch, st) && Fits(sch, st.rows, v)
    requires forall w :: Follows(sch, st.rows, v, w) ==> SomeDetach(sch, st.rows, w)
    ensures SomeDetach(sch, st.rows, v)
  {
    var n := |sch[v.cls].props|;
    forall i | 0 <= i < n ensures ColCan(sch, st.rows, v, i) {
      var x := ColDetaches(sch, st, v, i);
    }
    var vals := seq(n, i requires 0 <= i < n => ColVal(sch, st.rows, v, i));
    assert Detaches(sch, st.rows, v.row, v.cls, Obj(v.cls, vals));
  }

  ghost predicate ColCan(sch: Schema, rows: Rows, v: View, i: nat) {
    v.cls in sch && i < |sch[v.cls].props| && exists x :: DetachesCol(sch, rows, v.row, v.cls, i, x)
  }

  ghost function ColVal(sch: Schema, rows: Rows, v: View, i: nat): (x: Val)
    requires ColCan(sch, rows, v, i)
    ensures DetachesCol(sch, rows, v.row, v.cls, i, x)
  {
    var x :| DetachesCol(sch, rows, v.row, v.cls, i, x);
    x
  }

  ghost function ViewObj(sch: Schema, rows: Rows, v: View): (o: Obj)
    requires SomeDetach(sch, rows, v)
    ensures Detaches(sch, rows, v.row, v.cls, o)
  {
    var o :| Detaches(sch, rows, v.row, v.cls, o);
    o
  }

  lemma ColDetaches(sch: Schema, st: Tables, v: View, i: nat) returns (x: Val)
    requires ValidSchema(sch) && WellFormed(sch, st) && Fits(sch, st.rows, v) && i < |sch[v.cls].props|
    requires forall w :: Follows(sch, st.rows, v, w) ==> SomeDetach(sch, st.rows, w)
    ensures DetachesCol(sch, st.rows, v.row, v.cls, i, x)
  {
    if sch[v.cls].props[i].KBacklinks? {
      return Backlinks;
    }
    SeenShape(sch, st, v.row, v.cls, i);
    match Seen(sch, st.rows, v.row, v.cls, i).value
    case CPrim(p) => x := Scalar(p);
    case CLink(t) =>
      var w := View(if t.Some? then t.value else v.row, sch[v.cls].props[i].target);
      assert FollowsCol(sch, st.rows, v, i, w);
      x := Link(Some(ViewObj(sch, st.rows, w)));
    case CLinks(ts) =>
      var c := sch[v.cls].props[i].target;
      forall j | 0 <= j < |ts| ensures SomeDetach(sch, st.rows, View(ts[j], c)) {
        assert FollowsCol(sch, st.rows, v, i, View(ts[j], c));
      }
      x := Links(seq(|ts|, j requires 0 <= j < |ts| => Some(ViewObj(sch, st.rows, View(ts[j], c)))));
    case CList(items) => x := Items(items);
    case CSet(s) => x := Elems(s);
    case CMap(m) => x := Entries(m);
    case CNone => x := Backlinks;
  }

  /** `detach` ends exactly on the readable rows. */
  lemma DetachEnds(sch: Schema, st: Tables, v: View)
    requires ValidSchema(sch) && WellFormed(sch, st)
    ensures SomeDetach(sch, st.rows, v) <==> Readable(sch, st.rows, v)
  {
    if SomeDetach(sch, st.rows, v) {
      DetachedIsReadable(sch, st, v, ViewObj(sch, st.rows, v));
    }
    if Readable(sch, st.rows, v) {
      assert Path(sch, st.rows, [] + [v]);
      ReadableDetaches(sch, st, [], v);
    }
  }

  // ----- null links

  /** `detach` of a null link ends exactly if the row that holds it is readable as its target class. */
  lemma NullLinkDetaches(sch: Schema, st: Tables, ref: Ref, c: Class)
    requires ValidSchema(sch) && WellFormed(sch, st) && ref in st.rows
    ensures (exists v :: DetachesVal(sch, st.rows, ref, KLink(c), CLink(None), v)) <==> Readable(sch, st.rows, View(ref, c))
  {
    DetachEnds(sch, st, View(ref, c));
    if SomeDetach(sch, st.rows, View(ref, c)) {
      var o := ViewObj(sch, st.rows, View(ref, c));
      assert DetachesVal(sch, st.rows, ref, KLink(c), CLink(None), Link(Some(o)));
    }
  }

  predicate HasColumn(d: ClassDef, name: Name, k: Kind) {
    exists j :: 0 <= j < |d.names| && j < |d.props| && d.names[j] == name && ReadsAs(d.props[j], k)
  }

  /** For a target class without links that is: the holder's table has a column of a fitting kind for
      each property of the target. */
  lemma NullLinkToPlainClass(sch: Schema, st: Tables, ref: Ref, c: Class)
    requires ValidSchema(sch) && WellFormed(sch, st) && ref in st.rows && c in sch
    requires forall i :: 0 <= i < |sch[c].props| ==> !sch[c].props[i].KLink? && !sch[c].props[i].KLinks?
    ensures (exists v :: DetachesVal(sch, st.rows, ref, KLink(c), CLink(None), v)) <==>
            forall i :: 0 <= i < |sch[c].props| && !sch[c].props[i].KBacklinks? ==>
              HasColumn(sch[ref.cls], sch[c].names[i], sch[c].props[i])
  {
    var v := View(ref, c);
    assert RowFits(sch, ref, st.rows[ref]);
    NullLinkDetaches(sch, st, ref, c);
    forall i | 0 <= i < |sch[c].props|
      ensures Seen(sch, st.rows, ref, c, i).Some? <==> HasColumn(sch[ref.cls], sch[c].names[i], sch[c].props[i])
    {
      SeenIffHasColumn(sch, st, ref, c, i);
    }
    if Readable(sch, st.rows, v) {
      assert Path(sch, st.rows, [v]) && GoodPath(sch, st.rows, [v]);
    }
    if Fits(sch, st.rows, v) {
      forall p: seq<View> | Path(sch, st.rows, p) && p[0] == v ensures GoodPath(sch, st.rows, p) {
        assert |p| > 1 ==> Follows(sch, st.rows, p[0], p[1]);
      }
    }
  }

  lemma SeenIffHasColumn(sch: Schema, st: Tables, ref: Ref, c: Class, i: nat)
    requires ValidSchema(sch) && WellFormed(sch, st) && ref in st.rows && c in sch && i < |sch[c].props|
    ensures ref.cls in sch
    ensures Seen(sch, st.rows, ref, c, i).Some? <==> HasColumn(sch[ref.cls], sch[c].names[i], sch[c].props[i])
  {
    assert RowFits(sch, ref, st.rows[ref]);
    assert ValidClass(sch, sch[c]) && ValidClass(sch, sch[ref.cls]);
    var d := sch[ref.cls];
    var found := ColumnNamed(d.names, sch[c].names[i], 0);
    if HasColumn(d, sch[c].names[i], sch[c].props[i]) {
      var j :| 0 <= j < |d.names| && j < |d.props| && d.names[j] == sch[c].names[i] && ReadsAs(d.props[j], sch[c].props[i]);
      assert d.names[found.value] == d.names[j];
    }
  }

  /** A null link to the holder's own class comes back to itself, so the holder never detaches. */
  lemma NullLinkToOwnClass(sch: Schema, st: Tables, ref: Ref, col: nat)
    requires ValidSchema(sch) && WellFormed(sch, st) && ref in st.rows && ref.cls in sch
    requires col < |sch[ref.cls].props| && sch[ref.cls].props[col] == KLink(ref.cls)
    requires col < |st.rows[ref]| && st.rows[ref][col] == CLink(None)
    ensures !SomeDetach(sch, st.rows, View(ref, ref.cls))
  {
    var v := View(ref, ref.cls);
    assert RowFits(sch, ref, st.rows[ref]);
    SeenOwn(sch, st.rows, ref, col);
    assert FollowsCol(sch, st.rows, v, col, v);
    assert Path(sch, st.rows, [v, v]) && [v, v][0] == [v, v][1];
    DetachEnds(sch, st, v);
    assert Readable(sch, st.rows, v) ==> GoodPath(sch, st.rows, [v, v]);
  }

  // ----- a null link that comes back filled from its holder

  const STRING_OBJECT := ClassDef(["_id", "str_col"], [KScalar("int"), KScalar("string")], Some(0), false)

  const HOLDER := ClassDef(["_id", "str_col", "str_link_col"], [KScalar("int"), KScalar("string"), KLink("StringObject")], Some(0), false)

  /** An object whose null link is read through its own `_id` and `str_col`. */
  lemma NullLinkFilledFromHolder(id: int, text: string)
    ensures var sch := map["StringObject" := STRING_OBJECT, "AllTypesObjectLink" := HOLDER];
            var ref := Keyed("AllTypesObjectLink", Int(id));
            var rows := map[ref := [CPrim(Int(id)), CPrim(Text(text)), CLink(None)]];
            Detaches(sch, rows, ref, ref.cls, Obj("AllTypesObjectLink",
              [Scalar(Int(id)), Scalar(Text(text)), Link(Some(Obj("StringObject", [Scalar(Int(id)), Scalar(Text(text))])))]))
  {
    var sch := map["StringObject" := STRING_OBJECT, "AllTypesObjectLink" := HOLDER];
    var ref := Keyed("AllTypesObjectLink", Int(id));
    var rows := map[ref := [CPrim(Int(id)), CPrim(Text(text)), CLink(None)]];
    var target := Obj("StringObject", [Scalar(Int(id)), Scalar(Text(text))]);
    assert ColumnNamed(HOLDER.names, "_id", 0) == Some(0) && ColumnNamed(HOLDER.names, "str_col", 0) == Some(1)
        && ColumnNamed(HOLDER.names, "str_link_col", 0) == Some(2);
    assert Detaches(sch, rows, ref, "StringObject", target);
    assert DetachesCol(sch, rows, ref, ref.cls, 2, Link(Some(target)));
  }
}
