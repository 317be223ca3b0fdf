/** Object graphs as `add` walks them, and what writing one does to the tables. */
module Graph {
  import opened Wrappers
  import opened Store

  // The recursion of the accessors follows pointers and never compares them, so a graph is given by its
  // unfolding.

  datatype Obj = Obj(cls: Class, vals: seq<Val>)

  /** The value of one property. */
  datatype Val =
    | Scalar(p: Prim)                    // scalars, optionals (null included) and primary keys
    | Link(target: Option<Obj>)          // T*
    | Links(elems: seq<Option<Obj>>)     // vector<T*>
    | Items(items: seq<Prim>)            // vector<T>
    | Elems(members: set<Prim>)           // set<T>
    | Entries(entries: map<string, Prim>) // map<string, T>
    | Backlinks                          // linking_objects<T>

  ghost predicate Typed(sch: Schema, o: Obj)
    decreases o
  {
    && o.cls in sch && |o.vals| == |sch[o.cls].props|
    && forall i :: 0 <= i < |o.vals| ==> TypedVal(sch, sch[o.cls].props[i], o.vals[i])
  }

  ghost predicate TypedVal(sch: Schema, k: Kind, v: Val)
    decreases v
  {
    match k
    case KScalar(_) => v.Scalar?
    case KLink(c) => v.Link? && (v.target.Some? ==> v.target.value.cls == c && Typed(sch, v.target.value))
    case KLinks(c) => v.Links? && forall i :: 0 <= i < |v.elems| ==> TypedElem(sch, c, v.elems[i])
    case KList(_, _) => v.Items?
    case KSet(_) => v.Elems?
    case KMap(_) => v.Entries?
    case KBacklinks => v.Backlinks?
  }

  ghost predicate TypedElem(sch: Schema, c: Class, e: Option<Obj>)
    decreases e
  {
    e.Some? ==> e.value.cls == c && Typed(sch, e.value)
  }

  predicate HasKey(sch: Schema, o: Obj) {
    o.cls in sch && sch[o.cls].pk.Some? && sch[o.cls].pk.value < |o.vals| && o.vals[sch[o.cls].pk.value].Scalar?
  }

  function KeyOf(sch: Schema, o: Obj): Prim
    requires HasKey(sch, o)
  {
    o.vals[sch[o.cls].pk.value].p
  }

  predicate EmbeddedClass(sch: Schema, c: Class) {
    c in sch && sch[c].embedded
  }

  /** Finds or creates the row of an object that is not embedded. */
  function Create(sch: Schema, st: Tables, o: Obj): Made {
    if HasKey(sch, o) then CreateWithKey(sch, st, o.cls, KeyOf(sch, o)) else CreateObject(sch, st, o.cls)
  }

  /** The target row of a `T*` property, with the link already set to it. */
  function PlaceLink(sch: Schema, st: Tables, ref: Ref, col: nat, o: Obj): Made {
    if EmbeddedClass(sch, o.cls) then AttachEmbedded(sch, st, ref, col, o.cls)
    else
      var m := Create(sch, st, o);
      if !m.ok then m
      else
        var s := SetCell(m.st, ref, col, CLink(Some(m.ref)));
        Made(s.st, m.ref, s.ok)
  }

  /** The target row of element `i` of a `vector<T*>` property; only an embedded one is in the list yet. */
  function PlaceElem(sch: Schema, st: Tables, ref: Ref, col: nat, i: nat, o: Obj): Made {
    if EmbeddedClass(sch, o.cls) then InsertEmbedded(sch, st, ref, col, i, o.cls) else Create(sch, st, o)
  }

  /** `obj::set_list_values`. */
  function WriteItems(sch: Schema, st: Tables, ref: Ref, col: nat, items: seq<Prim>): Out {
    if !(ref.cls in sch && col < |sch[ref.cls].props| && sch[ref.cls].props[col].KList?) then Out(st, false)
    else match sch[ref.cls].props[col].write
      case Append =>
        if items == [] then Out(st, true)
        else if Live(st, ref, col) && st.rows[ref][col].CList? then SetCell(st, ref, col, CList(st.rows[ref][col].items + items))
        else Out(st, false)
      case InsertAtIndex =>
        if Live(st, ref, col) && st.rows[ref][col].CList? then SetCell(st, ref, col, CList(items + st.rows[ref][col].items))
        else Out(st, false)
      case Replace => SetCell(st, ref, col, CList(items))
  }

  function InsertElems(st: Tables, ref: Ref, col: nat, s: set<Prim>): Out {
    if Live(st, ref, col) && st.rows[ref][col].CSet? then SetCell(st, ref, col, CSet(st.rows[ref][col].elems + s))
    else Out(st, false)
  }

  function InsertEntries(st: Tables, ref: Ref, col: nat, m: map<string, Prim>): Out {
    if Live(st, ref, col) && st.rows[ref][col].CMap? then SetCell(st, ref, col, CMap(st.rows[ref][col].entries + m))
    else Out(st, false)
  }

  /** `accessor<T>::set`. */
  function WriteVal(sch: Schema, st: Tables, ref: Ref, col: nat, v: Val): Out
    decreases v
  {
    match v
    case Scalar(p) => SetCell(st, ref, col, CPrim(p))
    case Link(None) => Out(st, true)
    case Link(Some(o)) =>
      var m := PlaceLink(sch, st, ref, col, o);
      if !m.ok then Out(m.st, false) else WriteProps(sch, m.st, m.ref, o.vals, 0)
    case Links(elems) =>
      if Live(st, ref, col) then WriteElems(sch, st, ref, col, elems, 0) else Out(st, false)
    case Items(items) => WriteItems(sch, st, ref, col, items)
    case Elems(s) => InsertElems(st, ref, col, s)
    case Entries(m) => InsertEntries(st, ref, col, m)
    case Backlinks => Out(st, true)
  }

  /** The accessors of the properties from the `i`-th on, in declaration order. */
  function WriteProps(sch: Schema, st: Tables, ref: Ref, vals: seq<Val>, i: nat): Out
    requires i <= |vals|
    decreases vals, |vals| - i
  {
    if i == |vals| then Out(st, true)
    else
      var w := WriteVal(sch, st, ref, i, vals[i]);
      if !w.ok then w else WriteProps(sch, w.st, ref, vals, i + 1)
  }

  /** The elements of a `vector<T*>` from the `i`-th on; null elements are skipped. */
  function WriteElems(sch: Schema, st: Tables, ref: Ref, col: nat, elems: seq<Option<Obj>>, i: nat): Out
    requires i <= |elems|
    decreases elems, |elems| - i
  {
    if i == |elems| then Out(st, true)
    else if elems[i].None? then WriteElems(sch, st, ref, col, elems, i + 1)
    else
      var w := WriteElem(sch, st, ref, col, i, elems[i]);
      if !w.ok then w else WriteElems(sch, w.st, ref, col, elems, i + 1)
  }

  function WriteElem(sch: Schema, st: Tables, ref: Ref, col: nat, i: nat, e: Option<Obj>): Out
    requires e.Some?
    decreases e
  {
    var o := e.value;
    var m := PlaceElem(sch, st, ref, col, i, o);
    if !m.ok then Out(m.st, false)
    else
      var w := WriteProps(sch, m.st, m.ref, o.vals, 0);
      if !w.ok || EmbeddedClass(sch, o.cls) then w else AppendLink(w.st, ref, col, m.ref)
  }

  /** `db::add`. */
  function Add(sch: Schema, st: Tables, o: Obj): Made {
    var m := Create(sch, st, o);
    if !m.ok then m
    else
      var w := WriteProps(sch, m.st, m.ref, o.vals, 0);
      Made(w.st, m.ref, w.ok)
  }
}
