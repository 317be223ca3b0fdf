/** The accessors, `add`, link assignment and `detach` on the stored tables. */
module Database {
  import opened Wrappers
  import opened Store
  import opened Graph
  import opened RoundTrip
  import opened LinkAssign

  /** Writing a cell again overwrites it; writing what is there changes nothing. */
  lemma SetAgain(st: Tables, ref: Ref, col: nat, c: Cell, c': Cell)
    requires Live(st, ref, col)
    ensures SetCell(SetCell(st, ref, col, c).st, ref, col, c') == SetCell(st, ref, col, c')
    ensures SetCell(st, ref, col, st.rows[ref][col]).st == st
  {
    var row := st.rows[ref];
    assert row[col := c][col := c'] == row[col := c'] && row[col := row[col]] == row;
    assert st.rows[ref := row[col := c]][ref := row[col := c']] == st.rows[ref := row[col := c']];
    assert st.rows[ref := row] == st.rows;
  }

  class Db {
    const schema: Schema
    var tables: Tables

    constructor (sch: Schema)
      ensures schema == sch && tables == Tables(map[], 0)
    {
      schema := sch;
      tables := Tables(map[], 0);
    }

    method Set(ref: Ref, col: nat, c: Cell) returns (ok: bool)
      modifies this
      ensures Out(tables, ok) == SetCell(old(tables), ref, col, c)
    {
      var w := SetCell(tables, ref, col, c);
      tables, ok := w.st, w.ok;
    }

    /** `list.insert(i, x)`; `list.add(x)` inserts behind the last element. */
    method InsertItem(ref: Ref, col: nat, i: nat, x: Prim)
      requires Live(tables, ref, col) && tables.rows[ref][col].CList? && i <= |tables.rows[ref][col].items|
      modifies this
      ensures Live(tables, ref, col)
      ensures var items := old(tables).rows[ref][col].items;
              tables == SetCell(old(tables), ref, col, CList(items[..i] + [x] + items[i..])).st
    {
      var items := tables.rows[ref][col].items;
      var _ := Set(ref, col, CList(items[..i] + [x] + items[i..]));
    }

    /** The `bool` overload of `set_list_values`: adds value by value. */
    method AddItems(ref: Ref, col: nat, items: seq<Prim>) returns (ok: bool)
      modifies this
      ensures Out(tables, ok) ==
              if items == [] then Out(old(tables), true)
              else if Live(old(tables), ref, col) && old(tables).rows[ref][col].CList?
              then SetCell(old(tables), ref, col, CList(old(tables).rows[ref][col].items + items))
              else Out(old(tables), false)
    {
      if items == [] {
        return true;
      }
      if !(Live(tables, ref, col) && tables.rows[ref][col].CList?) {
        return false;
      }
      ghost var was := tables.rows[ref][col].items;
      SetAgain(tables, ref, col, CNone, CNone);
      assert was + items[..0] == was;
      for i := 0 to |items|
        invariant tables == SetCell(old(tables), ref, col, CList(was + items[..i])).st
      {
        ghost var now := was + items[..i];
        InsertItem(ref, col, |tables.rows[ref][col].items|, items[i]);
        assert now[..|now|] + [items[i]] + now[|now|..] == was + items[..i + 1];
        SetAgain(old(tables), ref, col, CList(now), CList(was + items[..i + 1]));
      }
      assert items[..|items|] == items;
      ok := true;
    }

    /** The overloads that insert value `i` at index `i`. */
    method InsertItems(ref: Ref, col: nat, items: seq<Prim>) returns (ok: bool)
      modifies this
      ensures Out(tables, ok) ==
              if Live(old(tables), ref, col) && old(tables).rows[ref][col].CList?
              then SetCell(old(tables), ref, col, CList(items + old(tables).rows[ref][col].items))
              else Out(old(tables), false)
    {
      if !(Live(tables, ref, col) && tables.rows[ref][col].CList?) {
        return false;
      }
      ghost var was := tables.rows[ref][col].items;
      SetAgain(tables, ref, col, CNone, CNone);
      assert items[..0] + was == was;
      for i := 0 to |items|
        invariant tables == SetCell(old(tables), ref, col, CList(items[..i] + was)).st
      {
        ghost var now := items[..i] + was;
        InsertItem(ref, col, i, items[i]);
        assert now[..i] + [items[i]] + now[i..] == items[..i + 1] + was;
        SetAgain(old(tables), ref, col, CList(now), CList(items[..i + 1] + was));
      }
      assert items[..|items|] == items;
      ok := true;
    }

    /** `obj::set_list_values`, by element type. */
    method SetItems(ref: Ref, col: nat, items: seq<Prim>) returns (ok: bool)
      modifies this
      ensures Out(tables, ok) == WriteItems(schema, old(tables), ref, col, items)
    {
      if !(ref.cls in schema && col < |schema[ref.cls].props| && schema[ref.cls].props[col].KList?) {
        return false;
      }
      match schema[ref.cls].props[col].write
      case Replace => ok := Set(ref, col, CList(items));
      case Append => ok := AddItems(ref, col, items);
      case InsertAtIndex => ok := InsertItems(ref, col, items);
    }

    method SetElems(ref: Ref, col: nat, s: set<Prim>) returns (ok: bool)
      modifies this
      ensures Out(tables, ok) == InsertElems(old(tables), ref, col, s)
    {
      if !(Live(tables, ref, col) && tables.rows[ref][col].CSet?) {
        return false;
      }
      var rest := s;
      ghost var was := tables.rows[ref][col].elems;
      SetAgain(tables, ref, col, CNone, CNone);
      assert was + (s - s) == was;
      while rest != {}
        invariant rest <= s
        invariant tables == SetCell(old(tables), ref, col, CSet(was + (s - rest))).st
        decreases rest
      {
        var x :| x in rest;
        var _ := Set(ref, col, CSet(tables.rows[ref][col].elems + {x}));
        assert was + (s - rest) + {x} == was + (s - (rest - {x}));
        SetAgain(old(tables), ref, col, CSet(was + (s - rest)), CSet(was + (s - (rest - {x}))));
        rest := rest - {x};
      }
      assert s - {} == s;
      ok := true;
    }

    method SetEntries(ref: Ref, col: nat, m: map<string, Prim>) returns (ok: bool)
      modifies this
      ensures Out(tables, ok) == InsertEntries(old(tables), ref, col, m)
    {
      if !(Live(tables, ref, col) && tables.rows[ref][col].CMap?) {
        return false;
      }
      var rest := m.Keys;
      ghost var was := tables.rows[ref][col].entries;
      SetAgain(tables, ref, col, CNone, CNone);
      assert was + (m - m.Keys) == was;
      while rest != {}
        invariant rest <= m.Keys
        invariant tables == SetCell(old(tables), ref, col, CMap(was + (m - rest))).st
        decreases rest
      {
        var k :| k in rest;
        var _ := Set(ref, col, CMap(tables.rows[ref][col].entries[k := m[k]]));
        assert was + (m - (rest - {k})) == (was + (m - rest))[k := m[k]];
        SetAgain(old(tables), ref, col, CMap(was + (m - rest)), CMap(was + (m - (rest - {k}))));
        rest := rest - {k};
      }
      assert m - {} == m;
      ok := true;
    }

    /** `accessor<T>::set`. */
    method SetVal(ref: Ref, col: nat, v: Val) returns (ok: bool)
      modifies this
      ensures Out(tables, ok) == WriteVal(schema, old(tables), ref, col, v)
      decreases v
    {
      match v
      case Scalar(p) => ok := Set(ref, col, CPrim(p));
      case Link(None) => ok := true;
      case Link(Some(o)) =>
        var m := PlaceLink(schema, tables, ref, col, o);
        tables, ok := m.st, m.ok;
        if ok { ok := SetProps(m.ref, o.vals); }
      case Links(elems) =>
        ok := Live(tables, ref, col);
        if ok { ok := SetLinks(ref, col, elems); }
      case Items(items) => ok := SetItems(ref, col, items);
      case Elems(s) => ok := SetElems(ref, col, s);
      case Entries(m) => ok := SetEntries(ref, col, m);
      case Backlinks => ok := true;
    }

    /** The accessors of all properties, in declaration order. */
    method SetProps(ref: Ref, vals: seq<Val>) returns (ok: bool)
      modifies this
      ensures Out(tables, ok) == WriteProps(schema, old(tables), ref, vals, 0)
      decreases vals
    {
      for i := 0 to |vals|
        invariant WriteProps(schema, tables, ref, vals, i) == WriteProps(schema, old(tables), ref, vals, 0)
      {
        ok := SetVal(ref, i, vals[i]);
        if !ok { return; }
      }
      ok := true;
    }

    /** `accessor<vector<T*>>::set`. */
    method SetLinks(ref: Ref, col: nat, elems: seq<Option<Obj>>) returns (ok: bool)
      modifies this
      ensures Out(tables, ok) == WriteElems(schema, old(tables), ref, col, elems, 0)
      decreases elems
    {
      for i := 0 to |elems|
        invariant WriteElems(schema, tables, ref, col, elems, i) == WriteElems(schema, old(tables), ref, col, elems, 0)
      {
        if elems[i].Some? {
          ok := SetElem(ref, col, i, elems[i]);
          if !ok { return; }
        }
      }
      ok := true;
    }

    method SetElem(ref: Ref, col: nat, i: nat, e: Option<Obj>) returns (ok: bool)
      requires e.Some?
      modifies this
      ensures Out(tables, ok) == WriteElem(schema, old(tables), ref, col, i, e)
      decreases e
    {
      var o := e.value;
      var m := PlaceElem(schema, tables, ref, col, i, o);
      tables, ok := m.st, m.ok;
      if ok {
        ok := SetProps(m.ref, o.vals);
        if ok && !EmbeddedClass(schema, o.cls) {
          var w := AppendLink(tables, ref, col, m.ref);
          tables, ok := w.st, w.ok;
        }
      }
    }

    /** `db::add`. */
    method AddObject(o: Obj) returns (ref: Ref, ok: bool)
      modifies this
      ensures Made(tables, ref, ok) == Add(schema, old(tables), o)
    {
      var m := Create(schema, tables, o);
      tables, ref, ok := m.st, m.ref, m.ok;
      if ok { ok := SetProps(ref, o.vals); }
    }

    /** Assignment to a link property of a managed object. */
    method AssignLink(ref: Ref, col: nat, a: Assigned) returns (ok: bool)
      modifies this
      ensures Out(tables, ok) == Assign(schema, old(tables), ref, col, a)
    {
      if a.ToObject? && a.o.Some? {
        var m := PlaceLink(schema, tables, ref, col, a.o.value);
        tables, ok := m.st, m.ok;
        if ok { ok := SetProps(m.ref, a.o.value.vals); }
      } else {
        var w := Assign(schema, tables, ref, col, a);
        tables, ok := w.st, w.ok;
      }
    }

    /** `list.push_back(pointer)`: an embedded object is added to the list first, any other last. */
    method PushToList(ref: Ref, col: nat, o: Obj) returns (ok: bool)
      modifies this
      ensures Out(tables, ok) == PushBack(schema, old(tables), ref, col, o)
    {
      if !(Live(tables, ref, col) && tables.rows[ref][col].CLinks?) {
        return false;
      }
      ok := SetElem(ref, col, |tables.rows[ref][col].links|, Some(o));
    }

    /** `list.push_back` of a managed object or another link. */
    method PushRowToList(ref: Ref, col: nat, t: Option<Ref>) returns (ok: bool)
      modifies this
      ensures Out(tables, ok) == PushRow(schema, old(tables), ref, col, t)
    {
      if t.None? || EmbeddedClass(schema, t.value.cls) {
        return false;
      }
      var w := AppendLink(tables, ref, col, t.value);
      tables, ok := w.st, w.ok;
    }

    /** `detach` of a row read as class `c`: the graph that hangs off it, on all rows where that ends. */
    method Detach(ref: Ref, c: Class, ghost o: Obj) returns (d: Obj)
      requires Detaches(schema, tables.rows, ref, c, o)
      ensures d == o
      decreases o
    {
      var props := schema[c].props;
      var vals := [];
      for i := 0 to |props|
        invariant vals == o.vals[..i]
      {
        assert DetachesCol(schema, tables.rows, ref, c, i, o.vals[i]);
        if props[i].KBacklinks? {
          vals := vals + [Backlinks];
        } else {
          var cell := Seen(schema, tables.rows, ref, c, i);
          var v := DetachVal(ref, props[i], cell.value, o.vals[i]);
          vals := vals + [v];
        }
      }
      d := Obj(c, vals);
    }

    method DetachVal(ref: Ref, k: Kind, cell: Cell, ghost v: Val) returns (d: Val)
      requires DetachesVal(schema, tables.rows, ref, k, cell, v)
      ensures d == v
      decreases v
    {
      match cell
      case CPrim(p) => d := Scalar(p);
      case CLink(t) =>
        var o := Detach(if t.Some? then t.value else ref, k.target, v.target.value);
        d := Link(Some(o));
      case CLinks(ts) =>
        var elems := DetachLinks(ts, k.target, v.elems);
        d := Links(elems);
      case CList(items) => d := Items(items);
      case CSet(s) => d := Elems(s);
      case CMap(m) => d := Entries(m);
      case CNone => d := Backlinks;
    }

    /** `managed<vector<T*>>::detach`. */
    method DetachLinks(ts: seq<Ref>, c: Class, ghost elems: seq<Option<Obj>>) returns (d: seq<Option<Obj>>)
      requires |ts| == |elems| && forall i :: 0 <= i < |ts| ==> DetachesElem(schema, tables.rows, ts[i], c, elems[i])
      ensures d == elems
      decreases elems
    {
      d := [];
      for i := 0 to |ts|
        invariant d == elems[..i]
      {
        assert DetachesElem(schema, tables.rows, ts[i], c, elems[i]);
        var e := DetachElem(ts[i], c, elems[i]);
        d := d + [e];
      }
    }

    method DetachElem(t: Ref, c: Class, ghost e: Option<Obj>) returns (d: Option<Obj>)
      requires DetachesElem(schema, tables.rows, t, c, e)
      ensures d == e
      decreases e
    {
      var o := Detach(t, c, e.value);
      d := Some(o);
    }
  }
}
