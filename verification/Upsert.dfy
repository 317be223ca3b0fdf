/** The effect of `add` on a row that exists already, column by column. */
module Upsert {
  import opened Wrappers
  import opened Store
  import opened StoreInvariant
  import opened Graph
  import opened GraphInvariant
  import opened GraphFrame
  import opened Cells

  /** The non-null elements, in order. */
  function Present(elems: seq<Option<Obj>>): seq<Obj> {
    if elems == [] then []
    else (if elems[0].Some? then [elems[0].value] else []) + Present(elems[1..])
  }

  /** The row an object is written to: its keyed row, or a row numbered `from` or later. */
  predicate RowOf(sch: Schema, from: nat, t: Ref, o: Obj) {
    t.cls == o.cls && if HasKey(sch, o) then t == Keyed(o.cls, KeyOf(sch, o)) else t.Auto? && t.n >= from
  }

  predicate RowsOf(sch: Schema, from: nat, ts: seq<Ref>, os: seq<Obj>) {
    |ts| == |os| && forall i :: 0 <= i < |ts| ==> RowOf(sch, from, ts[i], os[i])
  }

  predicate AllPresent(elems: seq<Option<Obj>>) {
    forall i :: 0 <= i < |elems| ==> elems[i].Some?
  }

  /** A list of links before and after writing elements from index `i` on: appended to, or, if the
      class is embedded, inserted into at index `i` provided `solid`: no element was null. */
  predicate LinksEffect(sch: Schema, from: nat, c: Class, ts: seq<Ref>, ts': seq<Ref>, elems: seq<Option<Obj>>, i: nat, solid: bool) {
    var n := |ts'| - |ts|;
    n >= 0 &&
    if EmbeddedClass(sch, c) then
      solid ==>
        i <= |ts| && ts'[..i] == ts[..i] && RowsOf(sch, from, ts'[i..i + n], Present(elems)) && ts'[i + n..] == ts[i..]
    else
      ts'[..|ts|] == ts && RowsOf(sch, from, ts'[|ts|..], Present(elems))
  }

  /** A cell of kind `k` before and after writing `v` to it, new rows being numbered from `from`. */
  predicate Effect(sch: Schema, from: nat, k: Kind, c: Cell, c': Cell, v: Val) {
    match v
    case Scalar(p) => c' == CPrim(p)
    case Link(None) => c' == c
    case Link(Some(o)) => c'.CLink? && c'.link.Some? && RowOf(sch, from, c'.link.value, o)
    case Links(elems) => c.CLinks? && c'.CLinks? && k.KLinks? && LinksEffect(sch, from, k.target, c.links, c'.links, elems, 0, AllPresent(elems))
    case Items(items) =>
      && c.CList? && c'.CList? && k.KList?
      && (match k.write
          case Replace => c'.items == items
          case Append => c'.items == c.items + items
          case InsertAtIndex => c'.items == items + c.items)
    case Elems(s) => c.CSet? && c' == CSet(c.elems + s)
    case Entries(m) => c.CMap? && c' == CMap(c.entries + m)
    case Backlinks => c' == c
  }

  /** A row that the values being written do not name, nor do they name a row it is embedded in. */
  ghost predicate Outside(sch: Schema, st: Tables, ref: Ref, keys: set<Ref>, up: set<Ref>) {
    ValidSchema(sch) && WellFormed(sch, st) && Inside(sch, st, ref, up) && (up + {ref}) !! keys
  }

  /** Writing elsewhere leaves the row alone. */
  lemma ElsewhereProps(sch: Schema, st: Tables, ref: Ref, t: Ref, vals: seq<Val>, up: set<Ref>)
    requires Outside(sch, st, ref, PropKeys(sch, vals), up) && t !in up + {ref} && Suits(sch, t, vals)
    requires t in st.rows && WriteProps(sch, st, t, vals, 0).ok
    ensures var w := WriteProps(sch, st, t, vals, 0);
            Unchanged(st, w.st, up + {ref}) && WellFormed(sch, w.st) && st.next <= w.st.next
  {
    assert Apart(sch, st, t, up + {ref});
    WritePropsFrame(sch, st, t, vals, 0, up + {ref});
    WritePropsKeeps(sch, st, t, vals, 0);
    PropsDo(sch, st, t, vals, 0, t, 0);
  }

  lemma PlaceElemEffect(sch: Schema, st: Tables, ref: Ref, col: nat, i: nat, o: Obj, up: set<Ref>)
    requires Outside(sch, st, ref, Keys(sch, o), up) && Typed(sch, o)
    requires ref.cls in sch && col < |sch[ref.cls].props| && sch[ref.cls].props[col] == KLinks(o.cls)
    requires PlaceElem(sch, st, ref, col, i, o).ok
    ensures var m := PlaceElem(sch, st, ref, col, i, o);
            && Outside(sch, m.st, ref, PropKeys(sch, o.vals), up) && m.ref !in up + {ref} && Suits(sch, m.ref, o.vals)
            && RowOf(sch, st.next, m.ref, o) && st.next <= m.st.next && Unchanged(st, m.st, up)
            && (EmbeddedClass(sch, o.cls) ==>
                  && Live(st, ref, col) && st.rows[ref][col].CLinks? && i <= |st.rows[ref][col].links|
                  && m.st.rows[ref] == st.rows[ref][col := CLinks(st.rows[ref][col].links[..i] + [m.ref] + st.rows[ref][col].links[i..])])
            && (!EmbeddedClass(sch, o.cls) ==> m.st.rows[ref] == st.rows[ref])
  {
    var m := PlaceElem(sch, st, ref, col, i, o);
    PlacedRow(sch, st, ref, col, i, o);
    assert WellFormed(sch, m.st) && Suits(sch, m.ref, o.vals) by { PlaceElemKeeps(sch, st, ref, col, i, o); }
    assert Unchanged(st, m.st, up) && m.ref !in up by { PlaceElemFrame(sch, st, ref, col, i, o, up); }
    assert Inside(sch, m.st, ref, up) by { InsideKept(sch, st, m.st, ref, up); }
  }

  lemma PlacedRow(sch: Schema, st: Tables, ref: Ref, col: nat, i: nat, o: Obj)
    requires ValidSchema(sch) && WellFormed(sch, st) && Typed(sch, o) && ref in st.rows && ref !in Keys(sch, o)
    requires PlaceElem(sch, st, ref, col, i, o).ok
    ensures var m := PlaceElem(sch, st, ref, col, i, o);
            && m.ref != ref && ref in m.st.rows && RowOf(sch, st.next, m.ref, o) && st.next <= m.st.next
            && (if EmbeddedClass(sch, o.cls) then
                  && Live(st, ref, col) && st.rows[ref][col].CLinks? && i <= |st.rows[ref][col].links|
                  && m.st.rows[ref] == st.rows[ref][col := CLinks(st.rows[ref][col].links[..i] + [m.ref] + st.rows[ref][col].links[i..])]
                else m.st.rows[ref] == st.rows[ref])
  {
    NumbersAreNew(sch, st, o.cls);
    TypedHasKey(sch, o);
  }

  /** `st'` is `st` with the row of one more element in the list. */
  ghost predicate ElemEffect(sch: Schema, st: Tables, st': Tables, ref: Ref, col: nat, i: nat, t: Ref, o: Obj) {
    && WellFormed(sch, st') && ref in st.rows && ref in st'.rows && st.next <= st'.next && RowOf(sch, st.next, t, o)
    && col < |st.rows[ref]| && st.rows[ref][col].CLinks?
    && var ts := st.rows[ref][col].links;
    && (EmbeddedClass(sch, o.cls) ==> i <= |ts|)
    && st'.rows[ref] == st.rows[ref][col := CLinks(WithElem(sch, o.cls, ts, i, t))]
  }

  function WithElem(sch: Schema, c: Class, ts: seq<Ref>, i: nat, t: Ref): seq<Ref>
    requires EmbeddedClass(sch, c) ==> i <= |ts|
  {
    if EmbeddedClass(sch, c) then ts[..i] + [t] + ts[i..] else ts + [t]
  }

  lemma WriteElemEffect(sch: Schema, st: Tables, ref: Ref, col: nat, i: nat, e: Option<Obj>, up: set<Ref>)
    requires e.Some? && Outside(sch, st, ref, ElemKeys(sch, e), up) && Typed(sch, e.value)
    requires ref.cls in sch && col < |sch[ref.cls].props| && sch[ref.cls].props[col] == KLinks(e.value.cls)
    requires WriteElem(sch, st, ref, col, i, e).ok
    ensures ElemEffect(sch, st, WriteElem(sch, st, ref, col, i, e).st, ref, col, i, PlaceElem(sch, st, ref, col, i, e.value).ref, e.value)
  {
    var o := e.value;
    PlaceElemEffect(sch, st, ref, col, i, o, up);
    var w := WriteElem(sch, st, ref, col, i, e);
    assert WellFormed(sch, w.st) by { WriteElemKeeps(sch, st, ref, col, i, e); }
    var m := PlaceElem(sch, st, ref, col, i, o);
    assert col < |st.rows[ref]| && st.rows[ref][col].CLinks? by { assert RowFits(sch, ref, st.rows[ref]); }
    var w1 := WriteProps(sch, m.st, m.ref, o.vals, 0);
    assert Unchanged(m.st, w1.st, up + {ref}) && st.next <= w1.st.next by { ElsewhereProps(sch, m.st, ref, m.ref, o.vals, up); }
  }

  lemma ElemKeepsInside(sch: Schema, st: Tables, ref: Ref, col: nat, i: nat, e: Option<Obj>, up: set<Ref>)
    requires e.Some? && Outside(sch, st, ref, ElemKeys(sch, e), up) && Typed(sch, e.value)
    requires ref.cls in sch && col < |sch[ref.cls].props| && sch[ref.cls].props[col] == KLinks(e.value.cls)
    requires ref in WriteElem(sch, st, ref, col, i, e).st.rows
    ensures Inside(sch, WriteElem(sch, st, ref, col, i, e).st, ref, up)
  {
    WriteElemKeeps(sch, st, ref, col, i, e);
    WriteElemFrame(sch, st, ref, col, i, e, up);
    InsideKept(sch, st, WriteElem(sch, st, ref, col, i, e).st, ref, up);
  }

  lemma RowsOfCons(sch: Schema, from: nat, from1: nat, t: Ref, o: Obj, ts: seq<Ref>, os: seq<Obj>)
    requires from <= from1 && RowOf(sch, from, t, o) && RowsOf(sch, from1, ts, os)
    ensures RowsOf(sch, from, [t] + ts, [o] + os)
  {
    forall k | 0 <= k < 1 + |ts| ensures RowOf(sch, from, ([t] + ts)[k], ([o] + os)[k]) {
      assert k > 0 ==> RowOf(sch, from1, ts[k - 1], os[k - 1]);
    }
  }

  lemma OneMoreLink(sch: Schema, from: nat, from1: nat, c: Class, ts: seq<Ref>, t: Ref, ts': seq<Ref>, elems: seq<Option<Obj>>, i: nat, solid: bool)
    requires from <= from1 && elems != [] && elems[0].Some? && RowOf(sch, from, t, elems[0].value)
    requires EmbeddedClass(sch, c) ==> i <= |ts|
    requires LinksEffect(sch, from1, c, WithElem(sch, c, ts, i, t), ts', elems[1..], i + 1, solid)
    ensures LinksEffect(sch, from, c, ts, ts', elems, i, solid)
  {
    if !EmbeddedClass(sch, c) {
      OneMoreBehind(sch, from, from1, ts, t, ts', elems);
    } else if solid {
      OneMoreInside(sch, from, from1, ts, t, ts', elems, i);
    }
  }

  lemma OneMoreBehind(sch: Schema, from: nat, from1: nat, ts: seq<Ref>, t: Ref, ts': seq<Ref>, elems: seq<Option<Obj>>)
    requires from <= from1 && elems != [] && elems[0].Some? && RowOf(sch, from, t, elems[0].value)
    requires |ts'| > |ts| && ts'[..|ts| + 1] == ts + [t] && RowsOf(sch, from1, ts'[|ts| + 1..], Present(elems[1..]))
    ensures ts'[..|ts|] == ts && RowsOf(sch, from, ts'[|ts|..], Present(elems))
  {
    assert ts'[..|ts|] == ts'[..|ts| + 1][..|ts|] == ts && ts'[|ts|] == ts'[..|ts| + 1][|ts|] == t;
    assert ts'[|ts|..] == [t] + ts'[|ts| + 1..];
    RowsOfCons(sch, from, from1, t, elems[0].value, ts'[|ts| + 1..], Present(elems[1..]));
  }

  lemma OneMoreInside(sch: Schema, from: nat, from1: nat, ts: seq<Ref>, t: Ref, ts': seq<Ref>, elems: seq<Option<Obj>>, i: nat)
    requires from <= from1 && elems != [] && elems[0].Some? && RowOf(sch, from, t, elems[0].value)
    requires i <= |ts| && |ts'| > |ts|
    requires var n := |ts'| - |ts|; var ts1 := ts[..i] + [t] + ts[i..];
             && ts'[..i + 1] == ts1[..i + 1] && RowsOf(sch, from1, ts'[i + 1..i + n], Present(elems[1..])) && ts'[i + n..] == ts1[i + 1..]
    ensures var n := |ts'| - |ts|;
            ts'[..i] == ts[..i] && RowsOf(sch, from, ts'[i..i + n], Present(elems)) && ts'[i + n..] == ts[i..]
  {
    var n, ts1 := |ts'| - |ts|, ts[..i] + [t] + ts[i..];
    assert ts'[..i] == ts'[..i + 1][..i] == ts[..i] && ts'[i] == ts'[..i + 1][i] == t;
    assert ts'[i..i + n] == [t] + ts'[i + 1..i + n];
    assert ts1[i + 1..] == ts[i..];
    RowsOfCons(sch, from, from1, t, elems[0].value, ts'[i + 1..i + n], Present(elems[1..]));
  }

  /** `st'` is `st` with the elements from the `i`-th on in the list; no other column changes. */
  ghost predicate ElemsEffect(sch: Schema, st: Tables, st': Tables, ref: Ref, col: nat, elems: seq<Option<Obj>>, i: nat) {
    && ref in st.rows && ref in st'.rows && |st'.rows[ref]| == |st.rows[ref]| && col < |st.rows[ref]|
    && st.rows[ref][col].CLinks? && st'.rows[ref][col].CLinks?
    && ref.cls in sch && col < |sch[ref.cls].props| && sch[ref.cls].props[col].KLinks? && i <= |elems|
    && LinksEffect(sch, st.next, sch[ref.cls].props[col].target, st.rows[ref][col].links, st'.rows[ref][col].links, elems[i..], i, AllPresent(elems))
    && forall j :: 0 <= j < |st.rows[ref]| && j != col ==> st'.rows[ref][j] == st.rows[ref][j]
  }

  lemma NoElemsEffect(sch: Schema, st: Tables, ref: Ref, col: nat, elems: seq<Option<Obj>>)
    requires Live(st, ref, col) && st.rows[ref][col].CLinks? && SuitsCol(sch, ref, col, Links(elems))
    requires EmbeddedClass(sch, sch[ref.cls].props[col].target) && AllPresent(elems) ==> |elems| <= |st.rows[ref][col].links|
    ensures ElemsEffect(sch, st, st, ref, col, elems, |elems|)
  {
    var ts := st.rows[ref][col].links;
    assert ts[..|ts|] == ts && elems[|elems|..] == [];
  }

  lemma NoneThenElems(sch: Schema, st: Tables, st': Tables, ref: Ref, col: nat, elems: seq<Option<Obj>>, i: nat)
    requires i < |elems| && elems[i].None? && ElemsEffect(sch, st, st', ref, col, elems, i + 1)
    ensures ElemsEffect(sch, st, st', ref, col, elems, i)
  {
    assert elems[i..][1..] == elems[i + 1..];
  }

  lemma ElemThenElemsEffect(sch: Schema, st: Tables, st1: Tables, st2: Tables, ref: Ref, col: nat, t: Ref, elems: seq<Option<Obj>>, i: nat)
    requires i < |elems| && elems[i].Some? && ref.cls in sch && col < |sch[ref.cls].props|
    requires sch[ref.cls].props[col] == KLinks(elems[i].value.cls)
    requires ElemEffect(sch, st, st1, ref, col, i, t, elems[i].value) && ElemsEffect(sch, st1, st2, ref, col, elems, i + 1)
    ensures ElemsEffect(sch, st, st2, ref, col, elems, i)
  {
    assert elems[i..][1..] == elems[i + 1..];
    OneMoreLink(sch, st.next, st1.next, elems[i].value.cls, st.rows[ref][col].links, t, st2.rows[ref][col].links, elems[i..], i, AllPresent(elems));
  }

  lemma {:induction false} WriteElemsEffect(sch: Schema, st: Tables, ref: Ref, col: nat, elems: seq<Option<Obj>>, i: nat, up: set<Ref>)
    requires Outside(sch, st, ref, ValKeys(sch, Links(elems)), up) && SuitsCol(sch, ref, col, Links(elems))
    requires Live(st, ref, col) && i <= |elems| && WriteElems(sch, st, ref, col, elems, i).ok
    requires EmbeddedClass(sch, sch[ref.cls].props[col].target) && st.rows[ref][col].CLinks? && AllPresent(elems) ==> i <= |st.rows[ref][col].links|
    ensures ElemsEffect(sch, st, WriteElems(sch, st, ref, col, elems, i).st, ref, col, elems, i)
    decreases |elems| - i
  {
    assert st.rows[ref][col].CLinks? by { assert RowFits(sch, ref, st.rows[ref]); }
    if i == |elems| {
      NoElemsEffect(sch, st, ref, col, elems);
    } else if elems[i].None? {
      WriteElemsEffect(sch, st, ref, col, elems, i + 1, up);
      NoneThenElems(sch, st, WriteElems(sch, st, ref, col, elems, i).st, ref, col, elems, i);
    } else {
      var w := WriteElem(sch, st, ref, col, i, elems[i]);
      var t := PlaceElem(sch, st, ref, col, i, elems[i].value).ref;
      assert TypedElem(sch, sch[ref.cls].props[col].target, elems[i]);
      assert ElemEffect(sch, st, w.st, ref, col, i, t, elems[i].value) && Inside(sch, w.st, ref, up) by {
        ElemKeysIn(sch, elems, i);
        WriteElemEffect(sch, st, ref, col, i, elems[i], up);
        ElemKeepsInside(sch, st, ref, col, i, elems[i], up);
      }
      var w2 := WriteElems(sch, w.st, ref, col, elems, i + 1);
      assert ElemsEffect(sch, w.st, w2.st, ref, col, elems, i + 1) by { WriteElemsEffect(sch, w.st, ref, col, elems, i + 1, up); }
      ElemThenElemsEffect(sch, st, w.st, w2.st, ref, col, t, elems, i);
    }
  }

  /** One accessor call: its column has the stated effect, no other column of the row changes. */
  lemma WriteValEffect(sch: Schema, st: Tables, ref: Ref, col: nat, v: Val, up: set<Ref>)
    requires Outside(sch, st, ref, ValKeys(sch, v), up) && SuitsCol(sch, ref, col, v) && WriteVal(sch, st, ref, col, v).ok
    ensures var w := WriteVal(sch, st, ref, col, v);
            && WellFormed(sch, w.st) && st.next <= w.st.next && Inside(sch, w.st, ref, up)
            && ref in w.st.rows && |w.st.rows[ref]| == |st.rows[ref]| == |sch[ref.cls].props|
            && Effect(sch, st.next, sch[ref.cls].props[col], st.rows[ref][col], w.st.rows[ref][col], v)
            && forall j :: 0 <= j < |st.rows[ref]| && j != col ==> w.st.rows[ref][j] == st.rows[ref][j]
  {
    var w := WriteVal(sch, st, ref, col, v);
    ValEffect(sch, st, ref, col, v, up);
    assert WellFormed(sch, w.st) by { WriteValKeeps(sch, st, ref, col, v); }
    assert st.next <= w.st.next by { ValDoes(sch, st, ref, col, v, ref, col); }
    assert Inside(sch, w.st, ref, up) by {
      WriteValFrame(sch, st, ref, col, v, up);
      InsideKept(sch, st, w.st, ref, up);
    }
  }

  lemma ValEffect(sch: Schema, st: Tables, ref: Ref, col: nat, v: Val, up: set<Ref>)
    requires Outside(sch, st, ref, ValKeys(sch, v), up) && SuitsCol(sch, ref, col, v) && WriteVal(sch, st, ref, col, v).ok
    ensures var w := WriteVal(sch, st, ref, col, v);
            && ref in w.st.rows && |w.st.rows[ref]| == |st.rows[ref]| == |sch[ref.cls].props|
            && Effect(sch, st.next, sch[ref.cls].props[col], st.rows[ref][col], w.st.rows[ref][col], v)
            && forall j :: 0 <= j < |st.rows[ref]| && j != col ==> w.st.rows[ref][j] == st.rows[ref][j]
  {
    assert RowFits(sch, ref, st.rows[ref]);
    match v
    case Link(Some(o)) => WriteLinkEffect(sch, st, ref, col, o, up);
    case Links(elems) =>
      WriteElemsEffect(sch, st, ref, col, elems, 0, up);
      assert elems[0..] == elems;
    case _ =>
  }

  lemma PlaceLinkEffect(sch: Schema, st: Tables, ref: Ref, col: nat, o: Obj, up: set<Ref>)
    requires Outside(sch, st, ref, Keys(sch, o), up) && SuitsCol(sch, ref, col, Link(Some(o)))
    requires PlaceLink(sch, st, ref, col, o).ok
    ensures var m := PlaceLink(sch, st, ref, col, o);
            && Outside(sch, m.st, ref, PropKeys(sch, o.vals), up) && m.ref !in up + {ref} && Suits(sch, m.ref, o.vals)
            && RowOf(sch, st.next, m.ref, o) && st.next <= m.st.next && Unchanged(st, m.st, up)
            && |st.rows[ref]| == |sch[ref.cls].props| && m.st.rows[ref] == st.rows[ref][col := CLink(Some(m.ref))]
  {
    var m := PlaceLink(sch, st, ref, col, o);
    assert |st.rows[ref]| == |sch[ref.cls].props| by { assert RowFits(sch, ref, st.rows[ref]); }
    PlacedLink(sch, st, ref, col, o);
    assert WellFormed(sch, m.st) && Suits(sch, m.ref, o.vals) by { PlaceLinkKeeps(sch, st, ref, col, o); }
    assert Unchanged(st, m.st, up) && m.ref !in up by { PlaceLinkFrame(sch, st, ref, col, o, up); }
    assert Inside(sch, m.st, ref, up) by { InsideKept(sch, st, m.st, ref, up); }
  }

  lemma PlacedLink(sch: Schema, st: Tables, ref: Ref, col: nat, o: Obj)
    requires WellFormed(sch, st) && Live(st, ref, col) && ref !in Keys(sch, o) && PlaceLink(sch, st, ref, col, o).ok
    ensures var m := PlaceLink(sch, st, ref, col, o);
            && m.ref != ref && ref in m.st.rows && m.st.rows[ref] == st.rows[ref][col := CLink(Some(m.ref))]
            && st.next <= m.st.next && (ValidSchema(sch) && Typed(sch, o) ==> RowOf(sch, st.next, m.ref, o))
  {
    NumbersAreNew(sch, st, o.cls);
    if ValidSchema(sch) && Typed(sch, o) { TypedHasKey(sch, o); }
  }

  lemma WriteLinkEffect(sch: Schema, st: Tables, ref: Ref, col: nat, o: Obj, up: set<Ref>)
    requires Outside(sch, st, ref, Keys(sch, o), up) && SuitsCol(sch, ref, col, Link(Some(o)))
    requires WriteVal(sch, st, ref, col, Link(Some(o))).ok
    ensures var m := PlaceLink(sch, st, ref, col, o);
            var w := WriteProps(sch, m.st, m.ref, o.vals, 0);
            && ref in w.st.rows && |st.rows[ref]| == |sch[ref.cls].props| && RowOf(sch, st.next, m.ref, o)
            && w.st.rows[ref] == st.rows[ref][col := CLink(Some(m.ref))]
  {
    PlaceLinkEffect(sch, st, ref, col, o, up);
    var m := PlaceLink(sch, st, ref, col, o);
    ElsewhereProps(sch, m.st, ref, m.ref, o.vals, up);
  }

  lemma {:induction false} WritePropsEffect(sch: Schema, st: Tables, ref: Ref, vals: seq<Val>, i: nat, up: set<Ref>)
    requires Outside(sch, st, ref, PropKeys(sch, vals), up) && Suits(sch, ref, vals)
    requires i <= |vals| && WriteProps(sch, st, ref, vals, i).ok
    ensures var w := WriteProps(sch, st, ref, vals, i);
            && ref in w.st.rows && |w.st.rows[ref]| == |st.rows[ref]| == |vals|
            && (forall j :: 0 <= j < i ==> w.st.rows[ref][j] == st.rows[ref][j])
            && (forall j :: i <= j < |vals| ==>
                  Effect(sch, st.next, sch[ref.cls].props[j], st.rows[ref][j], w.st.rows[ref][j], vals[j]))
    decreases |vals| - i
  {
    assert RowFits(sch, ref, st.rows[ref]);
    if i < |vals| {
      ValKeysIn(sch, vals, i);
      WriteValEffect(sch, st, ref, i, vals[i], up);
      var w := WriteVal(sch, st, ref, i, vals[i]);
      WritePropsEffect(sch, w.st, ref, vals, i + 1, up);
      var w2 := WriteProps(sch, w.st, ref, vals, i + 1);
      forall j | i + 1 <= j < |vals|
        ensures Effect(sch, st.next, sch[ref.cls].props[j], st.rows[ref][j], w2.st.rows[ref][j], vals[j])
      {
        EffectFrom(sch, st.next, w.st.next, sch[ref.cls].props[j], st.rows[ref][j], w2.st.rows[ref][j], vals[j]);
      }
    }
  }

  lemma EffectFrom(sch: Schema, from: nat, from1: nat, k: Kind, c: Cell, c': Cell, v: Val)
    requires from <= from1 && Effect(sch, from1, k, c, c', v)
    ensures Effect(sch, from, k, c, c', v)
  {
  }

  /** `add` of an object whose keyed row exists, and whose graph does not name that row again, has
      exactly the stated effect on every column of the row. */
  lemma UpsertEffect(sch: Schema, st: Tables, o: Obj)
    requires ValidSchema(sch) && WellFormed(sch, st) && Typed(sch, o) && HasKey(sch, o)
    requires Keyed(o.cls, KeyOf(sch, o)) in st.rows && Keyed(o.cls, KeyOf(sch, o)) !in PropKeys(sch, o.vals)
    requires Add(sch, st, o).ok
    ensures var m := Add(sch, st, o);
            && m.ref == Keyed(o.cls, KeyOf(sch, o)) && m.ref in m.st.rows
            && |m.st.rows[m.ref]| == |st.rows[m.ref]| == |o.vals| == |sch[o.cls].props|
            && forall j :: 0 <= j < |o.vals| ==>
                 Effect(sch, st.next, sch[o.cls].props[j], st.rows[m.ref][j], m.st.rows[m.ref][j], o.vals[j])
  {
    TypedHasKey(sch, o);
    var ref := Keyed(o.cls, KeyOf(sch, o));
    assert {} + {ref} == {ref};
    WritePropsEffect(sch, st, ref, o.vals, 0, {});
  }
}
