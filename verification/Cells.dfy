/** The exact effect of `add`: what becomes of each cell of each row. */
module Cells {
  import opened Wrappers
  import opened Store
  import opened StoreInvariant
  import opened Graph
  import opened GraphInvariant

  /** What one write does to a cell. */
  datatype Step =
    | Put(c: Cell)
    | Insert(i: nat, t: Ref)
    | Push(t: Ref)
    | Before(front: seq<Prim>)
    | Behind(back: seq<Prim>)
    | Union(s: set<Prim>)
    | Overlay(m: map<string, Prim>)

  /** Behind the end of the list, where inserting throws, it does not matter. */
  function Inserted(ts: seq<Ref>, i: nat, t: Ref): seq<Ref> {
    if i <= |ts| then ts[..i] + [t] + ts[i..] else ts + [t]
  }

  function Do(e: Step, c: Cell): Cell {
    match e
    case Put(c') => c'
    case Insert(i, t) => if c.CLinks? then CLinks(Inserted(c.links, i, t)) else c
    case Push(t) => if c.CLinks? then CLinks(c.links + [t]) else c
    case Before(front) => if c.CList? then CList(front + c.items) else c
    case Behind(back) => if c.CList? then CList(c.items + back) else c
    case Union(s) => if c.CSet? then CSet(c.elems + s) else c
    case Overlay(m) => if c.CMap? then CMap(c.entries + m) else c
  }

  function Run(es: seq<Step>, c: Cell): Cell {
    if es == [] then c else Run(es[1..], Do(es[0], c))
  }

  lemma {:induction false} RunJoined(es: seq<Step>, fs: seq<Step>, c: Cell)
    ensures Run(es + fs, c) == Run(fs, Run(es, c))
  {
    if es == [] {
      assert es + fs == fs;
    } else {
      assert (es + fs)[0] == es[0] && (es + fs)[1..] == es[1..] + fs;
      RunJoined(es[1..], fs, Do(es[0], c));
    }
  }

  // ----- what writing a graph does to one cell

  /** What a piece of `add` does to one cell: how many rows it numbers, what it writes to the cell, in
      order, and whether it makes the row of the cell. */
  datatype Work = Work(rows: nat, steps: seq<Step>, made: bool)

  function Then(a: Work, b: Work): Work {
    Work(a.rows + b.rows, a.steps + b.steps, a.made || b.made)
  }

  const NOTHING := Work(0, [], false)

  /** One write, if it is to the cell in question. */
  function Once(here: bool, e: Step): seq<Step> {
    if here then [e] else []
  }

  /** The row of an object, `n` being the next number. */
  function RefOf(sch: Schema, n: nat, o: Obj): Ref {
    if HasKey(sch, o) then Keyed(o.cls, KeyOf(sch, o)) else Auto(o.cls, n)
  }

  function Own(sch: Schema, o: Obj): nat {
    if HasKey(sch, o) then 0 else 1
  }

  /** Making the row of `o`, with the writes `placing` that link to it, and writing its properties. */
  function ObjWork(sch: Schema, n: nat, o: Obj, placing: seq<Step>, r: Ref, c: nat): Work
    decreases o
  {
    var t := RefOf(sch, n, o);
    Then(Work(Own(sch, o), placing, r == t), PropsWork(sch, n + Own(sch, o), t, o.vals, 0, r, c))
  }

  /** Writing `v` to column `col` of `ref`, as seen from column `c` of row `r`. */
  function ValWork(sch: Schema, n: nat, ref: Ref, col: nat, v: Val, r: Ref, c: nat): Work
    decreases v
  {
    var here := r == ref && c == col;
    match v
    case Link(Some(o)) => ObjWork(sch, n, o, Once(here, Put(CLink(Some(RefOf(sch, n, o))))), r, c)
    case Links(elems) => ElemsWork(sch, n, ref, col, elems, 0, r, c)
    case Link(None) => NOTHING
    case Backlinks => NOTHING
    case _ => Work(0, Once(here, PlainStep(sch, ref, col, v)), false)
  }

  predicate Plain(v: Val) {
    v.Scalar? || v.Items? || v.Elems? || v.Entries?
  }

  function PlainStep(sch: Schema, ref: Ref, col: nat, v: Val): Step
    requires Plain(v)
  {
    match v
    case Scalar(p) => Put(CPrim(p))
    case Elems(s) => Union(s)
    case Entries(m) => Overlay(m)
    case Items(items) =>
      if ref.cls in sch && col < |sch[ref.cls].props| && sch[ref.cls].props[col].KList? then
        match sch[ref.cls].props[col].write
        case Replace => Put(CList(items))
        case Append => Behind(items)
        case InsertAtIndex => Before(items)
      else Put(CList(items))
  }

  function PropsWork(sch: Schema, n: nat, ref: Ref, vals: seq<Val>, i: nat, r: Ref, c: nat): Work
    requires i <= |vals|
    decreases vals, |vals| - i
  {
    if i == |vals| then NOTHING
    else
      var w := ValWork(sch, n, ref, i, vals[i], r, c);
      Then(w, PropsWork(sch, n + w.rows, ref, vals, i + 1, r, c))
  }

  function ElemsWork(sch: Schema, n: nat, ref: Ref, col: nat, elems: seq<Option<Obj>>, i: nat, r: Ref, c: nat): Work
    requires i <= |elems|
    decreases elems, |elems| - i
  {
    if i == |elems| then NOTHING
    else
      var w := ElemWork(sch, n, ref, col, i, elems[i], r, c);
      Then(w, ElemsWork(sch, n + w.rows, ref, col, elems, i + 1, r, c))
  }

  /** An embedded row is in the list before its properties are written, any other one afterwards. */
  function ElemWork(sch: Schema, n: nat, ref: Ref, col: nat, i: nat, e: Option<Obj>, r: Ref, c: nat): Work
    decreases e
  {
    if e.None? then NOTHING
    else
      var t := RefOf(sch, n, e.value);
      var here := r == ref && c == col;
      var embedded := EmbeddedClass(sch, e.value.cls);
      Then(ObjWork(sch, n, e.value, Once(here && embedded, Insert(i, t)), r, c), Work(0, Once(here && !embedded, Push(t)), false))
  }

  // ----- the tables before and afterwards

  /** A cell, or what it is when its row is created. */
  function CellIn(sch: Schema, st: Tables, r: Ref, c: nat): Cell {
    if r in st.rows then (if c < |st.rows[r]| then st.rows[r][c] else CNone)
    else if r.cls !in sch || c >= |sch[r.cls].props| then CNone
    else if r.Keyed? && sch[r.cls].pk == Some(c) then CPrim(r.pk)
    else DefaultCell(sch[r.cls].props[c])
  }

  /** The row is there, or may still be created: a row that is gone never comes back. */
  predicate Open(st: Tables, r: Ref) {
    r in st.rows || r.Keyed? || r.n >= st.next
  }

  /** The next number is as counted, the cell is as written unless its row went away, and a row that is
      not embedded is there afterwards if it was before or is made. */
  ghost predicate Does(sch: Schema, st: Tables, st': Tables, r: Ref, c: nat, w: Work) {
    && st'.next == st.next + w.rows
    && (Open(st', r) ==> Open(st, r) && CellIn(sch, st', r, c) == Run(w.steps, CellIn(sch, st, r, c)))
    && (!IsEmbedded(sch, r) ==> (r in st'.rows <==> r in st.rows || w.made))
  }

  lemma DoesThen(sch: Schema, st: Tables, st1: Tables, st2: Tables, r: Ref, c: nat, a: Work, b: Work)
    requires Does(sch, st, st1, r, c, a) && Does(sch, st1, st2, r, c, b)
    ensures Does(sch, st, st2, r, c, Then(a, b))
  {
    RunJoined(a.steps, b.steps, CellIn(sch, st, r, c));
  }

  lemma DoesNothing(sch: Schema, st: Tables, r: Ref, c: nat)
    ensures Does(sch, st, st, r, c, NOTHING)
  {
  }

  /** A row that is written to, or that went away meanwhile. */
  predicate Known(st: Tables, ref: Ref) {
    ref in st.rows || (ref.Auto? && ref.n < st.next)
  }

  lemma KnownKept(sch: Schema, st: Tables, st': Tables, ref: Ref)
    requires ValidSchema(sch) && WellFormed(sch, st) && Known(st, ref) && Keeps(sch, st, st') && st.next <= st'.next
    ensures Known(st', ref)
  {
    if ref in st.rows { assert RowFits(sch, ref, st.rows[ref]) && ValidClass(sch, sch[ref.cls]); }
  }

  // ----- the operations on the tables

  lemma SetCellDoes(sch: Schema, st: Tables, ref: Ref, col: nat, e: Step, r: Ref, c: nat)
    requires RowsFit(sch, st) && Live(st, ref, col)
    ensures Does(sch, st, SetCell(st, ref, col, Do(e, st.rows[ref][col])).st, r, c, Work(0, Once(r == ref && c == col, e), false))
  {
    assert RowFits(sch, ref, st.rows[ref]);
    assert Run([e], st.rows[ref][col]) == Do(e, st.rows[ref][col]);
  }

  lemma CreateDoes(sch: Schema, st: Tables, o: Obj, r: Ref, c: nat)
    requires ValidSchema(sch) && WellFormed(sch, st) && Typed(sch, o)
    requires Create(sch, st, o).ok
    ensures var m := Create(sch, st, o);
            m.ref == RefOf(sch, st.next, o) && Does(sch, st, m.st, r, c, Work(Own(sch, o), [], r == m.ref))
  {
    TypedHasKey(sch, o);
    NumbersAreNew(sch, st, o.cls);
  }

  lemma AttachDoes(sch: Schema, st: Tables, ref: Ref, col: nat, cls: Class, r: Ref, c: nat)
    requires ValidSchema(sch) && WellFormed(sch, st)
    requires EmbeddedClass(sch, cls) && AttachEmbedded(sch, st, ref, col, cls).ok
    ensures var m := AttachEmbedded(sch, st, ref, col, cls);
            && m.ref == Auto(cls, st.next)
            && Does(sch, st, m.st, r, c, Work(1, Once(r == ref && c == col, Put(CLink(Some(m.ref)))), r == m.ref))
  {
    VictimsFacts(sch, st, ref, col);
    NumbersAreNew(sch, st, cls);
    assert RowFits(sch, ref, st.rows[ref]);
    assert Run([Put(CLink(Some(Auto(cls, st.next))))], st.rows[ref][col]) == CLink(Some(Auto(cls, st.next)));
    if r in st.rows { assert RowFits(sch, r, st.rows[r]) && ValidClass(sch, sch[r.cls]); }
  }

  lemma InsertDoes(sch: Schema, st: Tables, ref: Ref, col: nat, i: nat, cls: Class, r: Ref, c: nat)
    requires ValidSchema(sch) && WellFormed(sch, st)
    requires EmbeddedClass(sch, cls) && InsertEmbedded(sch, st, ref, col, i, cls).ok
    ensures var m := InsertEmbedded(sch, st, ref, col, i, cls);
            && m.ref == Auto(cls, st.next)
            && Does(sch, st, m.st, r, c, Work(1, Once(r == ref && c == col, Insert(i, m.ref)), r == m.ref))
  {
    NumbersAreNew(sch, st, cls);
    assert RowFits(sch, ref, st.rows[ref]);
    var e := Insert(i, Auto(cls, st.next));
    assert Run([e], st.rows[ref][col]) == Do(e, st.rows[ref][col]);
  }

  lemma PlaceLinkDoes(sch: Schema, st: Tables, ref: Ref, col: nat, o: Obj, r: Ref, c: nat)
    requires ValidSchema(sch) && WellFormed(sch, st) && Typed(sch, o)
    requires PlaceLink(sch, st, ref, col, o).ok
    ensures var m := PlaceLink(sch, st, ref, col, o);
            && m.ref == RefOf(sch, st.next, o)
            && Does(sch, st, m.st, r, c, Work(Own(sch, o), Once(r == ref && c == col, Put(CLink(Some(m.ref)))), r == m.ref))
  {
    if EmbeddedClass(sch, o.cls) {
      TypedHasKey(sch, o);
      AttachDoes(sch, st, ref, col, o.cls, r, c);
    } else {
      var m := Create(sch, st, o);
      CreateDoes(sch, st, o, r, c);
      assert RowsFit(sch, m.st) by { CreateKeeps(sch, st, o); }
      CreatedThenLinked(sch, st, m.st, ref, col, m.ref, Own(sch, o), r, c);
    }
  }

  lemma CreatedThenLinked(sch: Schema, st: Tables, st1: Tables, ref: Ref, col: nat, t: Ref, rows: nat, r: Ref, c: nat)
    requires RowsFit(sch, st1) && Live(st1, ref, col)
    requires Does(sch, st, st1, r, c, Work(rows, [], r == t))
    ensures Does(sch, st, SetCell(st1, ref, col, CLink(Some(t))).st, r, c, Work(rows, Once(r == ref && c == col, Put(CLink(Some(t)))), r == t))
  {
    var es := Once(r == ref && c == col, Put(CLink(Some(t))));
    SetCellDoes(sch, st1, ref, col, Put(CLink(Some(t))), r, c);
    DoesThen(sch, st, st1, SetCell(st1, ref, col, CLink(Some(t))).st, r, c, Work(rows, [], r == t), Work(0, es, false));
    assert [] + es == es;
  }

  lemma PlaceElemDoes(sch: Schema, st: Tables, ref: Ref, col: nat, i: nat, o: Obj, r: Ref, c: nat)
    requires ValidSchema(sch) && WellFormed(sch, st) && Typed(sch, o)
    requires PlaceElem(sch, st, ref, col, i, o).ok
    ensures var m := PlaceElem(sch, st, ref, col, i, o);
            && m.ref == RefOf(sch, st.next, o)
            && Does(sch, st, m.st, r, c,
                    Work(Own(sch, o), Once(r == ref && c == col && EmbeddedClass(sch, o.cls), Insert(i, m.ref)), r == m.ref))
  {
    TypedHasKey(sch, o);
    if EmbeddedClass(sch, o.cls) { InsertDoes(sch, st, ref, col, i, o.cls, r, c); } else { CreateDoes(sch, st, o, r, c); }
  }

  // ----- the recursion

  lemma {:induction false} ValDoes(sch: Schema, st: Tables, ref: Ref, col: nat, v: Val, r: Ref, c: nat)
    requires ValidSchema(sch) && WellFormed(sch, st) && Known(st, ref) && SuitsCol(sch, ref, col, v)
    requires WriteVal(sch, st, ref, col, v).ok
    ensures Does(sch, st, WriteVal(sch, st, ref, col, v).st, r, c, ValWork(sch, st.next, ref, col, v, r, c))
    decreases v
  {
    match v
    case Link(Some(o)) => LinkDoes(sch, st, ref, col, o, r, c);
    case Links(elems) => ElemsDo(sch, st, ref, col, elems, 0, r, c);
    case Link(None) => DoesNothing(sch, st, r, c);
    case Backlinks => DoesNothing(sch, st, r, c);
    case _ => PlainDoes(sch, st, ref, col, v, r, c);
  }

  lemma PlainDoes(sch: Schema, st: Tables, ref: Ref, col: nat, v: Val, r: Ref, c: nat)
    requires ValidSchema(sch) && WellFormed(sch, st) && Known(st, ref) && SuitsCol(sch, ref, col, v) && Plain(v)
    requires WriteVal(sch, st, ref, col, v).ok
    ensures Does(sch, st, WriteVal(sch, st, ref, col, v).st, r, c, Work(0, Once(r == ref && c == col, PlainStep(sch, ref, col, v)), false))
  {
    if Live(st, ref, col) {
      assert CellFits(sch[ref.cls].props[col], st.rows[ref][col]) by { assert RowFits(sch, ref, st.rows[ref]); }
      PlainIsSet(sch, st, ref, col, v);
      SetCellDoes(sch, st, ref, col, PlainStep(sch, ref, col, v), r, c);
    } else {
      DoesNothing(sch, st, r, c);
    }
  }

  lemma PlainIsSet(sch: Schema, st: Tables, ref: Ref, col: nat, v: Val)
    requires Live(st, ref, col) && SuitsCol(sch, ref, col, v) && Plain(v) && CellFits(sch[ref.cls].props[col], st.rows[ref][col])
    ensures WriteVal(sch, st, ref, col, v) == SetCell(st, ref, col, Do(PlainStep(sch, ref, col, v), st.rows[ref][col]))
  {
    if v == Items([]) && sch[ref.cls].props[col].write.Append? {
      assert st.rows[ref][col].items + [] == st.rows[ref][col].items;
      assert st.rows[ref][col := st.rows[ref][col]] == st.rows[ref];
      assert st.rows[ref := st.rows[ref]] == st.rows;
    }
  }

  lemma {:induction false} LinkDoes(sch: Schema, st: Tables, ref: Ref, col: nat, o: Obj, r: Ref, c: nat)
    requires ValidSchema(sch) && WellFormed(sch, st) && Known(st, ref) && SuitsCol(sch, ref, col, Link(Some(o)))
    requires WriteVal(sch, st, ref, col, Link(Some(o))).ok
    ensures Does(sch, st, WriteVal(sch, st, ref, col, Link(Some(o))).st, r, c, ValWork(sch, st.next, ref, col, Link(Some(o)), r, c))
    decreases o
  {
    var m := PlaceLink(sch, st, ref, col, o);
    PlaceLinkDoes(sch, st, ref, col, o, r, c);
    assert WellFormed(sch, m.st) && m.ref in m.st.rows && Suits(sch, m.ref, o.vals) by { PlaceLinkKeeps(sch, st, ref, col, o); }
    PropsDo(sch, m.st, m.ref, o.vals, 0, r, c);
    PlaceThenProps(sch, st, m.st, WriteProps(sch, m.st, m.ref, o.vals, 0).st, o, Once(r == ref && c == col, Put(CLink(Some(m.ref)))), r, c);
  }

  lemma PlaceThenProps(sch: Schema, st: Tables, st1: Tables, st2: Tables, o: Obj, placing: seq<Step>, r: Ref, c: nat)
    requires var t := RefOf(sch, st.next, o);
             && Does(sch, st, st1, r, c, Work(Own(sch, o), placing, r == t))
             && Does(sch, st1, st2, r, c, PropsWork(sch, st1.next, t, o.vals, 0, r, c))
    ensures Does(sch, st, st2, r, c, ObjWork(sch, st.next, o, placing, r, c))
  {
    var t := RefOf(sch, st.next, o);
    DoesThen(sch, st, st1, st2, r, c, Work(Own(sch, o), placing, r == t), PropsWork(sch, st1.next, t, o.vals, 0, r, c));
  }

  lemma {:induction false} PropsDo(sch: Schema, st: Tables, ref: Ref, vals: seq<Val>, i: nat, r: Ref, c: nat)
    requires ValidSchema(sch) && WellFormed(sch, st) && Known(st, ref) && Suits(sch, ref, vals) && i <= |vals|
    requires WriteProps(sch, st, ref, vals, i).ok
    ensures Does(sch, st, WriteProps(sch, st, ref, vals, i).st, r, c, PropsWork(sch, st.next, ref, vals, i, r, c))
    decreases vals, |vals| - i
  {
    if i == |vals| {
      DoesNothing(sch, st, r, c);
    } else {
      var w := WriteVal(sch, st, ref, i, vals[i]);
      ValDoes(sch, st, ref, i, vals[i], r, c);
      StillKnown(sch, st, ref, i, vals[i]);
      PropsDo(sch, w.st, ref, vals, i + 1, r, c);
      PropThenProps(sch, st, w.st, WriteProps(sch, w.st, ref, vals, i + 1).st, ref, vals, i, r, c);
    }
  }

  lemma StillKnown(sch: Schema, st: Tables, ref: Ref, col: nat, v: Val)
    requires ValidSchema(sch) && WellFormed(sch, st) && Known(st, ref) && SuitsCol(sch, ref, col, v)
    requires st.next <= WriteVal(sch, st, ref, col, v).st.next
    ensures var w := WriteVal(sch, st, ref, col, v); WellFormed(sch, w.st) && Known(w.st, ref)
  {
    WriteValKeeps(sch, st, ref, col, v);
    KnownKept(sch, st, WriteVal(sch, st, ref, col, v).st, ref);
  }

  lemma PropThenProps(sch: Schema, st: Tables, st1: Tables, st2: Tables, ref: Ref, vals: seq<Val>, i: nat, r: Ref, c: nat)
    requires i < |vals|
    requires Does(sch, st, st1, r, c, ValWork(sch, st.next, ref, i, vals[i], r, c))
    requires Does(sch, st1, st2, r, c, PropsWork(sch, st1.next, ref, vals, i + 1, r, c))
    ensures Does(sch, st, st2, r, c, PropsWork(sch, st.next, ref, vals, i, r, c))
  {
    DoesThen(sch, st, st1, st2, r, c, ValWork(sch, st.next, ref, i, vals[i], r, c), PropsWork(sch, st1.next, ref, vals, i + 1, r, c));
  }

  lemma {:induction false} ElemsDo(sch: Schema, st: Tables, ref: Ref, col: nat, elems: seq<Option<Obj>>, i: nat, r: Ref, c: nat)
    requires ValidSchema(sch) && WellFormed(sch, st) && Known(st, ref) && SuitsCol(sch, ref, col, Links(elems)) && i <= |elems|
    requires WriteElems(sch, st, ref, col, elems, i).ok
    ensures Does(sch, st, WriteElems(sch, st, ref, col, elems, i).st, r, c, ElemsWork(sch, st.next, ref, col, elems, i, r, c))
    decreases elems, |elems| - i
  {
    if i == |elems| {
      DoesNothing(sch, st, r, c);
    } else if elems[i].None? {
      DoesNothing(sch, st, r, c);
      ElemsDo(sch, st, ref, col, elems, i + 1, r, c);
      ElemThenElems(sch, st, st, WriteElems(sch, st, ref, col, elems, i).st, ref, col, elems, i, r, c);
    } else {
      assert TypedElem(sch, sch[ref.cls].props[col].target, elems[i]);
      var w := WriteElem(sch, st, ref, col, i, elems[i]);
      ElemDoes(sch, st, ref, col, i, elems[i], r, c);
      StillKnownElem(sch, st, ref, col, i, elems[i]);
      ElemsDo(sch, w.st, ref, col, elems, i + 1, r, c);
      ElemThenElems(sch, st, w.st, WriteElems(sch, w.st, ref, col, elems, i + 1).st, ref, col, elems, i, r, c);
    }
  }

  lemma StillKnownElem(sch: Schema, st: Tables, ref: Ref, col: nat, i: nat, e: Option<Obj>)
    requires ValidSchema(sch) && WellFormed(sch, st) && Known(st, ref) && e.Some? && Typed(sch, e.value)
    requires ref.cls in sch && col < |sch[ref.cls].props| && sch[ref.cls].props[col] == KLinks(e.value.cls)
    requires st.next <= WriteElem(sch, st, ref, col, i, e).st.next
    ensures var w := WriteElem(sch, st, ref, col, i, e); WellFormed(sch, w.st) && Known(w.st, ref)
  {
    WriteElemKeeps(sch, st, ref, col, i, e);
    KnownKept(sch, st, WriteElem(sch, st, ref, col, i, e).st, ref);
  }

  lemma ElemThenElems(sch: Schema, st: Tables, st1: Tables, st2: Tables, ref: Ref, col: nat, elems: seq<Option<Obj>>, i: nat, r: Ref, c: nat)
    requires i < |elems|
    requires Does(sch, st, st1, r, c, ElemWork(sch, st.next, ref, col, i, elems[i], r, c))
    requires Does(sch, st1, st2, r, c, ElemsWork(sch, st1.next, ref, col, elems, i + 1, r, c))
    ensures Does(sch, st, st2, r, c, ElemsWork(sch, st.next, ref, col, elems, i, r, c))
  {
    var a, b := ElemWork(sch, st.next, ref, col, i, elems[i], r, c), ElemsWork(sch, st1.next, ref, col, elems, i + 1, r, c);
    assert ElemsWork(sch, st.next, ref, col, elems, i, r, c) == Then(a, b) by {
      assert st1.next == st.next + a.rows;
    }
    DoesThen(sch, st, st1, st2, r, c, a, b);
  }

  lemma {:induction false} ElemDoes(sch: Schema, st: Tables, ref: Ref, col: nat, i: nat, e: Option<Obj>, r: Ref, c: nat)
    requires ValidSchema(sch) && WellFormed(sch, st) && Known(st, ref) && e.Some? && Typed(sch, e.value)
    requires ref.cls in sch && col < |sch[ref.cls].props| && sch[ref.cls].props[col] == KLinks(e.value.cls)
    requires WriteElem(sch, st, ref, col, i, e).ok
    ensures Does(sch, st, WriteElem(sch, st, ref, col, i, e).st, r, c, ElemWork(sch, st.next, ref, col, i, e, r, c))
    decreases e
  {
    var o := e.value;
    var m := PlaceElem(sch, st, ref, col, i, o);
    var w := WriteProps(sch, m.st, m.ref, o.vals, 0);
    PlaceElemDoes(sch, st, ref, col, i, o, r, c);
    assert WellFormed(sch, m.st) && m.ref in m.st.rows && Suits(sch, m.ref, o.vals) by { PlaceElemKeeps(sch, st, ref, col, i, o); }
    PropsDo(sch, m.st, m.ref, o.vals, 0, r, c);
    assert WellFormed(sch, w.st) by { WritePropsKeeps(sch, m.st, m.ref, o.vals, 0); }
    ElemListed(sch, w.st, ref, col, i, o, m.ref, r, c);
    ElemParts(sch, st, m.st, w.st, WriteElem(sch, st, ref, col, i, e).st, ref, col, i, o, r, c);
  }

  /** The row is put behind the list once its properties are written. */
  lemma ElemListed(sch: Schema, st: Tables, ref: Ref, col: nat, i: nat, o: Obj, t: Ref, r: Ref, c: nat)
    requires RowsFit(sch, st)
    ensures var w := if EmbeddedClass(sch, o.cls) then Out(st, true) else AppendLink(st, ref, col, t);
            w.ok ==> Does(sch, st, w.st, r, c, Work(0, Once(r == ref && c == col && !EmbeddedClass(sch, o.cls), Push(t)), false))
  {
    if EmbeddedClass(sch, o.cls) {
      DoesNothing(sch, st, r, c);
    } else if AppendLink(st, ref, col, t).ok {
      SetCellDoes(sch, st, ref, col, Push(t), r, c);
    }
  }

  lemma ElemParts(sch: Schema, st: Tables, st1: Tables, st2: Tables, st3: Tables, ref: Ref, col: nat, i: nat, o: Obj, r: Ref, c: nat)
    requires var t := RefOf(sch, st.next, o);
             var here := r == ref && c == col;
             && Does(sch, st, st1, r, c, Work(Own(sch, o), Once(here && EmbeddedClass(sch, o.cls), Insert(i, t)), r == t))
             && Does(sch, st1, st2, r, c, PropsWork(sch, st1.next, t, o.vals, 0, r, c))
             && Does(sch, st2, st3, r, c, Work(0, Once(here && !EmbeddedClass(sch, o.cls), Push(t)), false))
    ensures Does(sch, st, st3, r, c, ElemWork(sch, st.next, ref, col, i, Some(o), r, c))
  {
    var t := RefOf(sch, st.next, o);
    var here := r == ref && c == col;
    var placing := Once(here && EmbeddedClass(sch, o.cls), Insert(i, t));
    PlaceThenProps(sch, st, st1, st2, o, placing, r, c);
    DoesThen(sch, st, st2, st3, r, c, ObjWork(sch, st.next, o, placing, r, c), Work(0, Once(here && !EmbeddedClass(sch, o.cls), Push(t)), false));
  }

  /** `add` numbers one row for each object without a key; every cell of every row that is there
      afterwards is changed by exactly the listed writes, in order; of the rows that are not embedded
      those are there that were before or belong to an object of the graph. (Embedded rows are there
      exactly as long as a cell links to them: the tables stay well formed.) */
  lemma AddDoes(sch: Schema, st: Tables, o: Obj, r: Ref, c: nat)
    requires ValidSchema(sch) && WellFormed(sch, st) && Typed(sch, o) && Add(sch, st, o).ok
    ensures var m := Add(sch, st, o);
            m.ref == RefOf(sch, st.next, o) && Does(sch, st, m.st, r, c, ObjWork(sch, st.next, o, [], r, c))
  {
    var m := Create(sch, st, o);
    CreateDoes(sch, st, o, r, c);
    assert WellFormed(sch, m.st) && m.ref in m.st.rows && Suits(sch, m.ref, o.vals) by { CreateKeeps(sch, st, o); }
    PropsDo(sch, m.st, m.ref, o.vals, 0, r, c);
    PlaceThenProps(sch, st, m.st, Add(sch, st, o).st, o, [], r, c);
  }

  // ----- how many rows are numbered does not depend on the cell

  lemma {:induction false} ObjRows(sch: Schema, n: nat, o: Obj, placing: seq<Step>, placing': seq<Step>, r: Ref, c: nat, r': Ref, c': nat)
    ensures ObjWork(sch, n, o, placing, r, c).rows == ObjWork(sch, n, o, placing', r', c').rows
    decreases o
  {
    PropsRows(sch, n + Own(sch, o), RefOf(sch, n, o), o.vals, 0, r, c, r', c');
  }

  lemma {:induction false} ValRows(sch: Schema, n: nat, ref: Ref, col: nat, v: Val, r: Ref, c: nat, r': Ref, c': nat)
    ensures ValWork(sch, n, ref, col, v, r, c).rows == ValWork(sch, n, ref, col, v, r', c').rows
    decreases v
  {
    match v
    case Link(Some(o)) =>
      var e := Put(CLink(Some(RefOf(sch, n, o))));
      ObjRows(sch, n, o, Once(r == ref && c == col, e), Once(r' == ref && c' == col, e), r, c, r', c');
    case Links(elems) => ElemsRows(sch, n, ref, col, elems, 0, r, c, r', c');
    case _ =>
  }

  lemma {:induction false} PropsRows(sch: Schema, n: nat, ref: Ref, vals: seq<Val>, i: nat, r: Ref, c: nat, r': Ref, c': nat)
    requires i <= |vals|
    ensures PropsWork(sch, n, ref, vals, i, r, c).rows == PropsWork(sch, n, ref, vals, i, r', c').rows
    decreases vals, |vals| - i
  {
    if i < |vals| {
      var rows := ValWork(sch, n, ref, i, vals[i], r, c).rows;
      ValRows(sch, n, ref, i, vals[i], r, c, r', c');
      PropsRows(sch, n + rows, ref, vals, i + 1, r, c, r', c');
      PropsRowsAre(sch, n, rows, ref, vals, i, r, c);
      PropsRowsAre(sch, n, rows, ref, vals, i, r', c');
    }
  }

  lemma PropsRowsAre(sch: Schema, n: nat, rows: nat, ref: Ref, vals: seq<Val>, i: nat, r: Ref, c: nat)
    requires i < |vals| && ValWork(sch, n, ref, i, vals[i], r, c).rows == rows
    ensures PropsWork(sch, n, ref, vals, i, r, c).rows == rows + PropsWork(sch, n + rows, ref, vals, i + 1, r, c).rows
  {
  }

  lemma {:induction false} ElemsRows(sch: Schema, n: nat, ref: Ref, col: nat, elems: seq<Option<Obj>>, i: nat, r: Ref, c: nat, r': Ref, c': nat)
    requires i <= |elems|
    ensures ElemsWork(sch, n, ref, col, elems, i, r, c).rows == ElemsWork(sch, n, ref, col, elems, i, r', c').rows
    decreases elems, |elems| - i
  {
    if i < |elems| {
      var rows := ElemWork(sch, n, ref, col, i, elems[i], r, c).rows;
      ElemRows(sch, n, ref, col, i, elems[i], r, c, r', c');
      ElemsRows(sch, n + rows, ref, col, elems, i + 1, r, c, r', c');
      ElemsRowsAre(sch, n, rows, ref, col, elems, i, r, c);
      ElemsRowsAre(sch, n, rows, ref, col, elems, i, r', c');
    }
  }

  lemma ElemsRowsAre(sch: Schema, n: nat, rows: nat, ref: Ref, col: nat, elems: seq<Option<Obj>>, i: nat, r: Ref, c: nat)
    requires i < |elems| && ElemWork(sch, n, ref, col, i, elems[i], r, c).rows == rows
    ensures ElemsWork(sch, n, ref, col, elems, i, r, c).rows == rows + ElemsWork(sch, n + rows, ref, col, elems, i + 1, r, c).rows
  {
  }

  lemma {:induction false} ElemRows(sch: Schema, n: nat, ref: Ref, col: nat, i: nat, e: Option<Obj>, r: Ref, c: nat, r': Ref, c': nat)
    ensures ElemWork(sch, n, ref, col, i, e, r, c).rows == ElemWork(sch, n, ref, col, i, e, r', c').rows
    decreases e
  {
    if e.Some? {
      var embedded, t := EmbeddedClass(sch, e.value.cls), RefOf(sch, n, e.value);
      ObjRows(sch, n, e.value, Once(r == ref && c == col && embedded, Insert(i, t)), Once(r' == ref && c' == col && embedded, Insert(i, t)), r, c, r', c');
    }
  }
}
