/** When writing a graph succeeds: exactly. */
module Success {
  import opened Wrappers
  import opened Store
  import opened StoreInvariant
  import opened Graph
  import opened GraphInvariant
  import opened Cells
  import opened SteadyGraphs
  import opened RoundTrip
  import opened Sharing
  import opened Holds

  // ----- the condition, on the graph and the lengths of the lists of keyed rows

  type Lengths = (Ref, nat) -> nat

  /** What writing `v` to column `col` of `ref` adds to a list. */
  function Added(sch: Schema, ref: Ref, col: nat, v: Val, r: Ref, c: nat): nat {
    Total(sch, c, ValOccurrences(sch, r, v)) +
    if r == ref && c == col && ref.cls in sch && col < |sch[ref.cls].props| then Adds(sch[ref.cls].props[col], v) else 0
  }

  function AddedElem(sch: Schema, ref: Ref, col: nat, e: Option<Obj>, r: Ref, c: nat): nat {
    Total(sch, c, OptOccurrences(sch, r, e)) + Here(ref, col, r, c, if e.Some? then 1 else 0)
  }

  function Plus(a: nat, b: nat): nat {
    a + b
  }

  function After(sch: Schema, len: Lengths, ref: Ref, col: nat, v: Val): Lengths {
    (r: Ref, c: nat) => Plus(len(r, c), Added(sch, ref, col, v, r, c))
  }

  function OneMore(len: Lengths, ref: Ref, col: nat): Lengths {
    (r: Ref, c: nat) => Plus(len(r, c), Here(ref, col, r, c, 1))
  }

  function AfterElem(sch: Schema, len: Lengths, ref: Ref, col: nat, e: Option<Obj>): Lengths {
    (r: Ref, c: nat) => Plus(len(r, c), AddedElem(sch, ref, col, e, r, c))
  }

  /** An appended vector without items does not touch the row. */
  predicate Untouched(sch: Schema, ref: Ref, col: nat, items: seq<Prim>) {
    && items == [] && ref.cls in sch && col < |sch[ref.cls].props| && sch[ref.cls].props[col].KList?
    && sch[ref.cls].props[col].write.Append?
  }

  /** Writing `v` goes through; `live`: the row is there, hanging on `g` if it is embedded. */
  ghost predicate RunsVal(sch: Schema, len: Lengths, live: bool, ref: Ref, g: Hold, col: nat, v: Val)
    decreases v
  {
    match v
    case Link(None) => true
    case Backlinks => true
    case Link(Some(o)) => live && RunsObj(sch, len, if EmbeddedClass(sch, o.cls) then HoldFor(sch, ref, g, col) else None, o)
    case Links(elems) => live && RunsElems(sch, len, live, ref, g, col, elems, 0, 0)
    case Items(items) => live || Untouched(sch, ref, col, items)
    case _ => live
  }

  ghost predicate RunsObj(sch: Schema, len: Lengths, g: Hold, o: Obj)
    decreases o
  {
    RunsProps(sch, len, true, RefOf(sch, 0, o), g, o.vals, 0)
  }

  /** The row is gone once a property is written whose parts write again what it hangs on. */
  ghost predicate RunsProps(sch: Schema, len: Lengths, live: bool, ref: Ref, g: Hold, vals: seq<Val>, i: nat)
    requires i <= |vals|
    decreases vals, |vals| - i
  {
    i < |vals| ==>
      && RunsVal(sch, len, live, ref, g, i, vals[i])
      && RunsProps(sch, After(sch, len, ref, i, vals[i]), live && !Cuts(sch, g, vals[i]), ref, g, vals, i + 1)
  }

  /** `count`: the elements written so far. */
  ghost predicate RunsElems(sch: Schema, len: Lengths, live: bool, ref: Ref, g: Hold, col: nat, elems: seq<Option<Obj>>, i: nat, count: nat)
    requires i <= |elems|
    decreases elems, |elems| - i
  {
    i < |elems| ==>
      && RunsElem(sch, len, live, ref, g, col, elems[i], i <= if ref.Keyed? then len(ref, col) else count)
      && RunsElems(sch, AfterElem(sch, len, ref, col, elems[i]), live && !Cuts(sch, g, Link(elems[i])), ref, g, col, elems, i + 1,
                   count + if elems[i].Some? then 1 else 0)
  }

  /** An embedded element is inserted before its properties are written, and must not leave a gap
      (`fits`); any other is appended afterwards, to a row that must still be there. */
  ghost predicate RunsElem(sch: Schema, len: Lengths, live: bool, ref: Ref, g: Hold, col: nat, e: Option<Obj>, fits: bool)
    decreases e
  {
    e.Some? ==>
      if EmbeddedClass(sch, e.value.cls) then live && fits && RunsObj(sch, OneMore(len, ref, col), HoldFor(sch, ref, g, col), e.value)
      else RunsObj(sch, len, None, e.value) && live && !Cuts(sch, g, Link(e))
  }

  // ----- the tables

  ghost predicate LengthsAre(sch: Schema, st: Tables, len: Lengths) {
    forall r: Ref, c: nat :: r.Keyed? ==> Length(sch, st, r, c) == len(r, c)
  }

  /** What is known of the row before anything is written to it. */
  ghost predicate Before(sch: Schema, st: Tables, len: Lengths, ref: Ref, g: Hold) {
    && ValidSchema(sch) && WellFormed(sch, st) && Known(st, ref) && LengthsAre(sch, st, len)
    && (ref in st.rows ==> HoldOf(sch, st, ref) == g)
  }

  /** A row without a key, its number left out. */
  function Role(ref: Ref): Ref {
    if ref.Keyed? then ref else Auto(ref.cls, 0)
  }

  // ----- what was written, as seen by the rows it hangs on

  lemma ValWrote(sch: Schema, st: Tables, ref: Ref, col: nat, v: Val)
    requires ValidSchema(sch) && WellFormed(sch, st) && Known(st, ref) && SuitsCol(sch, ref, col, v) && WriteVal(sch, st, ref, col, v).ok
    ensures Wrote(sch, st, WriteVal(sch, st, ref, col, v).st, ref, v)
  {
    var st' := WriteVal(sch, st, ref, col, v).st;
    WriteValKeeps(sch, st, ref, col, v);
    forall r, c ensures WroteAt(sch, st, st', ref, v, r, c) {
      var w := ValWork(sch, st.next, ref, col, v, r, c);
      ValDoes(sch, st, ref, col, v, r, c);
      ValLinksNew(sch, st.next, st.next, ref, col, v, r, c);
      if r != ref {
        ValFacts(sch, st.next, st.next, ref, col, v, r, c);
        if r.Keyed? && ToOne(sch, r, c) { ValFills(sch, st.next, ref, col, v, r, c); }
      }
      assert WroteBy(sch, st, st', ref, v, r, c, w);
    }
  }

  /** Once the row is placed in `ref` and its properties are written. */
  lemma ObjWrites(sch: Schema, st: Tables, st': Tables, ref: Ref, o: Obj, placing: seq<Step>, r: Ref, c: nat)
    requires ValidSchema(sch) && Typed(sch, o) && LinksNew(sch, st.next, placing) && (r != ref ==> placing == [])
    requires Does(sch, st, st', r, c, ObjWork(sch, st.next, o, placing, r, c))
    ensures WroteAt(sch, st, st', ref, Link(Some(o)), r, c)
  {
    var w := ObjWork(sch, st.next, o, placing, r, c);
    ObjLinksNew(sch, st.next, st.next, o, placing, r, c);
    if r != ref {
      AddFacts(sch, st.next, o, r, c);
      if r.Keyed? && ToOne(sch, r, c) { ObjFills(sch, st.next, o, [], r, c); }
    }
    assert WroteBy(sch, st, st', ref, Link(Some(o)), r, c, w);
  }

  /** One write to column `col` of `ref`. */
  function OwnWork(ref: Ref, col: nat, e: Step, rows: nat, made: Option<Ref>, r: Ref, c: nat): Work {
    Work(rows, Once(r == ref && c == col, e), made == Some(r))
  }

  lemma OwnWrote(sch: Schema, st: Tables, st': Tables, ref: Ref, col: nat, e: Step, rows: nat, made: Option<Ref>)
    requires ValidSchema(sch) && WellFormed(sch, st) && Keeps(sch, st, st') && LinksNew(sch, st.next, [e])
    requires forall r, c :: Does(sch, st, st', r, c, OwnWork(ref, col, e, rows, made, r, c))
    ensures Wrote(sch, st, st', ref, Backlinks)
  {
    forall r, c ensures WroteAt(sch, st, st', ref, Backlinks, r, c) {
      assert WroteBy(sch, st, st', ref, Backlinks, r, c, OwnWork(ref, col, e, rows, made, r, c));
    }
  }

  /** The row that was written to is there exactly if nothing cut it off. */
  lemma RowStays(sch: Schema, st: Tables, st': Tables, ref: Ref, v: Val, g: Hold)
    requires Wrote(sch, st, st', ref, v) && (ref in st.rows || Known(st, ref)) && st.next <= st'.next
    requires ref in st.rows ==> HoldOf(sch, st, ref) == g
    ensures Known(st', ref) && (ref in st'.rows <==> ref in st.rows && !Cuts(sch, g, v))
    ensures ref in st'.rows ==> HoldOf(sch, st', ref) == g
  {
    KnownKept(sch, st, st', ref);
    if ref !in st.rows {
      assert WroteAt(sch, st, st', ref, v, ref, 0);
      var w :| WroteBy(sch, st, st', ref, v, ref, 0, w);
    } else if ref.Auto? {
      Stays(sch, st, st', ref, v, ref);
    } else {
      assert RowFits(sch, ref, st.rows[ref]) && ValidClass(sch, sch[ref.cls]);
    }
  }

  // ----- the operations on the tables

  /** A row to write an object to, that was made or found. */
  ghost predicate Target(sch: Schema, len: Lengths, m: Made, g: Hold, o: Obj) {
    && Before(sch, m.st, len, m.ref, g) && m.ref in m.st.rows && Role(m.ref) == RefOf(sch, 0, o) && Suits(sch, m.ref, o.vals)
    && (m.ref.Auto? ==> Blank(m.st, m.ref, o.vals, 0))
  }

  /** The lists of links still to be written are empty. */
  ghost predicate Blank(st: Tables, ref: Ref, vals: seq<Val>, i: nat) {
    ref in st.rows ==> forall j :: i <= j < |vals| && j < |st.rows[ref]| && vals[j].Links? ==> st.rows[ref][j] == CLinks([])
  }

  lemma NewIsBlank(sch: Schema, st: Tables, ref: Ref, o: Obj)
    requires Typed(sch, o) && ref in st.rows && st.rows[ref] == DefaultRow(sch[o.cls])
    ensures Blank(st, ref, o.vals, 0)
  {
    forall j | 0 <= j < |o.vals| && j < |st.rows[ref]| && o.vals[j].Links? ensures st.rows[ref][j] == CLinks([]) {
      assert TypedVal(sch, sch[o.cls].props[j], o.vals[j]);
    }
  }

  lemma CreateRuns(sch: Schema, st: Tables, len: Lengths, o: Obj)
    requires ValidSchema(sch) && WellFormed(sch, st) && Typed(sch, o) && LengthsAre(sch, st, len) && !EmbeddedClass(sch, o.cls)
    ensures Create(sch, st, o).ok && Target(sch, len, Create(sch, st, o), None, o)
  {
    var m := Create(sch, st, o);
    TypedHasKey(sch, o);
    assert ValidClass(sch, sch[o.cls]);
    CreateKeeps(sch, st, o);
    NumbersAreNew(sch, st, o.cls);
    forall r: Ref, c: nat | r.Keyed? ensures Length(sch, m.st, r, c) == len(r, c) { CreateLength(sch, st, o, r, c); }
    if m.ref.Auto? { NewIsBlank(sch, m.st, m.ref, o); }
  }

  lemma PlaceLinkRuns(sch: Schema, st: Tables, len: Lengths, ref: Ref, g: Hold, col: nat, o: Obj, m: Made)
    requires Before(sch, st, len, ref, g) && SuitsCol(sch, ref, col, Link(Some(o))) && m == PlaceLink(sch, st, ref, col, o)
    ensures m.ok <==> ref in st.rows
    ensures m.ok ==> Target(sch, len, m, if EmbeddedClass(sch, o.cls) then HoldFor(sch, ref, g, col) else None, o)
  {
    if ref in st.rows { assert RowFits(sch, ref, st.rows[ref]); }
    if EmbeddedClass(sch, o.cls) {
      if ref in st.rows { EmbeddedTarget(sch, st, len, ref, g, col, o, m); }
    } else {
      PlainTarget(sch, st, len, ref, col, o, m);
    }
  }

  lemma LinkLengthsAre(sch: Schema, st: Tables, len: Lengths, ref: Ref, col: nat, o: Obj, m: Made)
    requires ValidSchema(sch) && WellFormed(sch, st) && LengthsAre(sch, st, len) && SuitsCol(sch, ref, col, Link(Some(o)))
    requires m == PlaceLink(sch, st, ref, col, o)
    ensures LengthsAre(sch, m.st, len)
  {
    forall r: Ref, c: nat | r.Keyed? ensures Length(sch, m.st, r, c) == len(r, c) {
      PlaceLinkLength(sch, st, ref, col, o, r, c);
    }
  }

  lemma EmbeddedTarget(sch: Schema, st: Tables, len: Lengths, ref: Ref, g: Hold, col: nat, o: Obj, m: Made)
    requires Before(sch, st, len, ref, g) && Live(st, ref, col) && SuitsCol(sch, ref, col, Link(Some(o))) && EmbeddedClass(sch, o.cls)
    requires m == PlaceLink(sch, st, ref, col, o)
    ensures m.ok && Target(sch, len, m, HoldFor(sch, ref, g, col), o)
  {
    TypedHasKey(sch, o);
    LinkLengthsAre(sch, st, len, ref, col, o, m);
    AttachTarget(sch, st, ref, g, col, o, m);
  }

  lemma PlainTarget(sch: Schema, st: Tables, len: Lengths, ref: Ref, col: nat, o: Obj, m: Made)
    requires ValidSchema(sch) && WellFormed(sch, st) && Known(st, ref) && LengthsAre(sch, st, len)
    requires (ref in st.rows ==> Live(st, ref, col)) && SuitsCol(sch, ref, col, Link(Some(o))) && !EmbeddedClass(sch, o.cls)
    requires m == PlaceLink(sch, st, ref, col, o)
    ensures m.ok <==> ref in st.rows
    ensures m.ok ==> Target(sch, len, m, None, o)
  {
    CreateRuns(sch, st, len, o);
    if ref in st.rows {
      LinkedTarget(sch, st, ref, col, o);
      LinkLengthsAre(sch, st, len, ref, col, o, m);
      PlaceLinkKeeps(sch, st, ref, col, o);
    }
  }

  lemma AttachTarget(sch: Schema, st: Tables, ref: Ref, g: Hold, col: nat, o: Obj, m: Made)
    requires ValidSchema(sch) && WellFormed(sch, st) && Live(st, ref, col) && HoldOf(sch, st, ref) == g && SuitsCol(sch, ref, col, Link(Some(o)))
    requires Typed(sch, o) && EmbeddedClass(sch, o.cls) && m == AttachEmbedded(sch, st, ref, col, o.cls)
    ensures WellFormed(sch, m.st) && HoldOf(sch, m.st, m.ref) == HoldFor(sch, ref, g, col) && Blank(m.st, m.ref, o.vals, 0)
  {
    assert Wrote(sch, st, m.st, ref, Backlinks) by { AttachWrote(sch, st, ref, col, o, m); }
    AttachedRow(sch, st, ref, col, o, m);
    NewTarget(sch, st, m.st, ref, g, Slot(ref, col, 0), m.ref, o);
  }

  lemma NewTarget(sch: Schema, st: Tables, st': Tables, ref: Ref, g: Hold, s: Slot, t: Ref, o: Obj)
    requires Wrote(sch, st, st', ref, Backlinks) && ref in st.rows && st.next <= st'.next && HoldOf(sch, st, ref) == g
    requires s.owner == ref && Owns(sch, st'.rows, s, t) && Typed(sch, o) && t in st'.rows && st'.rows[t] == DefaultRow(sch[o.cls])
    ensures WellFormed(sch, st') && HoldOf(sch, st', t) == HoldFor(sch, ref, g, s.col) && Blank(st', t, o.vals, 0)
  {
    PlacedHold(sch, st, st', ref, g, s, t);
    NewIsBlank(sch, st', t, o);
  }

  lemma AttachedRow(sch: Schema, st: Tables, ref: Ref, col: nat, o: Obj, m: Made)
    requires RowsFit(sch, st) && Live(st, ref, col) && EmbeddedClass(sch, o.cls) && m == AttachEmbedded(sch, st, ref, col, o.cls)
    ensures m.ref in m.st.rows && m.st.rows[m.ref] == DefaultRow(sch[o.cls]) && st.next <= m.st.next
    ensures Owns(sch, m.st.rows, Slot(ref, col, 0), m.ref)
  {
    NumbersAreNew(sch, st, o.cls);
  }

  /** A row placed in `ref` hangs on what `ref` gives it. */
  lemma PlacedHold(sch: Schema, st: Tables, st': Tables, ref: Ref, g: Hold, s: Slot, t: Ref)
    requires Wrote(sch, st, st', ref, Backlinks) && ref in st.rows && st.next <= st'.next && HoldOf(sch, st, ref) == g
    requires s.owner == ref && Owns(sch, st'.rows, s, t)
    ensures HoldOf(sch, st', t) == HoldFor(sch, ref, g, s.col)
  {
    RowStays(sch, st, st', ref, Backlinks, g);
    HoldOfOwned(sch, st', s, t);
  }

  lemma AttachWrote(sch: Schema, st: Tables, ref: Ref, col: nat, o: Obj, m: Made)
    requires ValidSchema(sch) && WellFormed(sch, st) && Live(st, ref, col) && SuitsCol(sch, ref, col, Link(Some(o)))
    requires EmbeddedClass(sch, o.cls) && m == AttachEmbedded(sch, st, ref, col, o.cls)
    ensures Wrote(sch, st, m.st, ref, Backlinks)
  {
    PlaceEmbeddedKeeps(sch, st, ref, col, o);
    var e := Put(CLink(Some(m.ref)));
    forall r, c ensures Does(sch, st, m.st, r, c, OwnWork(ref, col, e, 1, Some(m.ref), r, c)) { AttachDoes(sch, st, ref, col, o.cls, r, c); }
    OwnWrote(sch, st, m.st, ref, col, e, 1, Some(m.ref));
  }

  lemma LinkedTarget(sch: Schema, st: Tables, ref: Ref, col: nat, o: Obj)
    requires ValidSchema(sch) && WellFormed(sch, st) && Live(st, ref, col) && SuitsCol(sch, ref, col, Link(Some(o)))
    requires !EmbeddedClass(sch, o.cls) && Create(sch, st, o).ok
    ensures var c := Create(sch, st, o);
            var m := PlaceLink(sch, st, ref, col, o);
            m.ok && m.ref == c.ref && (m.ref.Auto? && Blank(c.st, m.ref, o.vals, 0) ==> Blank(m.st, m.ref, o.vals, 0))
  {
    NumbersAreNew(sch, st, o.cls);
  }

  lemma PlaceElemRuns(sch: Schema, st: Tables, len: Lengths, ref: Ref, g: Hold, col: nat, i: nat, o: Obj, m: Made)
    requires Before(sch, st, len, ref, g) && Typed(sch, o) && m == PlaceElem(sch, st, ref, col, i, o)
    requires ref.cls in sch && col < |sch[ref.cls].props| && sch[ref.cls].props[col] == KLinks(o.cls)
    ensures m.ok <==> !EmbeddedClass(sch, o.cls) || (ref in st.rows && i <= Entries(st, ref, col))
    ensures m.ok ==> if EmbeddedClass(sch, o.cls) then Target(sch, OneMore(len, Role(ref), col), m, HoldFor(sch, ref, g, col), o)
                     else Target(sch, len, m, None, o)
  {
    if ref in st.rows { assert RowFits(sch, ref, st.rows[ref]); }
    if !EmbeddedClass(sch, o.cls) {
      CreateRuns(sch, st, len, o);
    } else if m.ok {
      InsertTarget(sch, st, len, ref, g, col, i, o, m);
    }
  }

  /** The entries of a stored list of links. */
  function Entries(st: Tables, ref: Ref, col: nat): nat {
    if Live(st, ref, col) && st.rows[ref][col].CLinks? then |st.rows[ref][col].links| else 0
  }

  lemma InsertTarget(sch: Schema, st: Tables, len: Lengths, ref: Ref, g: Hold, col: nat, i: nat, o: Obj, m: Made)
    requires Before(sch, st, len, ref, g) && Typed(sch, o) && EmbeddedClass(sch, o.cls)
    requires ref.cls in sch && col < |sch[ref.cls].props| && sch[ref.cls].props[col] == KLinks(o.cls)
    requires m == InsertEmbedded(sch, st, ref, col, i, o.cls) && m.ok
    ensures Target(sch, OneMore(len, Role(ref), col), m, HoldFor(sch, ref, g, col), o)
  {
    TypedHasKey(sch, o);
    assert Wrote(sch, st, m.st, ref, Backlinks) by { InsertWrote(sch, st, ref, col, i, o, m); }
    assert m.ref != ref by { NumbersAreNew(sch, st, o.cls); }
    NewTarget(sch, st, m.st, ref, g, Slot(ref, col, i), m.ref, o);
    InsertLengths(sch, st, len, ref, col, i, o, m);
  }

  lemma InsertLengths(sch: Schema, st: Tables, len: Lengths, ref: Ref, col: nat, i: nat, o: Obj, m: Made)
    requires ValidSchema(sch) && LengthsAre(sch, st, len) && EmbeddedClass(sch, o.cls)
    requires ref.cls in sch && col < |sch[ref.cls].props| && sch[ref.cls].props[col].KLinks?
    requires m == InsertEmbedded(sch, st, ref, col, i, o.cls) && m.ok
    ensures LengthsAre(sch, m.st, OneMore(len, Role(ref), col))
  {
    forall r: Ref, c: nat | r.Keyed? ensures Length(sch, m.st, r, c) == OneMore(len, Role(ref), col)(r, c) {
      PlaceElemLength(sch, st, ref, col, i, o, r, c);
    }
  }

  lemma InsertWrote(sch: Schema, st: Tables, ref: Ref, col: nat, i: nat, o: Obj, m: Made)
    requires ValidSchema(sch) && WellFormed(sch, st) && Typed(sch, o) && EmbeddedClass(sch, o.cls)
    requires ref.cls in sch && col < |sch[ref.cls].props| && sch[ref.cls].props[col] == KLinks(o.cls)
    requires m == InsertEmbedded(sch, st, ref, col, i, o.cls) && m.ok
    ensures Wrote(sch, st, m.st, ref, Backlinks)
  {
    PlaceElemKeeps(sch, st, ref, col, i, o);
    var e := Insert(i, m.ref);
    forall r, c ensures Does(sch, st, m.st, r, c, OwnWork(ref, col, e, 1, Some(m.ref), r, c)) { InsertDoes(sch, st, ref, col, i, o.cls, r, c); }
    OwnWrote(sch, st, m.st, ref, col, e, 1, Some(m.ref));
  }

  // ----- what is known after a property, and after an element

  lemma ValAfter(sch: Schema, st: Tables, len: Lengths, ref: Ref, g: Hold, col: nat, v: Val, w: Out)
    requires Before(sch, st, len, ref, g) && SuitsCol(sch, ref, col, v) && w == WriteVal(sch, st, ref, col, v) && w.ok
    ensures Before(sch, w.st, After(sch, len, Role(ref), col, v), ref, g)
    ensures ref in w.st.rows <==> ref in st.rows && !Cuts(sch, g, v)
  {
    ValWrote(sch, st, ref, col, v);
    assert st.next <= w.st.next by { ValDoes(sch, st, ref, col, v, ref, col); }
    RowStays(sch, st, w.st, ref, v, g);
    LengthsAfter(sch, st, len, ref, g, col, v, w);
  }

  lemma LengthsAfter(sch: Schema, st: Tables, len: Lengths, ref: Ref, g: Hold, col: nat, v: Val, w: Out)
    requires Before(sch, st, len, ref, g) && SuitsCol(sch, ref, col, v) && w == WriteVal(sch, st, ref, col, v) && w.ok
    ensures LengthsAre(sch, w.st, After(sch, len, Role(ref), col, v))
  {
    forall r: Ref, c: nat | r.Keyed? ensures Length(sch, w.st, r, c) == After(sch, len, Role(ref), col, v)(r, c) {
      ValLength(sch, st, ref, col, v, r, c);
    }
  }

  /** Before the element is appended. */
  lemma PartsAfter(sch: Schema, st: Tables, ref: Ref, g: Hold, o: Obj, m: Made, col: nat, i: nat, st1: Tables)
    requires ValidSchema(sch) && WellFormed(sch, st) && Known(st, ref) && (ref in st.rows ==> HoldOf(sch, st, ref) == g) && Typed(sch, o)
    requires ref.cls in sch && col < |sch[ref.cls].props| && sch[ref.cls].props[col] == KLinks(o.cls)
    requires m == PlaceElem(sch, st, ref, col, i, o) && m.ok && m.ref in m.st.rows && Suits(sch, m.ref, o.vals)
    requires WriteProps(sch, m.st, m.ref, o.vals, 0).ok && st1 == WriteProps(sch, m.st, m.ref, o.vals, 0).st
    ensures WellFormed(sch, st1) && Known(st1, ref) && (ref in st1.rows <==> ref in st.rows && !Cuts(sch, g, Link(Some(o))))
    ensures ref in st1.rows ==> HoldOf(sch, st1, ref) == g
  {
    PartsWrote(sch, st, ref, o, m, col, i, st1);
    assert st.next <= st1.next by { PartsDo(sch, st, ref, o, m, col, i, st1, ref, col); }
    RowStays(sch, st, st1, ref, Link(Some(o)), g);
  }

  function ElemPlacing(sch: Schema, ref: Ref, col: nat, i: nat, o: Obj, t: Ref, r: Ref, c: nat): seq<Step> {
    Once(r == ref && c == col && EmbeddedClass(sch, o.cls), Insert(i, t))
  }

  lemma PartsDo(sch: Schema, st: Tables, ref: Ref, o: Obj, m: Made, col: nat, i: nat, st1: Tables, r: Ref, c: nat)
    requires ValidSchema(sch) && WellFormed(sch, st) && Typed(sch, o)
    requires ref.cls in sch && col < |sch[ref.cls].props| && sch[ref.cls].props[col] == KLinks(o.cls)
    requires m == PlaceElem(sch, st, ref, col, i, o) && m.ok && m.ref in m.st.rows && Suits(sch, m.ref, o.vals)
    requires WriteProps(sch, m.st, m.ref, o.vals, 0).ok && st1 == WriteProps(sch, m.st, m.ref, o.vals, 0).st
    ensures m.ref == RefOf(sch, st.next, o)
    ensures Does(sch, st, st1, r, c, ObjWork(sch, st.next, o, ElemPlacing(sch, ref, col, i, o, m.ref, r, c), r, c))
  {
    PlaceElemDoes(sch, st, ref, col, i, o, r, c);
    assert WellFormed(sch, m.st) by { PlaceElemKeeps(sch, st, ref, col, i, o); }
    PropsDo(sch, m.st, m.ref, o.vals, 0, r, c);
    PlaceThenProps(sch, st, m.st, st1, o, ElemPlacing(sch, ref, col, i, o, m.ref, r, c), r, c);
  }

  lemma PartsWrote(sch: Schema, st: Tables, ref: Ref, o: Obj, m: Made, col: nat, i: nat, st1: Tables)
    requires ValidSchema(sch) && WellFormed(sch, st) && Typed(sch, o)
    requires ref.cls in sch && col < |sch[ref.cls].props| && sch[ref.cls].props[col] == KLinks(o.cls)
    requires m == PlaceElem(sch, st, ref, col, i, o) && m.ok && m.ref in m.st.rows && Suits(sch, m.ref, o.vals)
    requires WriteProps(sch, m.st, m.ref, o.vals, 0).ok && st1 == WriteProps(sch, m.st, m.ref, o.vals, 0).st
    ensures Wrote(sch, st, st1, ref, Link(Some(o)))
  {
    assert Keeps(sch, st, st1) by {
      PlaceElemKeeps(sch, st, ref, col, i, o);
      WritePropsKeeps(sch, m.st, m.ref, o.vals, 0);
    }
    forall r, c ensures WroteAt(sch, st, st1, ref, Link(Some(o)), r, c) {
      PartsDo(sch, st, ref, o, m, col, i, st1, r, c);
      ObjWrites(sch, st, st1, ref, o, ElemPlacing(sch, ref, col, i, o, m.ref, r, c), r, c);
    }
  }

  lemma AppendAfter(sch: Schema, st: Tables, ref: Ref, g: Hold, col: nat, t: Ref, w: Out)
    requires ValidSchema(sch) && WellFormed(sch, st) && Known(st, ref) && (ref in st.rows ==> HoldOf(sch, st, ref) == g)
    requires ref.cls in sch && col < |sch[ref.cls].props| && sch[ref.cls].props[col] == KLinks(t.cls)
    requires t in st.rows && !IsEmbedded(sch, t) && w == AppendLink(st, ref, col, t)
    ensures w.ok <==> ref in st.rows
    ensures w.ok ==> WellFormed(sch, w.st) && Known(w.st, ref) && ref in w.st.rows && HoldOf(sch, w.st, ref) == g
  {
    if ref in st.rows {
      assert RowFits(sch, ref, st.rows[ref]);
      AppendLinkKeeps(sch, st, ref, col, t);
      AppendWrote(sch, st, ref, col, t, w);
      RowStays(sch, st, w.st, ref, Backlinks, g);
    }
  }

  lemma AppendWrote(sch: Schema, st: Tables, ref: Ref, col: nat, t: Ref, w: Out)
    requires ValidSchema(sch) && WellFormed(sch, st) && w == AppendLink(st, ref, col, t) && w.ok && Keeps(sch, st, w.st)
    requires t in st.rows && !IsEmbedded(sch, t)
    ensures Wrote(sch, st, w.st, ref, Backlinks)
  {
    forall r, c ensures Does(sch, st, w.st, r, c, OwnWork(ref, col, Push(t), 0, None, r, c)) { SetCellDoes(sch, st, ref, col, Push(t), r, c); }
    OwnWrote(sch, st, w.st, ref, col, Push(t), 0, None);
  }

  lemma ElemAfter(sch: Schema, st: Tables, len: Lengths, ref: Ref, g: Hold, col: nat, i: nat, o: Obj, w: Out)
    requires Before(sch, st, len, ref, g) && Typed(sch, o) && w == WriteElem(sch, st, ref, col, i, Some(o)) && w.ok
    requires ref.cls in sch && col < |sch[ref.cls].props| && sch[ref.cls].props[col] == KLinks(o.cls)
    ensures Before(sch, w.st, AfterElem(sch, len, Role(ref), col, Some(o)), ref, g)
    ensures ref in w.st.rows <==> ref in st.rows && !Cuts(sch, g, Link(Some(o)))
    ensures ref.Auto? && ref in w.st.rows ==> Entries(w.st, ref, col) == Entries(st, ref, col) + 1
  {
    ElemRowAfter(sch, st, ref, g, col, i, o, w);
    ElemLengthsAfter(sch, st, len, ref, col, i, o, w);
  }

  lemma ElemLengthsAfter(sch: Schema, st: Tables, len: Lengths, ref: Ref, col: nat, i: nat, o: Obj, w: Out)
    requires ValidSchema(sch) && WellFormed(sch, st) && LengthsAre(sch, st, len) && Typed(sch, o)
    requires ref.cls in sch && col < |sch[ref.cls].props| && sch[ref.cls].props[col] == KLinks(o.cls)
    requires w == WriteElem(sch, st, ref, col, i, Some(o)) && w.ok
    ensures LengthsAre(sch, w.st, AfterElem(sch, len, Role(ref), col, Some(o)))
  {
    forall r: Ref, c: nat | r.Keyed? ensures Length(sch, w.st, r, c) == AfterElem(sch, len, Role(ref), col, Some(o))(r, c) {
      ElemLength(sch, st, ref, col, i, Some(o), r, c);
    }
  }

  lemma ElemRowAfter(sch: Schema, st: Tables, ref: Ref, g: Hold, col: nat, i: nat, o: Obj, w: Out)
    requires ValidSchema(sch) && WellFormed(sch, st) && Known(st, ref) && (ref in st.rows ==> HoldOf(sch, st, ref) == g) && Typed(sch, o)
    requires ref.cls in sch && col < |sch[ref.cls].props| && sch[ref.cls].props[col] == KLinks(o.cls)
    requires w == WriteElem(sch, st, ref, col, i, Some(o)) && w.ok
    ensures WellFormed(sch, w.st) && Known(w.st, ref) && (ref in w.st.rows ==> HoldOf(sch, w.st, ref) == g)
    ensures ref in w.st.rows <==> ref in st.rows && !Cuts(sch, g, Link(Some(o)))
    ensures ref.Auto? && ref in w.st.rows ==> Entries(w.st, ref, col) == Entries(st, ref, col) + 1
  {
    var m := PlaceElem(sch, st, ref, col, i, o);
    var x := WriteProps(sch, m.st, m.ref, o.vals, 0);
    assert GoodTarget(sch, st, m, o) && m.ref.cls == o.cls && (!EmbeddedClass(sch, o.cls) ==> !IsEmbedded(sch, m.ref)) by {
      PlaceElemKeeps(sch, st, ref, col, i, o);
    }
    PartsAfter(sch, st, ref, g, o, m, col, i, x.st);
    if !EmbeddedClass(sch, o.cls) {
      assert m.ref in x.st.rows by { WritePropsKeeps(sch, m.st, m.ref, o.vals, 0); }
      AppendAfter(sch, x.st, ref, g, col, m.ref, w);
    }
    if ref.Auto? && ref in w.st.rows { OneEntryMore(sch, st, ref, col, i, o, m, x, w); }
  }

  /** A row without a key is not written by the parts of its elements. */
  lemma OnlyPlaced(sch: Schema, n: nat, o: Obj, t: Ref, placing: seq<Step>, r: Ref, c: nat)
    requires ObjWork(sch, n, o, [], r, c).steps == [] && t == RefOf(sch, n, o)
    ensures ObjWork(sch, n, o, placing, r, c).steps == placing
  {
    assert [] + PropsWork(sch, n + Own(sch, o), t, o.vals, 0, r, c).steps == [];
  }

  lemma OneEntryMore(sch: Schema, st: Tables, ref: Ref, col: nat, i: nat, o: Obj, m: Made, x: Out, w: Out)
    requires ValidSchema(sch) && WellFormed(sch, st) && ref in st.rows && ref.Auto? && Typed(sch, o)
    requires ref.cls in sch && col < |sch[ref.cls].props| && sch[ref.cls].props[col] == KLinks(o.cls)
    requires m == PlaceElem(sch, st, ref, col, i, o) && m.ok && m.ref in m.st.rows && Suits(sch, m.ref, o.vals)
    requires x == WriteProps(sch, m.st, m.ref, o.vals, 0) && x.ok && ref in x.st.rows
    requires w == if EmbeddedClass(sch, o.cls) then x else AppendLink(x.st, ref, col, m.ref)
    requires w.ok
    ensures Entries(w.st, ref, col) == Entries(st, ref, col) + 1
  {
    var placing := ElemPlacing(sch, ref, col, i, o, m.ref, ref, col);
    PartsDo(sch, st, ref, o, m, col, i, x.st, ref, col);
    assert RowFits(sch, ref, st.rows[ref]);
    assert ObjWork(sch, st.next, o, placing, ref, col).steps == placing by {
      AddFacts(sch, st.next, o, ref, col);
      OnlyPlaced(sch, st.next, o, m.ref, placing, ref, col);
    }
    var c0 := st.rows[ref][col];
    assert Run([Insert(i, m.ref)], c0) == Do(Insert(i, m.ref), c0);
  }

  lemma KeyedEntries(sch: Schema, st: Tables, len: Lengths, ref: Ref, col: nat)
    requires RowsFit(sch, st) && LengthsAre(sch, st, len) && ref in st.rows && ref.Keyed?
    requires ref.cls in sch && col < |sch[ref.cls].props| && sch[ref.cls].props[col].KLinks?
    ensures Entries(st, ref, col) == len(ref, col)
  {
    assert RowFits(sch, ref, st.rows[ref]);
    assert Length(sch, st, ref, col) == len(ref, col);
  }

  lemma BlankAfter(sch: Schema, st: Tables, ref: Ref, vals: seq<Val>, i: nat)
    requires ValidSchema(sch) && WellFormed(sch, st) && Known(st, ref) && Suits(sch, ref, vals) && i < |vals| && ref.Auto?
    requires Blank(st, ref, vals, i) && WriteVal(sch, st, ref, i, vals[i]).ok
    ensures Blank(WriteVal(sch, st, ref, i, vals[i]).st, ref, vals, i + 1)
  {
    var w := WriteVal(sch, st, ref, i, vals[i]);
    if ref in w.st.rows {
      forall j | i < j < |vals| && j < |w.st.rows[ref]| && vals[j].Links? ensures w.st.rows[ref][j] == CLinks([]) {
        ValDoes(sch, st, ref, i, vals[i], ref, j);
        ValFacts(sch, st.next, st.next, ref, i, vals[i], ref, j);
        assert RowFits(sch, ref, st.rows[ref]);
      }
    }
  }

  // ----- the recursion

  lemma {:induction false} ValRuns(sch: Schema, st: Tables, len: Lengths, ref: Ref, g: Hold, col: nat, v: Val, w: Out)
    requires Before(sch, st, len, ref, g) && SuitsCol(sch, ref, col, v) && w == WriteVal(sch, st, ref, col, v)
    requires ref.Auto? && Live(st, ref, col) && v.Links? ==> st.rows[ref][col] == CLinks([])
    ensures w.ok <==> RunsVal(sch, len, ref in st.rows, Role(ref), g, col, v)
    decreases v
  {
    assert Live(st, ref, col) <==> ref in st.rows by { if ref in st.rows { assert RowFits(sch, ref, st.rows[ref]); } }
    match v
    case Link(Some(o)) => LinkRuns(sch, st, len, ref, g, col, o, w);
    case Links(elems) =>
      if ref in st.rows {
        ElemsRuns(sch, st, len, ref, g, col, elems, 0, 0, w);
      }
    case Link(None) =>
    case Backlinks =>
    case _ => PlainRuns(sch, st, ref, col, v, w);
  }

  lemma PlainRuns(sch: Schema, st: Tables, ref: Ref, col: nat, v: Val, w: Out)
    requires WellFormed(sch, st) && SuitsCol(sch, ref, col, v) && Plain(v) && w == WriteVal(sch, st, ref, col, v)
    ensures w.ok <==> Live(st, ref, col) || (v.Items? && Untouched(sch, ref, col, v.items))
  {
    if Live(st, ref, col) {
      assert CellFits(sch[ref.cls].props[col], st.rows[ref][col]) by { assert RowFits(sch, ref, st.rows[ref]); }
      PlainIsSet(sch, st, ref, col, v);
    }
  }

  lemma {:induction false} LinkRuns(sch: Schema, st: Tables, len: Lengths, ref: Ref, g: Hold, col: nat, o: Obj, w: Out)
    requires Before(sch, st, len, ref, g) && SuitsCol(sch, ref, col, Link(Some(o))) && w == WriteVal(sch, st, ref, col, Link(Some(o)))
    ensures w.ok <==> RunsVal(sch, len, ref in st.rows, Role(ref), g, col, Link(Some(o)))
    decreases o
  {
    var m := PlaceLink(sch, st, ref, col, o);
    var g' := if EmbeddedClass(sch, o.cls) then HoldFor(sch, ref, g, col) else None;
    PlaceLinkRuns(sch, st, len, ref, g, col, o, m);
    if m.ok { PropsRuns(sch, m.st, len, m.ref, g', o.vals, 0, w); }
  }

  lemma {:induction false} PropsRuns(sch: Schema, st: Tables, len: Lengths, ref: Ref, g: Hold, vals: seq<Val>, i: nat, w: Out)
    requires Before(sch, st, len, ref, g) && Suits(sch, ref, vals) && i <= |vals| && (ref.Auto? ==> Blank(st, ref, vals, i))
    requires w == WriteProps(sch, st, ref, vals, i)
    ensures w.ok <==> RunsProps(sch, len, ref in st.rows, Role(ref), g, vals, i)
    decreases vals, |vals| - i
  {
    if i < |vals| {
      var x := WriteVal(sch, st, ref, i, vals[i]);
      ValRuns(sch, st, len, ref, g, i, vals[i], x);
      if x.ok {
        ValAfter(sch, st, len, ref, g, i, vals[i], x);
        if ref.Auto? { BlankAfter(sch, st, ref, vals, i); }
        PropsRuns(sch, x.st, After(sch, len, Role(ref), i, vals[i]), ref, g, vals, i + 1, w);
      }
    }
  }

  lemma {:induction false} ElemsRuns(sch: Schema, st: Tables, len: Lengths, ref: Ref, g: Hold, col: nat, elems: seq<Option<Obj>>, i: nat, count: nat, w: Out)
    requires Before(sch, st, len, ref, g) && SuitsCol(sch, ref, col, Links(elems)) && i <= |elems|
    requires ref.Auto? && ref in st.rows ==> Entries(st, ref, col) == count
    requires w == WriteElems(sch, st, ref, col, elems, i)
    ensures w.ok <==> RunsElems(sch, len, ref in st.rows, Role(ref), g, col, elems, i, count)
    decreases elems, |elems| - i, 1
  {
    if i < |elems| {
      if elems[i].None? {
        NullAfter(sch, st, len, ref, g, col);
        ElemsRuns(sch, st, AfterElem(sch, len, Role(ref), col, None), ref, g, col, elems, i + 1, count, w);
      } else {
        assert TypedElem(sch, sch[ref.cls].props[col].target, elems[i]);
        SomeElemRuns(sch, st, len, ref, g, col, elems, i, count, w);
      }
    }
  }

  lemma {:induction false} SomeElemRuns(sch: Schema, st: Tables, len: Lengths, ref: Ref, g: Hold, col: nat, elems: seq<Option<Obj>>, i: nat, count: nat, w: Out)
    requires Before(sch, st, len, ref, g) && SuitsCol(sch, ref, col, Links(elems)) && i < |elems| && elems[i].Some?
    requires sch[ref.cls].props[col] == KLinks(elems[i].value.cls) && Typed(sch, elems[i].value)
    requires ref.Auto? && ref in st.rows ==> Entries(st, ref, col) == count
    requires w == WriteElems(sch, st, ref, col, elems, i)
    ensures w.ok <==> RunsElems(sch, len, ref in st.rows, Role(ref), g, col, elems, i, count)
    decreases elems, |elems| - i, 0
  {
    var len' := AfterElem(sch, len, Role(ref), col, elems[i]);
    var fits := i <= if ref.Keyed? then len(ref, col) else count;
    var x := WriteElem(sch, st, ref, col, i, elems[i]);
    assert x.ok <==> RunsElem(sch, len, ref in st.rows, Role(ref), g, col, elems[i], fits) by {
      if ref in st.rows && ref.Keyed? { KeyedEntries(sch, st, len, ref, col); }
      ElemRuns(sch, st, len, ref, g, col, i, elems[i], fits, x);
    }
    if x.ok {
      ElemAfter(sch, st, len, ref, g, col, i, elems[i].value, x);
      ElemsRuns(sch, x.st, len', ref, g, col, elems, i + 1, count + 1, w);
    }
    OneThenOthers(sch, len, ref in st.rows, Role(ref), g, col, elems, i, count);
  }

  lemma OneThenOthers(sch: Schema, len: Lengths, live: bool, ref: Ref, g: Hold, col: nat, elems: seq<Option<Obj>>, i: nat, count: nat)
    requires i < |elems| && elems[i].Some?
    ensures RunsElems(sch, len, live, ref, g, col, elems, i, count) <==>
              && RunsElem(sch, len, live, ref, g, col, elems[i], i <= if ref.Keyed? then len(ref, col) else count)
              && RunsElems(sch, AfterElem(sch, len, ref, col, elems[i]), live && !Cuts(sch, g, Link(elems[i])), ref, g, col, elems, i + 1, count + 1)
  {
  }

  /** Null elements are skipped. */
  lemma NullAfter(sch: Schema, st: Tables, len: Lengths, ref: Ref, g: Hold, col: nat)
    requires Before(sch, st, len, ref, g)
    ensures Before(sch, st, AfterElem(sch, len, Role(ref), col, None), ref, g) && !Cuts(sch, g, Link(None))
  {
    forall r: Ref, c: nat | r.Keyed? ensures Length(sch, st, r, c) == AfterElem(sch, len, Role(ref), col, None)(r, c) {
      assert Length(sch, st, r, c) == len(r, c);
    }
  }

  lemma {:induction false} ElemRuns(sch: Schema, st: Tables, len: Lengths, ref: Ref, g: Hold, col: nat, i: nat, e: Option<Obj>, fits: bool, w: Out)
    requires Before(sch, st, len, ref, g) && e.Some? && Typed(sch, e.value) && w == WriteElem(sch, st, ref, col, i, e)
    requires ref.cls in sch && col < |sch[ref.cls].props| && sch[ref.cls].props[col] == KLinks(e.value.cls)
    requires ref in st.rows ==> (fits <==> i <= Entries(st, ref, col))
    ensures w.ok <==> RunsElem(sch, len, ref in st.rows, Role(ref), g, col, e, fits)
    decreases e
  {
    var o := e.value;
    var m := PlaceElem(sch, st, ref, col, i, o);
    PlaceElemRuns(sch, st, len, ref, g, col, i, o, m);
    if m.ok {
      var embedded := EmbeddedClass(sch, o.cls);
      var x := WriteProps(sch, m.st, m.ref, o.vals, 0);
      var len', g' := if embedded then OneMore(len, Role(ref), col) else len, if embedded then HoldFor(sch, ref, g, col) else None;
      PropsRuns(sch, m.st, len', m.ref, g', o.vals, 0, x);
      if x.ok && !embedded {
        PartsAfter(sch, st, ref, g, o, m, col, i, x.st);
        assert m.ref in x.st.rows && !IsEmbedded(sch, m.ref) && m.ref.cls == o.cls by {
          PlaceElemKeeps(sch, st, ref, col, i, o);
          WritePropsKeeps(sch, m.st, m.ref, o.vals, 0);
        }
        AppendAfter(sch, x.st, ref, g, col, m.ref, w);
      }
    }
  }

  // ----- the main results

  function Stored(sch: Schema, st: Tables): Lengths {
    (r: Ref, c: nat) => Length(sch, st, r, c)
  }

  /** `add` succeeds, on any tables, exactly if the root is not embedded, no embedded object is replaced
      by the parts of its own properties while there is something left to write to it, and no null
      element leaves a gap before an embedded one in a list. */
  lemma AddSucceedsIff(sch: Schema, st: Tables, o: Obj)
    requires ValidSchema(sch) && WellFormed(sch, st) && Typed(sch, o)
    ensures Add(sch, st, o).ok <==> !EmbeddedClass(sch, o.cls) && RunsObj(sch, Stored(sch, st), None, o)
  {
    TypedHasKey(sch, o);
    if !EmbeddedClass(sch, o.cls) {
      var m := Create(sch, st, o);
      CreateRuns(sch, st, Stored(sch, st), o);
      PropsRuns(sch, m.st, Stored(sch, st), m.ref, None, o.vals, 0, WriteProps(sch, m.st, m.ref, o.vals, 0));
    }
  }

  // ----- the graphs that are always written

  /** No object has its own key again below itself. */
  ghost predicate Unnested(sch: Schema, o: Obj)
    decreases o
  {
    && (HasKey(sch, o) ==> PropOccurrences(sch, Keyed(o.cls, KeyOf(sch, o)), o.vals, 0) == [])
    && forall i :: 0 <= i < |o.vals| ==> UnnestedVal(sch, o.vals[i])
  }

  ghost predicate UnnestedVal(sch: Schema, v: Val)
    decreases v
  {
    match v
    case Link(Some(o)) => Unnested(sch, o)
    case Links(elems) => forall i :: 0 <= i < |elems| ==> UnnestedElem(sch, elems[i])
    case _ => true
  }

  ghost predicate UnnestedElem(sch: Schema, e: Option<Obj>)
    decreases e
  {
    e.Some? ==> Unnested(sch, e.value)
  }

  /** The parts do not name the row that `g` is a property of. */
  predicate Free(g: Hold, occurrences: Ref -> seq<Obj>) {
    g.Some? ==> occurrences(g.value.0) == []
  }

  /** Without nulls and nested keys nothing can go wrong, whatever the lists hold. */
  lemma {:induction false} SolidRuns(sch: Schema, len: Lengths, g: Hold, o: Obj)
    requires Solid(o) && Unnested(sch, o) && Free(g, r => Occurrences(sch, r, o))
    ensures RunsObj(sch, len, g, o)
    decreases o
  {
    SolidPropsRun(sch, len, RefOf(sch, 0, o), g, o.vals, 0);
  }

  lemma {:induction false} SolidValRuns(sch: Schema, len: Lengths, ref: Ref, g: Hold, col: nat, v: Val)
    requires SolidVal(v) && UnnestedVal(sch, v) && Free(g, r => ValOccurrences(sch, r, v))
    requires ref.Keyed? ==> ValOccurrences(sch, ref, v) == []
    ensures RunsVal(sch, len, true, ref, g, col, v)
    decreases v
  {
    match v
    case Link(Some(o)) => SolidRuns(sch, len, if EmbeddedClass(sch, o.cls) then HoldFor(sch, ref, g, col) else None, o);
    case Links(elems) => SolidElemsRun(sch, len, ref, g, col, elems, 0);
    case _ =>
  }

  lemma {:induction false} SolidPropsRun(sch: Schema, len: Lengths, ref: Ref, g: Hold, vals: seq<Val>, i: nat)
    requires i <= |vals| && forall j :: 0 <= j < |vals| ==> SolidVal(vals[j]) && UnnestedVal(sch, vals[j])
    requires Free(g, r => PropOccurrences(sch, r, vals, i))
    requires ref.Keyed? ==> PropOccurrences(sch, ref, vals, i) == []
    ensures RunsProps(sch, len, true, ref, g, vals, i)
    decreases vals, |vals| - i
  {
    if i < |vals| {
      SolidValRuns(sch, len, ref, g, i, vals[i]);
      SolidPropsRun(sch, After(sch, len, ref, i, vals[i]), ref, g, vals, i + 1);
    }
  }

  lemma {:induction false} SolidElemsRun(sch: Schema, len: Lengths, ref: Ref, g: Hold, col: nat, elems: seq<Option<Obj>>, i: nat)
    requires i <= |elems| && (ref.Keyed? ==> i <= len(ref, col))
    requires forall j :: 0 <= j < |elems| ==> SolidElem(elems[j]) && UnnestedElem(sch, elems[j])
    requires Free(g, r => ElemOccurrences(sch, r, elems, i)) && (ref.Keyed? ==> ElemOccurrences(sch, ref, elems, i) == [])
    ensures RunsElems(sch, len, true, ref, g, col, elems, i, i)
    decreases elems, |elems| - i
  {
    if i < |elems| {
      SolidElemRuns(sch, len, ref, g, col, elems[i], true);
      SolidElemsRun(sch, AfterElem(sch, len, ref, col, elems[i]), ref, g, col, elems, i + 1);
    }
  }

  lemma {:induction false} SolidElemRuns(sch: Schema, len: Lengths, ref: Ref, g: Hold, col: nat, e: Option<Obj>, fits: bool)
    requires SolidElem(e) && UnnestedElem(sch, e) && fits
    requires Free(g, r => OptOccurrences(sch, r, e)) && (ref.Keyed? ==> OptOccurrences(sch, ref, e) == [])
    ensures RunsElem(sch, len, true, ref, g, col, e, fits) && !Cuts(sch, g, Link(e))
    decreases e
  {
    var o := e.value;
    if EmbeddedClass(sch, o.cls) {
      SolidRuns(sch, OneMore(len, ref, col), HoldFor(sch, ref, g, col), o);
    } else {
      SolidRuns(sch, len, None, o);
    }
  }

  /** So such a graph is added to any tables, whichever of its keys they have. */
  lemma SolidSucceeds(sch: Schema, st: Tables, o: Obj)
    requires ValidSchema(sch) && WellFormed(sch, st) && Typed(sch, o) && !EmbeddedClass(sch, o.cls)
    requires Solid(o) && Unnested(sch, o)
    ensures Add(sch, st, o).ok
  {
    SolidRuns(sch, Stored(sch, st), None, o);
    AddSucceedsIff(sch, st, o);
  }

  /** ... in particular if there is one object for each key. */
  lemma {:induction false} NamedIsUnnested(sch: Schema, env: map<Ref, Obj>, o: Obj)
    requires Named(sch, env, o)
    ensures Unnested(sch, o)
    decreases o
  {
    if HasKey(sch, o) {
      NotInItself(sch, env, o);
      NotNamedProps(sch, Keyed(o.cls, KeyOf(sch, o)), o.vals, 0);
    }
    forall i | 0 <= i < |o.vals| ensures UnnestedVal(sch, o.vals[i]) {
      assert NamedVal(sch, env, o.vals[i]);
      match o.vals[i]
      case Link(Some(p)) => NamedIsUnnested(sch, env, p);
      case Links(elems) =>
        forall j | 0 <= j < |elems| ensures UnnestedElem(sch, elems[j]) {
          assert NamedElem(sch, env, elems[j]);
          if elems[j].Some? { NamedIsUnnested(sch, env, elems[j].value); }
        }
      case _ =>
    }
  }

  /** Nor can anything go wrong if all have keys and only overwrite or merge. */
  lemma {:induction false} RepeatsRuns(sch: Schema, len: Lengths, o: Obj)
    requires ValidSchema(sch) && Typed(sch, o) && RepeatsObj(sch, o)
    ensures RunsObj(sch, len, None, o)
    decreases o
  {
    TypedHasKey(sch, o);
    RepeatsPropsRun(sch, len, Keyed(o.cls, KeyOf(sch, o)), o.vals, 0);
  }

  lemma {:induction false} RepeatsPropsRun(sch: Schema, len: Lengths, ref: Ref, vals: seq<Val>, i: nat)
    requires ValidSchema(sch) && Suits(sch, ref, vals) && i <= |vals| && RepeatsFrom(sch, ref, vals, 0)
    ensures RunsProps(sch, len, true, ref, None, vals, i)
    decreases vals, |vals| - i
  {
    if i < |vals| {
      RepeatsValRuns(sch, len, ref, i, vals[i]);
      RepeatsPropsRun(sch, After(sch, len, ref, i, vals[i]), ref, vals, i + 1);
    }
  }

  lemma {:induction false} RepeatsValRuns(sch: Schema, len: Lengths, ref: Ref, col: nat, v: Val)
    requires ValidSchema(sch) && SuitsCol(sch, ref, col, v) && Repeats(sch, sch[ref.cls].props[col], v)
    ensures RunsVal(sch, len, true, ref, None, col, v)
    decreases v
  {
    match v
    case Link(Some(o)) =>
      TypedHasKey(sch, o);
      RepeatsRuns(sch, len, o);
    case Links(elems) => NullsRun(sch, len, ref, col, elems, 0, 0);
    case _ =>
  }

  lemma {:induction false} NullsRun(sch: Schema, len: Lengths, ref: Ref, col: nat, elems: seq<Option<Obj>>, i: nat, count: nat)
    requires i <= |elems| && forall j :: 0 <= j < |elems| ==> elems[j].None?
    ensures RunsElems(sch, len, true, ref, None, col, elems, i, count)
    decreases |elems| - i
  {
    if i < |elems| { NullsRun(sch, AfterElem(sch, len, ref, col, None), ref, col, elems, i + 1, count); }
  }

  /** A graph of keyed objects that only overwrite or merge is added to all tables. */
  lemma RepeatsSucceeds(sch: Schema, st: Tables, o: Obj)
    requires ValidSchema(sch) && WellFormed(sch, st) && Typed(sch, o) && RepeatsObj(sch, o)
    ensures Add(sch, st, o).ok
  {
    TypedHasKey(sch, o);
    RepeatsRuns(sch, Stored(sch, st), o);
    AddSucceedsIff(sch, st, o);
  }

  // ----- a graph without nulls that is never written

  const NESTED := map[
    "Folder" := ClassDef(["id", "index"], [KScalar("int"), KLink("Index")], Some(0), false),
    "Index" := ClassDef(["folders"], [KLinks("Folder")], None, true)]

  function Folder(id: int, folders: seq<Option<Obj>>): Obj {
    Obj("Folder", [Scalar(Int(id)), Link(Some(Obj("Index", [Links(folders)])))])
  }

  /** The index of a folder lists another object under the folder's own key: writing that one replaces
      the index, which is gone when the entry is to be appended to it. */
  lemma NestedKeyFails(st: Tables, id: int)
    requires WellFormed(NESTED, st)
    ensures var o := Folder(id, [Some(Folder(id, []))]);
            ValidSchema(NESTED) && Typed(NESTED, o) && Solid(o) && !Unnested(NESTED, o) && !Add(NESTED, st, o).ok
  {
    var inner := Folder(id, []);
    var o := Folder(id, [Some(inner)]);
    NestedIsTyped(id, []);
    NestedIsTyped(id, [Some(inner)]);
    IndexIsCut(st, id);
    AddSucceedsIff(NESTED, st, o);
  }

  lemma IndexIsCut(st: Tables, id: int)
    ensures var o := Folder(id, [Some(Folder(id, []))]);
            !Unnested(NESTED, o) && !RunsObj(NESTED, Stored(NESTED, st), None, o)
  {
    var inner := Folder(id, []);
    var elems := [Some(inner)];
    var o := Folder(id, elems);
    var r, index := Keyed("Folder", Int(id)), o.vals[1].target.value;
    assert RefOf(NESTED, 0, o) == r && HasKey(NESTED, o);
    assert Occurrences(NESTED, r, inner)[0] == inner && Fills(inner, 1);
    assert ElemOccurrences(NESTED, r, elems, 0) != [];
    assert PropOccurrences(NESTED, r, index.vals, 0) != [];
    assert !HasKey(NESTED, index) && Occurrences(NESTED, r, index) != [];
    assert o.vals[1] == Link(Some(index)) && ValOccurrences(NESTED, r, o.vals[1]) != [];
    assert PropOccurrences(NESTED, r, o.vals, 1) != [];
    var g := Some((r, 1));
    var len := After(NESTED, Stored(NESTED, st), r, 0, o.vals[0]);
    var e := RefOf(NESTED, 0, index);
    assert Cuts(NESTED, g, Link(elems[0]));
    assert !RunsElem(NESTED, len, true, e, g, 0, elems[0], true);
    assert !RunsElems(NESTED, len, true, e, g, 0, elems, 0, 0);
    assert !RunsProps(NESTED, len, true, e, g, index.vals, 0);
    assert HoldFor(NESTED, r, None, 1) == g;
    assert !RunsVal(NESTED, len, true, r, None, 1, o.vals[1]);
    assert !RunsProps(NESTED, len, true, r, None, o.vals, 1);
  }

  lemma NestedIsTyped(id: int, folders: seq<Option<Obj>>)
    requires forall i :: 0 <= i < |folders| ==>
               folders[i].Some? && folders[i].value.cls == "Folder" && Typed(NESTED, folders[i].value) && Solid(folders[i].value)
    ensures ValidSchema(NESTED) && Typed(NESTED, Folder(id, folders)) && Solid(Folder(id, folders))
  {
    var o := Folder(id, folders);
    var index := Obj("Index", [Links(folders)]);
    assert forall i :: 0 <= i < |folders| ==> TypedElem(NESTED, "Folder", folders[i]) && SolidElem(folders[i]);
    assert TypedVal(NESTED, KLinks("Folder"), Links(folders)) && SolidVal(Links(folders));
    assert Typed(NESTED, index) && Solid(index);
    assert TypedVal(NESTED, KLink("Index"), Link(Some(index))) && SolidVal(Link(Some(index)));
  }
}
