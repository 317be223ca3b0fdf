/** Which rows are still there while a graph is written: only writing a to-one property of a keyed row
    again takes an embedded row away, so every row has at most one such property that it hangs on. */
module Holds {
  import opened Wrappers
  import opened Store
  import opened Graph
  import opened GraphInvariant
  import opened Cells
  import opened SteadyGraphs
  import opened Sharing

  // ----- of the embedded rows, only those of the graph are linked to

  /** The rows a write links to. */
  function Linked(e: Step): seq<Ref> {
    match e
    case Put(c) => Targets(c)
    case Insert(_, t) => [t]
    case Push(t) => [t]
    case _ => []
  }

  predicate LinksNew(sch: Schema, from: nat, es: seq<Step>) {
    forall i, t :: 0 <= i < |es| && t in Linked(es[i]) && IsEmbedded(sch, t) ==> NotBefore(from, t)
  }

  lemma LinksNewJoined(sch: Schema, from: nat, a: seq<Step>, b: seq<Step>)
    requires LinksNew(sch, from, a) && LinksNew(sch, from, b)
    ensures LinksNew(sch, from, a + b)
  {
  }

  lemma {:induction false} ObjLinksNew(sch: Schema, from: nat, n: nat, o: Obj, placing: seq<Step>, r: Ref, c: nat)
    requires from <= n && LinksNew(sch, from, placing)
    ensures LinksNew(sch, from, ObjWork(sch, n, o, placing, r, c).steps)
    decreases o
  {
    var t := RefOf(sch, n, o);
    PropsLinksNew(sch, from, n + Own(sch, o), t, o.vals, 0, r, c);
    LinksNewJoined(sch, from, placing, PropsWork(sch, n + Own(sch, o), t, o.vals, 0, r, c).steps);
  }

  lemma {:induction false} ValLinksNew(sch: Schema, from: nat, n: nat, ref: Ref, col: nat, v: Val, r: Ref, c: nat)
    requires from <= n
    ensures LinksNew(sch, from, ValWork(sch, n, ref, col, v, r, c).steps)
    decreases v
  {
    match v
    case Link(Some(o)) => ObjLinksNew(sch, from, n, o, Once(r == ref && c == col, Put(CLink(Some(RefOf(sch, n, o))))), r, c);
    case Links(elems) => ElemsLinksNew(sch, from, n, ref, col, elems, 0, r, c);
    case _ =>
  }

  lemma {:induction false} PropsLinksNew(sch: Schema, from: nat, n: nat, ref: Ref, vals: seq<Val>, i: nat, r: Ref, c: nat)
    requires from <= n && i <= |vals|
    ensures LinksNew(sch, from, PropsWork(sch, n, ref, vals, i, r, c).steps)
    decreases vals, |vals| - i
  {
    if i < |vals| {
      var w := ValWork(sch, n, ref, i, vals[i], r, c);
      ValLinksNew(sch, from, n, ref, i, vals[i], r, c);
      PropsLinksNew(sch, from, n + w.rows, ref, vals, i + 1, r, c);
      LinksNewJoined(sch, from, w.steps, PropsWork(sch, n + w.rows, ref, vals, i + 1, r, c).steps);
    }
  }

  lemma {:induction false} ElemsLinksNew(sch: Schema, from: nat, n: nat, ref: Ref, col: nat, elems: seq<Option<Obj>>, i: nat, r: Ref, c: nat)
    requires from <= n && i <= |elems|
    ensures LinksNew(sch, from, ElemsWork(sch, n, ref, col, elems, i, r, c).steps)
    decreases elems, |elems| - i
  {
    if i < |elems| {
      var w := ElemWork(sch, n, ref, col, i, elems[i], r, c);
      ElemLinksNew(sch, from, n, ref, col, i, elems[i], r, c);
      ElemsLinksNew(sch, from, n + w.rows, ref, col, elems, i + 1, r, c);
      LinksNewJoined(sch, from, w.steps, ElemsWork(sch, n + w.rows, ref, col, elems, i + 1, r, c).steps);
    }
  }

  lemma {:induction false} ElemLinksNew(sch: Schema, from: nat, n: nat, ref: Ref, col: nat, i: nat, e: Option<Obj>, r: Ref, c: nat)
    requires from <= n
    ensures LinksNew(sch, from, ElemWork(sch, n, ref, col, i, e, r, c).steps)
    decreases e
  {
    if e.Some? {
      var t, embedded, here := RefOf(sch, n, e.value), EmbeddedClass(sch, e.value.cls), r == ref && c == col;
      ObjLinksNew(sch, from, n, e.value, Once(here && embedded, Insert(i, t)), r, c);
      LinksNewJoined(sch, from, ObjWork(sch, n, e.value, Once(here && embedded, Insert(i, t)), r, c).steps, Once(here && !embedded, Push(t)));
    }
  }

  // ----- when a to-one property of a keyed row is written

  predicate ToOne(sch: Schema, r: Ref, c: nat) {
    r.cls in sch && c < |sch[r.cls].props| && sch[r.cls].props[c].KLink?
  }

  /** The object is written with a link in its property `c`. */
  predicate Fills(o: Obj, c: nat) {
    c < |o.vals| && o.vals[c].Link? && o.vals[c].target.Some?
  }

  predicate Refills(os: seq<Obj>, c: nat) {
    exists i :: 0 <= i < |os| && Fills(os[i], c)
  }

  lemma RefillsJoined(a: seq<Obj>, b: seq<Obj>, c: nat)
    ensures Refills(a + b, c) <==> Refills(a, c) || Refills(b, c)
  {
    if Refills(a, c) {
      var i :| 0 <= i < |a| && Fills(a[i], c);
      assert (a + b)[i] == a[i];
    }
    if Refills(b, c) {
      var i :| 0 <= i < |b| && Fills(b[i], c);
      assert (a + b)[|a| + i] == b[i];
    }
  }

  lemma {:induction false} ObjFills(sch: Schema, n: nat, o: Obj, placing: seq<Step>, r: Ref, c: nat)
    requires ValidSchema(sch) && Typed(sch, o) && r.Keyed? && ToOne(sch, r, c)
    ensures ObjWork(sch, n, o, placing, r, c).steps != [] <==> placing != [] || Refills(Occurrences(sch, r, o), c)
    decreases o
  {
    var t := RefOf(sch, n, o);
    TypedHasKey(sch, o);
    PropsFill(sch, n + Own(sch, o), t, o.vals, 0, r, c);
    var own := if HasKey(sch, o) && Keyed(o.cls, KeyOf(sch, o)) == r then [o] else [];
    RefillsJoined(own, PropOccurrences(sch, r, o.vals, 0), c);
    if t == r { assert own[0] == o; }
  }

  lemma {:induction false} ValFills(sch: Schema, n: nat, ref: Ref, col: nat, v: Val, r: Ref, c: nat)
    requires ValidSchema(sch) && SuitsCol(sch, ref, col, v) && r.Keyed? && ToOne(sch, r, c)
    ensures ValWork(sch, n, ref, col, v, r, c).steps != [] <==>
              Refills(ValOccurrences(sch, r, v), c) || (r == ref && c == col && v.Link? && v.target.Some?)
    decreases v
  {
    match v
    case Link(Some(o)) => ObjFills(sch, n, o, Once(r == ref && c == col, Put(CLink(Some(RefOf(sch, n, o))))), r, c);
    case Links(elems) => ElemsFill(sch, n, ref, col, elems, 0, r, c);
    case _ =>
  }

  lemma {:induction false} PropsFill(sch: Schema, n: nat, ref: Ref, vals: seq<Val>, i: nat, r: Ref, c: nat)
    requires ValidSchema(sch) && Suits(sch, ref, vals) && i <= |vals| && r.Keyed? && ToOne(sch, r, c)
    ensures PropsWork(sch, n, ref, vals, i, r, c).steps != [] <==>
              Refills(PropOccurrences(sch, r, vals, i), c) || (r == ref && i <= c && vals[c].target.Some?)
    decreases vals, |vals| - i
  {
    if i < |vals| {
      var w := ValWork(sch, n, ref, i, vals[i], r, c);
      ValFills(sch, n, ref, i, vals[i], r, c);
      PropsFill(sch, n + w.rows, ref, vals, i + 1, r, c);
      RefillsJoined(ValOccurrences(sch, r, vals[i]), PropOccurrences(sch, r, vals, i + 1), c);
    }
  }

  lemma {:induction false} ElemsFill(sch: Schema, n: nat, ref: Ref, col: nat, elems: seq<Option<Obj>>, i: nat, r: Ref, c: nat)
    requires ValidSchema(sch) && SuitsCol(sch, ref, col, Links(elems)) && i <= |elems| && r.Keyed? && ToOne(sch, r, c)
    ensures ElemsWork(sch, n, ref, col, elems, i, r, c).steps != [] <==> Refills(ElemOccurrences(sch, r, elems, i), c)
    decreases elems, |elems| - i
  {
    if i < |elems| {
      var w := ElemWork(sch, n, ref, col, i, elems[i], r, c);
      ElemFills(sch, n, ref, col, i, elems[i], r, c) by { assert TypedElem(sch, sch[ref.cls].props[col].target, elems[i]); }
      ElemsFill(sch, n + w.rows, ref, col, elems, i + 1, r, c);
      ElemsFillOnce(sch, n, ref, col, elems, i, r, c, w);
    }
  }

  lemma ElemsFillOnce(sch: Schema, n: nat, ref: Ref, col: nat, elems: seq<Option<Obj>>, i: nat, r: Ref, c: nat, w: Work)
    requires i < |elems| && w == ElemWork(sch, n, ref, col, i, elems[i], r, c)
    requires w.steps != [] <==> Refills(OptOccurrences(sch, r, elems[i]), c)
    requires ElemsWork(sch, n + w.rows, ref, col, elems, i + 1, r, c).steps != [] <==> Refills(ElemOccurrences(sch, r, elems, i + 1), c)
    ensures ElemsWork(sch, n, ref, col, elems, i, r, c).steps != [] <==> Refills(ElemOccurrences(sch, r, elems, i), c)
  {
    RefillsJoined(OptOccurrences(sch, r, elems[i]), ElemOccurrences(sch, r, elems, i + 1), c);
  }

  lemma {:induction false} ElemFills(sch: Schema, n: nat, ref: Ref, col: nat, i: nat, e: Option<Obj>, r: Ref, c: nat)
    requires ValidSchema(sch) && (e.Some? ==> Typed(sch, e.value)) && r.Keyed? && ToOne(sch, r, c)
    requires ref.cls in sch && col < |sch[ref.cls].props| && sch[ref.cls].props[col].KLinks?
    ensures ElemWork(sch, n, ref, col, i, e, r, c).steps != [] <==> Refills(OptOccurrences(sch, r, e), c)
    decreases e
  {
    if e.Some? { ObjFills(sch, n, e.value, [], r, c); }
  }

  // ----- what an embedded row hangs on

  /** A to-one property of a keyed row: the only link to an embedded row that writing can replace. */
  type Hold = Option<(Ref, nat)>

  /** What an embedded row hangs on that column `col` of `ref` links to, if `ref` itself hangs on `g`. */
  function HoldFor(sch: Schema, ref: Ref, g: Hold, col: nat): Hold {
    if ref.Keyed? then (if ToOne(sch, ref, col) then Some((ref, col)) else None)
    else if IsEmbedded(sch, ref) then g
    else None
  }

  ghost function HoldOf(sch: Schema, st: Tables, r: Ref): Hold
    requires WellFormed(sch, st)
    decreases if r.Auto? then r.n + 1 else 0
  {
    if r in st.rows && IsEmbedded(sch, r) then
      var s :| Owns(sch, st.rows, s, r);
      assert Older(s.owner, r);
      HoldFor(sch, s.owner, HoldOf(sch, st, s.owner), s.col)
    else None
  }

  lemma HoldOfOwned(sch: Schema, st: Tables, s: Slot, r: Ref)
    requires WellFormed(sch, st) && Owns(sch, st.rows, s, r)
    ensures r in st.rows && HoldOf(sch, st, r) == HoldFor(sch, s.owner, HoldOf(sch, st, s.owner), s.col)
  {
    assert At(st.rows, s).Some?;
  }

  /** The row is written again to its to-one property, so what hung on it is gone. */
  predicate Cuts(sch: Schema, g: Hold, v: Val) {
    g.Some? && Refills(ValOccurrences(sch, g.value.0, v), g.value.1)
  }

  /** From `st` to `st'` the parts of `v` were written, and cells of `ref`. */
  ghost predicate WroteBy(sch: Schema, st: Tables, st': Tables, ref: Ref, v: Val, r: Ref, c: nat, w: Work) {
    && Does(sch, st, st', r, c, w) && LinksNew(sch, st.next, w.steps)
    && (r != ref ==>
          && (r.cls in sch && c < |sch[r.cls].props| ==> AllOf(sch[r.cls].props[c], w.steps))
          && (r.Auto? && r.n < st.next ==> w.steps == [])
          && (r.Keyed? && ToOne(sch, r, c) ==> (w.steps != [] <==> Refills(ValOccurrences(sch, r, v), c))))
  }

  ghost predicate WroteAt(sch: Schema, st: Tables, st': Tables, ref: Ref, v: Val, r: Ref, c: nat) {
    exists w: Work :: WroteBy(sch, st, st', ref, v, r, c, w)
  }

  ghost predicate Wrote(sch: Schema, st: Tables, st': Tables, ref: Ref, v: Val) {
    && ValidSchema(sch) && WellFormed(sch, st) && Keeps(sch, st, st')
    && forall r, c :: WroteAt(sch, st, st', ref, v, r, c)
  }

  lemma OldNotLinked(sch: Schema, from: nat, es: seq<Step>, t: Ref)
    requires es != [] && LinksNew(sch, from, es) && t.Auto? && t.n < from && IsEmbedded(sch, t)
    ensures t !in Linked(es[0]) && LinksNew(sch, from, es[1..])
  {
    assert t in Linked(es[0]) ==> NotBefore(from, t);
  }

  lemma {:induction false} RunTargets(sch: Schema, from: nat, es: seq<Step>, c: Cell, t: Ref)
    requires LinksNew(sch, from, es) && t.Auto? && t.n < from && IsEmbedded(sch, t)
    ensures t in Targets(Run(es, c)) ==> t in Targets(c)
    decreases |es|
  {
    if es != [] {
      OldNotLinked(sch, from, es, t);
      RunTargets(sch, from, es[1..], Do(es[0], c), t);
    }
  }

  /** Lists of links only gain entries. */
  lemma {:induction false} RunKeepsTargets(k: Kind, es: seq<Step>, c: Cell, t: Ref)
    requires k.KLinks? && AllOf(k, es) && c.CLinks? && t in c.links
    ensures Run(es, c).CLinks? && t in Run(es, c).links
    decreases |es|
  {
    if es != [] {
      assert StepOf(k, es[0]) && AllOf(k, es[1..]);
      RunKeepsTargets(k, es[1..], Do(es[0], c), t);
    }
  }

  /** A to-one link that is written again no longer leads to an older row. */
  lemma {:induction false} RunReplaces(sch: Schema, from: nat, k: Kind, es: seq<Step>, c: Cell, t: Ref)
    requires k.KLink? && AllOf(k, es) && es != [] && LinksNew(sch, from, es) && t.Auto? && t.n < from && IsEmbedded(sch, t)
    ensures t !in Targets(Run(es, c))
  {
    assert StepOf(k, es[0]);
    OldNotLinked(sch, from, es, t);
    RunTargets(sch, from, es[1..], Do(es[0], c), t);
  }

  /** Who owns an older row afterwards owned it before. */
  lemma OwnerWasOwner(sch: Schema, st: Tables, st': Tables, ref: Ref, v: Val, s: Slot, r: Ref)
    requires Wrote(sch, st, st', ref, v) && r in st.rows && IsEmbedded(sch, r) && Owns(sch, st'.rows, s, r)
    ensures s.owner in st.rows && s.owner in st'.rows && exists i :: Owns(sch, st.rows, Slot(s.owner, s.col, i), r)
  {
    assert WroteAt(sch, st, st', ref, v, s.owner, s.col);
    var w :| WroteBy(sch, st, st', ref, v, s.owner, s.col, w);
    assert RowFits(sch, r, st.rows[r]) && ValidClass(sch, sch[r.cls]);
    var c0 := CellIn(sch, st, s.owner, s.col);
    assert r in Targets(st'.rows[s.owner][s.col]);
    RunTargets(sch, st.next, w.steps, c0, r);
    assert s.owner in st.rows;
    var i :| 0 <= i < |Targets(c0)| && Targets(c0)[i] == r;
    assert At(st.rows, Slot(s.owner, s.col, i)) == Some(r);
  }

  /** The row stays exactly if what it hangs on is not written again, and then hangs on the same. */
  lemma {:induction false} Stays(sch: Schema, st: Tables, st': Tables, ref: Ref, v: Val, r: Ref)
    requires Wrote(sch, st, st', ref, v) && r in st.rows && ref.Auto? && (r.Auto? ==> r.n <= ref.n)
    ensures r in st'.rows <==> !Cuts(sch, HoldOf(sch, st, r), v)
    ensures r in st'.rows ==> HoldOf(sch, st', r) == HoldOf(sch, st, r)
    decreases if r.Auto? then r.n + 1 else 0
  {
    if IsEmbedded(sch, r) {
      var s :| Owns(sch, st.rows, s, r);
      HoldOfOwned(sch, st, s, r);
      assert Older(s.owner, r) && s.owner in st.rows;
      Stays(sch, st, st', ref, v, s.owner);
      StaysOwned(sch, st, st', ref, v, s, r);
    }
  }

  lemma StaysOwned(sch: Schema, st: Tables, st': Tables, ref: Ref, v: Val, s: Slot, r: Ref)
    requires Wrote(sch, st, st', ref, v) && r in st.rows && Owns(sch, st.rows, s, r) && s.owner in st.rows && s.owner != ref
    requires var g := HoldOf(sch, st, s.owner);
             (s.owner in st'.rows <==> !Cuts(sch, g, v)) && (s.owner in st'.rows ==> HoldOf(sch, st', s.owner) == g)
    ensures r in st'.rows <==> !Cuts(sch, HoldFor(sch, s.owner, HoldOf(sch, st, s.owner), s.col), v)
    ensures r in st'.rows ==> HoldOf(sch, st', r) == HoldFor(sch, s.owner, HoldOf(sch, st, s.owner), s.col)
  {
    if StillLinked(st', s, r) {
      var i :| At(st'.rows, Slot(s.owner, s.col, i)) == Some(r);
      HoldOfOwned(sch, st', Slot(s.owner, s.col, i), r);
    } else if r in st'.rows {
      var s' :| Owns(sch, st'.rows, s', r);
      OwnerWasOwner(sch, st, st', ref, v, s', r);
      assert false;
    }
    LinkStays(sch, st, st', ref, v, s, r);
  }

  ghost predicate StillLinked(st': Tables, s: Slot, r: Ref) {
    exists i :: At(st'.rows, Slot(s.owner, s.col, i)) == Some(r)
  }

  /** An older row stays linked, unless a to-one link is written again. */
  lemma TargetStays(sch: Schema, from: nat, k: Kind, es: seq<Step>, c: Cell, t: Ref)
    requires AllOf(k, es) && LinksNew(sch, from, es) && CellFits(k, c) && t in Targets(c) && t.Auto? && t.n < from && IsEmbedded(sch, t)
    ensures t in Targets(Run(es, c)) <==> !(k.KLink? && es != [])
  {
    if es != [] {
      if k.KLink? { RunReplaces(sch, from, k, es, c, t); } else { RunKeepsTargets(k, es, c, t); }
    }
  }

  lemma LinkStays(sch: Schema, st: Tables, st': Tables, ref: Ref, v: Val, s: Slot, r: Ref)
    requires Wrote(sch, st, st', ref, v) && r in st.rows && Owns(sch, st.rows, s, r) && s.owner in st.rows && s.owner != ref
    requires s.owner in st'.rows <==> !Cuts(sch, HoldOf(sch, st, s.owner), v)
    ensures StillLinked(st', s, r) <==> !Cuts(sch, HoldFor(sch, s.owner, HoldOf(sch, st, s.owner), s.col), v)
  {
    assert WroteAt(sch, st, st', ref, v, s.owner, s.col);
    var w :| WroteBy(sch, st, st', ref, v, s.owner, s.col, w);
    assert r.Auto? && r.n < st.next && r in Targets(st.rows[s.owner][s.col]) by {
      assert RowFits(sch, r, st.rows[r]) && ValidClass(sch, sch[r.cls]);
    }
    assert RowFits(sch, s.owner, st.rows[s.owner]) && (IsEmbedded(sch, s.owner) ==> s.owner.Auto?) by {
      assert RowFits(sch, s.owner, st.rows[s.owner]) && ValidClass(sch, sch[s.owner.cls]);
    }
    if s.owner in st'.rows {
      assert |st'.rows[s.owner]| == |sch[s.owner.cls].props| by { assert RowFits(sch, s.owner, st'.rows[s.owner]); }
      TargetStays(sch, st.next, sch[s.owner.cls].props[s.col], w.steps, st.rows[s.owner][s.col], r);
      LinkedIsTarget(st', s, r);
    }
  }

  lemma LinkedIsTarget(st': Tables, s: Slot, r: Ref)
    requires Live(st', s.owner, s.col)
    ensures StillLinked(st', s, r) <==> r in Targets(st'.rows[s.owner][s.col])
  {
    var ts := Targets(st'.rows[s.owner][s.col]);
    if r in ts {
      var i :| 0 <= i < |ts| && ts[i] == r;
      assert At(st'.rows, Slot(s.owner, s.col, i)) == Some(r);
    }
  }
}
