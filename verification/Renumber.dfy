/** Tables that differ in the numbers of their rows only. The same writes with all numbers from some number on
    moved up. */
module Renumber {
  import opened Wrappers
  import opened Store
  import opened Graph
  import opened Cells

  // ----- the same tables but for the numbers of rows

  /** `st'` has the rows of `st` under other numbers; keyed rows stay where they are. */
  ghost predicate Renames(f: map<Ref, Ref>, st: Tables, st': Tables) {
    && f.Keys == st.rows.Keys && f.Values == st'.rows.Keys
    && (forall r, r' :: r in f && r' in f && f[r] == f[r'] ==> r == r')
    && (forall r :: r in f ==> RenamesRow(f, r, st.rows[r], f[r], st'.rows[f[r]]))
  }

  ghost predicate RenamesRow(f: map<Ref, Ref>, r: Ref, row: Row, r': Ref, row': Row) {
    && r'.cls == r.cls && (if r.Keyed? then r' == r else r'.Auto?)
    && |row'| == |row| && forall c :: 0 <= c < |row| ==> RenamesCell(f, row[c], row'[c])
  }

  ghost predicate RenamesCell(f: map<Ref, Ref>, c: Cell, c': Cell) {
    match c
    case CLink(Some(t)) => t in f && c' == CLink(Some(f[t]))
    case CLinks(ts) => c'.CLinks? && |c'.links| == |ts| && forall i :: 0 <= i < |ts| ==> ts[i] in f && c'.links[i] == f[ts[i]]
    case _ => c' == c
  }

  ghost predicate SameButNumbers(st: Tables, st': Tables) {
    exists f :: Renames(f, st, st')
  }

  // ----- moving the numbers from `from` on by `k`

  function Moved(from: nat, k: nat, r: Ref): Ref {
    if r.Auto? && r.n >= from then Auto(r.cls, r.n + k) else r
  }

  function MovedRefs(from: nat, k: nat, ts: seq<Ref>): (r: seq<Ref>)
    ensures |r| == |ts| && forall i :: 0 <= i < |ts| ==> r[i] == Moved(from, k, ts[i])
  {
    seq(|ts|, i requires 0 <= i < |ts| => Moved(from, k, ts[i]))
  }

  function MovedCell(from: nat, k: nat, c: Cell): Cell {
    match c
    case CLink(Some(t)) => CLink(Some(Moved(from, k, t)))
    case CLinks(ts) => CLinks(MovedRefs(from, k, ts))
    case _ => c
  }

  function MovedStep(from: nat, k: nat, e: Step): Step {
    match e
    case Put(c) => Put(MovedCell(from, k, c))
    case Insert(i, t) => Insert(i, Moved(from, k, t))
    case Push(t) => Push(Moved(from, k, t))
    case _ => e
  }

  function MovedSteps(from: nat, k: nat, es: seq<Step>): (r: seq<Step>)
    ensures |r| == |es| && forall i :: 0 <= i < |es| ==> r[i] == MovedStep(from, k, es[i])
  {
    seq(|es|, i requires 0 <= i < |es| => MovedStep(from, k, es[i]))
  }

  function MovedWork(from: nat, k: nat, w: Work): Work {
    Work(w.rows, MovedSteps(from, k, w.steps), w.made)
  }

  lemma DoMoves(from: nat, k: nat, e: Step, c: Cell)
    ensures MovedCell(from, k, Do(e, c)) == Do(MovedStep(from, k, e), MovedCell(from, k, c))
  {
    match e
    case Insert(i, t) =>
      if c.CLinks? { assert MovedRefs(from, k, Inserted(c.links, i, t)) == Inserted(MovedRefs(from, k, c.links), i, Moved(from, k, t)); }
    case Push(t) =>
      if c.CLinks? { assert MovedRefs(from, k, c.links + [t]) == MovedRefs(from, k, c.links) + [Moved(from, k, t)]; }
    case _ =>
  }

  lemma {:induction false} RunMoves(from: nat, k: nat, es: seq<Step>, c: Cell)
    ensures MovedCell(from, k, Run(es, c)) == Run(MovedSteps(from, k, es), MovedCell(from, k, c))
  {
    if es != [] {
      assert MovedSteps(from, k, es)[1..] == MovedSteps(from, k, es[1..]);
      DoMoves(from, k, es[0], c);
      RunMoves(from, k, es[1..], Do(es[0], c));
    }
  }

  lemma ThenMoves(from: nat, k: nat, a: Work, b: Work)
    ensures MovedWork(from, k, Then(a, b)) == Then(MovedWork(from, k, a), MovedWork(from, k, b))
  {
    assert MovedSteps(from, k, a.steps + b.steps) == MovedSteps(from, k, a.steps) + MovedSteps(from, k, b.steps);
  }

  lemma OnceMoves(from: nat, k: nat, here: bool, e: Step)
    ensures MovedSteps(from, k, Once(here, e)) == Once(here, MovedStep(from, k, e))
  {
  }

  /** The work of a graph, the rows numbered `k` higher. */
  lemma {:induction false} ObjMoves(sch: Schema, from: nat, k: nat, n: nat, o: Obj, placing: seq<Step>, r: Ref, c: nat)
    requires from <= n
    ensures ObjWork(sch, n + k, o, MovedSteps(from, k, placing), Moved(from, k, r), c) == MovedWork(from, k, ObjWork(sch, n, o, placing, r, c))
    decreases o
  {
    var t := RefOf(sch, n, o);
    PropsMove(sch, from, k, n + Own(sch, o), t, o.vals, 0, r, c);
    ThenMoves(from, k, Work(Own(sch, o), placing, r == t), PropsWork(sch, n + Own(sch, o), t, o.vals, 0, r, c));
  }

  lemma {:induction false} ValMoves(sch: Schema, from: nat, k: nat, n: nat, ref: Ref, col: nat, v: Val, r: Ref, c: nat)
    requires from <= n
    ensures ValWork(sch, n + k, Moved(from, k, ref), col, v, Moved(from, k, r), c) == MovedWork(from, k, ValWork(sch, n, ref, col, v, r, c))
    decreases v
  {
    var here := r == ref && c == col;
    match v
    case Link(Some(o)) =>
      var e := Put(CLink(Some(RefOf(sch, n, o))));
      OnceMoves(from, k, here, e);
      ObjMoves(sch, from, k, n, o, Once(here, e), r, c);
    case Links(elems) => ElemsMove(sch, from, k, n, ref, col, elems, 0, r, c);
    case Link(None) =>
    case Backlinks =>
    case _ => OnceMoves(from, k, here, PlainStep(sch, ref, col, v));
  }

  lemma {:induction false} PropsMove(sch: Schema, from: nat, k: nat, n: nat, ref: Ref, vals: seq<Val>, i: nat, r: Ref, c: nat)
    requires from <= n && i <= |vals|
    ensures PropsWork(sch, n + k, Moved(from, k, ref), vals, i, Moved(from, k, r), c) == MovedWork(from, k, PropsWork(sch, n, ref, vals, i, r, c))
    decreases vals, |vals| - i
  {
    if i < |vals| {
      var w := ValWork(sch, n, ref, i, vals[i], r, c);
      ValMoves(sch, from, k, n, ref, i, vals[i], r, c);
      PropsMove(sch, from, k, n + w.rows, ref, vals, i + 1, r, c);
      ThenMoves(from, k, w, PropsWork(sch, n + w.rows, ref, vals, i + 1, r, c));
    }
  }

  lemma {:induction false} ElemsMove(sch: Schema, from: nat, k: nat, n: nat, ref: Ref, col: nat, elems: seq<Option<Obj>>, i: nat, r: Ref, c: nat)
    requires from <= n && i <= |elems|
    ensures ElemsWork(sch, n + k, Moved(from, k, ref), col, elems, i, Moved(from, k, r), c) ==
            MovedWork(from, k, ElemsWork(sch, n, ref, col, elems, i, r, c))
    decreases elems, |elems| - i
  {
    if i < |elems| {
      var w := ElemWork(sch, n, ref, col, i, elems[i], r, c);
      ElemMoves(sch, from, k, n, ref, col, i, elems[i], r, c);
      ElemsMove(sch, from, k, n + w.rows, ref, col, elems, i + 1, r, c);
      ThenMoves(from, k, w, ElemsWork(sch, n + w.rows, ref, col, elems, i + 1, r, c));
    }
  }

  lemma {:induction false} ElemMoves(sch: Schema, from: nat, k: nat, n: nat, ref: Ref, col: nat, i: nat, e: Option<Obj>, r: Ref, c: nat)
    requires from <= n
    ensures ElemWork(sch, n + k, Moved(from, k, ref), col, i, e, Moved(from, k, r), c) == MovedWork(from, k, ElemWork(sch, n, ref, col, i, e, r, c))
    decreases e
  {
    if e.Some? {
      var t := RefOf(sch, n, e.value);
      var here, embedded := r == ref && c == col, EmbeddedClass(sch, e.value.cls);
      OnceMoves(from, k, here && embedded, Insert(i, t));
      OnceMoves(from, k, here && !embedded, Push(t));
      ObjMoves(sch, from, k, n, e.value, Once(here && embedded, Insert(i, t)), r, c);
      ThenMoves(from, k, ObjWork(sch, n, e.value, Once(here && embedded, Insert(i, t)), r, c), Work(0, Once(here && !embedded, Push(t)), false));
    }
  }
}
