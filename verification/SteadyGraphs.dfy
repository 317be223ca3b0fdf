/** The graphs whose second `add` makes no list longer and creates no plain row, by the writes that they
    do to the cells of the tables. */
module SteadyGraphs {
  import opened Wrappers
  import opened Store
  import opened Graph
  import opened GraphInvariant
  import opened Cells
  import opened Renumber

  // ----- which writes leave a cell of each kind as it is when they are done again

  /** The writes there are to a column of a kind. */
  predicate StepOf(k: Kind, e: Step) {
    match e
    case Put(_) => k.KScalar? || k.KLink? || (k.KList? && k.write.Replace?)
    case Insert(_, _) => k.KLinks?
    case Push(_) => k.KLinks?
    case Before(_) => k.KList? && !k.write.Replace?
    case Behind(_) => k.KList? && !k.write.Replace?
    case Union(_) => k.KSet?
    case Overlay(_) => k.KMap?
  }

  /** The length of a list that writing can only extend. */
  function Extent(k: Kind, c: Cell): nat {
    match k
    case KLinks(_) => if c.CLinks? then |c.links| else 0
    case KList(w, _) => if c.CList? && !w.Replace? then |c.items| else 0
    case _ => 0
  }

  /** How much longer a write makes such a list. */
  function Growth(e: Step): nat {
    match e
    case Insert(_, _) => 1
    case Push(_) => 1
    case Before(items) => |items|
    case Behind(items) => |items|
    case _ => 0
  }

  function TotalGrowth(es: seq<Step>): nat {
    if es == [] then 0 else Growth(es[0]) + TotalGrowth(es[1..])
  }

  lemma {:induction false} TotalGrowthJoined(es: seq<Step>, fs: seq<Step>)
    ensures TotalGrowth(es + fs) == TotalGrowth(es) + TotalGrowth(fs)
  {
    if es == [] {
      assert es + fs == fs;
    } else {
      assert (es + fs)[0] == es[0] && (es + fs)[1..] == es[1..] + fs;
      TotalGrowthJoined(es[1..], fs);
    }
  }

  predicate AllOf(k: Kind, es: seq<Step>) {
    forall i :: 0 <= i < |es| ==> StepOf(k, es[i])
  }

  /** A list that only grows is longer by the growth of the writes. */
  lemma {:induction false} RunGrows(k: Kind, es: seq<Step>, c: Cell)
    requires AllOf(k, es) && CellFits(k, c) && (k.KLinks? || (k.KList? && !k.write.Replace?))
    ensures Extent(k, Run(es, c)) == Extent(k, c) + TotalGrowth(es)
    decreases |es|
  {
    if es != [] {
      assert Extent(k, Do(es[0], c)) == Extent(k, c) + Growth(es[0]) && StepOf(k, es[0]);
      RunGrowsOn(k, es[1..], Do(es[0], c));
    }
  }

  lemma {:induction false} RunGrowsOn(k: Kind, es: seq<Step>, c: Cell)
    requires AllOf(k, es) && (k.KLinks? || (k.KList? && !k.write.Replace?)) && (if k.KLinks? then c.CLinks? else c.CList?)
    ensures Extent(k, Run(es, c)) == Extent(k, c) + TotalGrowth(es)
    decreases |es|
  {
    if es != [] { RunGrowsOn(k, es[1..], Do(es[0], c)); }
  }

  /** One write with the effect of two. */
  function Merge(e: Step, f: Step): Step {
    match f
    case Union(s) => if e.Union? then Union(e.s + s) else f
    case Overlay(m) => if e.Overlay? then Overlay(e.m + m) else f
    case _ => f
  }

  /** One write with the effect of all. */
  function Net(es: seq<Step>): Step
    requires es != []
  {
    if |es| == 1 then es[0] else Merge(es[0], Net(es[1..]))
  }

  lemma {:induction false} NetRuns(k: Kind, es: seq<Step>, c: Cell)
    requires es != [] && AllOf(k, es) && TotalGrowth(es) == 0
    ensures Run(es, c) == Do(Net(es), c) && StepOf(k, Net(es)) && Growth(Net(es)) == 0
    decreases |es|
  {
    if |es| == 1 {
      assert Run(es, c) == Run(es[1..], Do(es[0], c)) == Do(es[0], c);
    } else {
      assert AllOf(k, es[1..]);
      NetRuns(k, es[1..], Do(es[0], c));
      MergeDoes(k, es[0], Net(es[1..]), c);
    }
  }

  lemma MergeDoes(k: Kind, e: Step, f: Step, c: Cell)
    requires StepOf(k, e) && StepOf(k, f) && Growth(e) == Growth(f) == 0
    ensures Do(Merge(e, f), c) == Do(f, Do(e, c)) && StepOf(k, Merge(e, f)) && Growth(Merge(e, f)) == 0
  {
    if e.Before? || e.Behind? { NoGrowth(e, c); }
    if e.Union? && f.Union? && c.CSet? { assert c.elems + (e.s + f.s) == c.elems + e.s + f.s; }
    if e.Overlay? && f.Overlay? && c.CMap? { assert c.entries + (e.m + f.m) == c.entries + e.m + f.m; }
  }

  lemma NoGrowth(e: Step, c: Cell)
    requires Growth(e) == 0 && (e.Before? || e.Behind?)
    ensures Do(e, c) == c
  {
    if c.CList? { assert [] + c.items == c.items + [] == c.items; }
  }

  lemma {:induction false} NetMoves(from: nat, k: nat, es: seq<Step>)
    requires es != []
    ensures Net(MovedSteps(from, k, es)) == MovedStep(from, k, Net(es))
    decreases |es|
  {
    if |es| > 1 {
      assert MovedSteps(from, k, es)[1..] == MovedSteps(from, k, es[1..]);
      NetMoves(from, k, es[1..]);
    }
  }

  /** Writes that grow nothing, done again with other numbers: the cell differs in the numbers only. */
  lemma Again(from: nat, n: nat, k: Kind, es: seq<Step>, c: Cell)
    requires AllOf(k, es) && TotalGrowth(es) == 0 && MovedCell(from, n, c) == c
    ensures Run(MovedSteps(from, n, es), Run(es, c)) == MovedCell(from, n, Run(es, c))
  {
    if es != [] {
      var e, again := Net(es), MovedSteps(from, n, es);
      NetRuns(k, es, c);
      MovedKeepsKinds(from, n, k, es);
      NetRuns(k, again, Do(e, c));
      NetMoves(from, n, es);
      if e.Before? || e.Behind? { NoGrowth(e, c); }
      if e.Union? && c.CSet? { assert c.elems + e.s + e.s == c.elems + e.s; }
      if e.Overlay? && c.CMap? { assert c.entries + e.m + e.m == c.entries + e.m; }
    }
  }

  lemma {:induction false} MovedKeepsKinds(from: nat, n: nat, k: Kind, es: seq<Step>)
    requires AllOf(k, es)
    ensures AllOf(k, MovedSteps(from, n, es)) && TotalGrowth(MovedSteps(from, n, es)) == TotalGrowth(es)
    decreases |es|
  {
    if es != [] {
      assert MovedSteps(from, n, es)[1..] == MovedSteps(from, n, es[1..]);
      MovedKeepsKinds(from, n, k, es[1..]);
    }
  }

  // ----- the graphs that can be added again

  /** Writing the property again leaves as many rows and entries; `keyed` says that the object has a
      primary key, so that its lists are there already. */
  ghost predicate SteadyVal(sch: Schema, keyed: bool, k: Kind, v: Val)
    decreases v
  {
    match v
    case Link(t) => t.Some? ==> Steady(sch, t.value)
    case Links(elems) => forall i :: 0 <= i < |elems| ==> SteadyElem(sch, elems[i]) && (keyed ==> elems[i].None?)
    case Items(items) => keyed ==> k.KList? && (k.write.Replace? || items == [])
    case _ => true
  }

  ghost predicate SteadyElem(sch: Schema, e: Option<Obj>)
    decreases e
  {
    e.Some? ==> Steady(sch, e.value)
  }

  /** Every object of the graph has a primary key or is embedded, and those with a key add nothing to
      a list. */
  ghost predicate Steady(sch: Schema, o: Obj)
    decreases o
  {
    && (HasKey(sch, o) || EmbeddedClass(sch, o.cls)) && o.cls in sch && |o.vals| == |sch[o.cls].props|
    && forall i :: 0 <= i < |o.vals| ==> SteadyVal(sch, HasKey(sch, o), sch[o.cls].props[i], o.vals[i])
  }

  predicate NotBefore(from: nat, ref: Ref) {
    ref.Auto? ==> ref.n >= from
  }

  /** The writes are those of the column's kind; rows numbered before `from` get none; a steady graph
      makes no keyed row's list longer and no plain row without a key. */
  ghost predicate WorkFacts(sch: Schema, from: nat, r: Ref, c: nat, w: Work, steady: bool) {
    && (if r.cls in sch && c < |sch[r.cls].props| then AllOf(sch[r.cls].props[c], w.steps) else w.steps == [])
    && (r.Auto? && r.n < from ==> w.steps == [] && !w.made)
    && (steady && r.Keyed? ==> TotalGrowth(w.steps) == 0)
    && (steady && w.made ==> r.Keyed? || EmbeddedClass(sch, r.cls))
  }

  lemma ThenFacts(sch: Schema, from: nat, r: Ref, c: nat, a: Work, b: Work, steady: bool, steady': bool)
    requires WorkFacts(sch, from, r, c, a, steady) && WorkFacts(sch, from, r, c, b, steady')
    ensures WorkFacts(sch, from, r, c, Then(a, b), steady && steady')
  {
    TotalGrowthJoined(a.steps, b.steps);
  }

  /** Column `col` of `ref` is not an older row's, or is not the cell in question. */
  predicate Covered(from: nat, ref: Ref, col: nat, r: Ref, c: nat) {
    NotBefore(from, ref) || r != ref || c != col
  }

  lemma OnceFacts(sch: Schema, from: nat, ref: Ref, col: nat, e: Step, own: nat, t: Ref, r: Ref, c: nat, here: bool)
    requires Covered(from, ref, col, r, c) && NotBefore(from, t)
    requires ref.cls in sch && col < |sch[ref.cls].props| && StepOf(sch[ref.cls].props[col], e)
    requires here ==> r == ref && c == col
    ensures WorkFacts(sch, from, r, c, Work(own, Once(here, e), r == t),
                      (here && r.Keyed? ==> Growth(e) == 0) && (t.Keyed? || EmbeddedClass(sch, t.cls)))
  {
  }

  lemma SteadyHasRow(sch: Schema, n: nat, o: Obj)
    requires Steady(sch, o)
    ensures RefOf(sch, n, o).Keyed? || EmbeddedClass(sch, RefOf(sch, n, o).cls)
  {
  }

  lemma {:induction false} ObjFacts(sch: Schema, from: nat, n: nat, o: Obj, placing: seq<Step>, steady: bool, r: Ref, c: nat)
    requires ValidSchema(sch) && Typed(sch, o) && from <= n
    requires WorkFacts(sch, from, r, c, Work(Own(sch, o), placing, r == RefOf(sch, n, o)), steady)
    ensures WorkFacts(sch, from, r, c, ObjWork(sch, n, o, placing, r, c), steady && Steady(sch, o))
    decreases o
  {
    var t := RefOf(sch, n, o);
    TypedHasKey(sch, o);
    PropsFacts(sch, from, n + Own(sch, o), t, o.vals, 0, r, c);
    ThenFacts(sch, from, r, c, Work(Own(sch, o), placing, r == t), PropsWork(sch, n + Own(sch, o), t, o.vals, 0, r, c), steady,
              SteadyFrom(sch, t, o.vals, 0));
  }

  ghost predicate SteadyFrom(sch: Schema, ref: Ref, vals: seq<Val>, i: nat)
    requires ref.cls in sch && |vals| == |sch[ref.cls].props|
  {
    forall j :: i <= j < |vals| ==> SteadyVal(sch, ref.Keyed?, sch[ref.cls].props[j], vals[j])
  }

  lemma {:induction false} ValFacts(sch: Schema, from: nat, n: nat, ref: Ref, col: nat, v: Val, r: Ref, c: nat)
    requires ValidSchema(sch) && SuitsCol(sch, ref, col, v) && from <= n && Covered(from, ref, col, r, c)
    ensures WorkFacts(sch, from, r, c, ValWork(sch, n, ref, col, v, r, c), SteadyVal(sch, ref.Keyed?, sch[ref.cls].props[col], v))
    decreases v
  {
    var here := r == ref && c == col;
    match v
    case Link(Some(o)) =>
      var t := RefOf(sch, n, o);
      OnceFacts(sch, from, ref, col, Put(CLink(Some(t))), Own(sch, o), t, r, c, here);
      ObjFacts(sch, from, n, o, Once(here, Put(CLink(Some(t)))), t.Keyed? || EmbeddedClass(sch, t.cls), r, c);
      if Steady(sch, o) { SteadyHasRow(sch, n, o); }
      assert SteadyVal(sch, ref.Keyed?, sch[ref.cls].props[col], v) == Steady(sch, v.target.value);
    case Links(elems) => ElemsFacts(sch, from, n, ref, col, elems, 0, r, c);
    case Link(None) =>
    case Backlinks =>
    case _ => PlainFacts(sch, from, ref, col, v, r, c);
  }

  lemma PlainFacts(sch: Schema, from: nat, ref: Ref, col: nat, v: Val, r: Ref, c: nat)
    requires SuitsCol(sch, ref, col, v) && Covered(from, ref, col, r, c) && Plain(v)
    ensures WorkFacts(sch, from, r, c, Work(0, Once(r == ref && c == col, PlainStep(sch, ref, col, v)), false),
                      SteadyVal(sch, ref.Keyed?, sch[ref.cls].props[col], v))
  {
  }

  lemma {:induction false} PropsFacts(sch: Schema, from: nat, n: nat, ref: Ref, vals: seq<Val>, i: nat, r: Ref, c: nat)
    requires ValidSchema(sch) && Suits(sch, ref, vals) && from <= n && (NotBefore(from, ref) || r != ref) && i <= |vals|
    ensures WorkFacts(sch, from, r, c, PropsWork(sch, n, ref, vals, i, r, c), SteadyFrom(sch, ref, vals, i))
    decreases vals, |vals| - i
  {
    if i < |vals| {
      var w := ValWork(sch, n, ref, i, vals[i], r, c);
      ValFacts(sch, from, n, ref, i, vals[i], r, c);
      PropsFacts(sch, from, n + w.rows, ref, vals, i + 1, r, c);
      ThenFacts(sch, from, r, c, w, PropsWork(sch, n + w.rows, ref, vals, i + 1, r, c),
                SteadyVal(sch, ref.Keyed?, sch[ref.cls].props[i], vals[i]), SteadyFrom(sch, ref, vals, i + 1));
    }
  }

  ghost predicate SteadyElems(sch: Schema, keyed: bool, elems: seq<Option<Obj>>, i: nat) {
    forall j :: i <= j < |elems| ==> SteadyElem(sch, elems[j]) && (keyed ==> elems[j].None?)
  }

  lemma {:induction false} ElemsFacts(sch: Schema, from: nat, n: nat, ref: Ref, col: nat, elems: seq<Option<Obj>>, i: nat, r: Ref, c: nat)
    requires ValidSchema(sch) && SuitsCol(sch, ref, col, Links(elems)) && from <= n && Covered(from, ref, col, r, c) && i <= |elems|
    ensures WorkFacts(sch, from, r, c, ElemsWork(sch, n, ref, col, elems, i, r, c), SteadyElems(sch, ref.Keyed?, elems, i))
    decreases elems, |elems| - i
  {
    if i < |elems| {
      var w := ElemWork(sch, n, ref, col, i, elems[i], r, c);
      assert TypedElem(sch, sch[ref.cls].props[col].target, elems[i]);
      ElemFacts(sch, from, n, ref, col, i, elems[i], r, c);
      ElemsFacts(sch, from, n + w.rows, ref, col, elems, i + 1, r, c);
      ThenFacts(sch, from, r, c, w, ElemsWork(sch, n + w.rows, ref, col, elems, i + 1, r, c),
                SteadyElem(sch, elems[i]) && (ref.Keyed? ==> elems[i].None?), SteadyElems(sch, ref.Keyed?, elems, i + 1));
    }
  }

  lemma {:induction false} ElemFacts(sch: Schema, from: nat, n: nat, ref: Ref, col: nat, i: nat, e: Option<Obj>, r: Ref, c: nat)
    requires ValidSchema(sch) && from <= n && Covered(from, ref, col, r, c)
    requires ref.cls in sch && col < |sch[ref.cls].props| && sch[ref.cls].props[col].KLinks?
    requires TypedElem(sch, sch[ref.cls].props[col].target, e)
    ensures WorkFacts(sch, from, r, c, ElemWork(sch, n, ref, col, i, e, r, c), SteadyElem(sch, e) && (ref.Keyed? ==> e.None?))
    decreases e
  {
    if e.Some? {
      var o := e.value;
      var t := RefOf(sch, n, o);
      var here, embedded := r == ref && c == col, EmbeddedClass(sch, o.cls);
      var steady := SteadyElem(sch, e) && !ref.Keyed?;
      if steady { SteadyHasRow(sch, n, o); }
      var work := ObjWork(sch, n, o, Once(here && embedded, Insert(i, t)), r, c);
      assert WorkFacts(sch, from, r, c, work, steady) by {
        OnceFacts(sch, from, ref, col, Insert(i, t), Own(sch, o), t, r, c, here && embedded);
        ObjFacts(sch, from, n, o, Once(here && embedded, Insert(i, t)), steady, r, c);
      }
      var push := Work(0, Once(here && !embedded, Push(t)), false);
      assert WorkFacts(sch, from, r, c, push, steady);
      ThenFacts(sch, from, r, c, work, push, steady, steady);
    }
  }

  lemma AddFacts(sch: Schema, n: nat, o: Obj, r: Ref, c: nat)
    requires ValidSchema(sch) && Typed(sch, o)
    ensures WorkFacts(sch, n, r, c, ObjWork(sch, n, o, [], r, c), Steady(sch, o))
  {
    var t := RefOf(sch, n, o);
    if Steady(sch, o) { SteadyHasRow(sch, n, o); }
    ObjFacts(sch, n, n, o, [], t.Keyed? || EmbeddedClass(sch, t.cls), r, c);
  }

  // ----- what a graph that is not steady makes

  /** The list of a keyed row is made longer, or a row is made that has neither a key nor an owner. */
  ghost predicate Grows(sch: Schema, n: nat, ref: Option<Ref>, r: Ref, c: nat, w: Work) {
    if r.Keyed? then
      && r.cls in sch && c < |sch[r.cls].props| && (sch[r.cls].props[c].KLinks? || (sch[r.cls].props[c].KList? && !sch[r.cls].props[c].write.Replace?))
      && TotalGrowth(w.steps) > 0 && (ref == Some(r) || (w.made && !IsEmbedded(sch, r)))
    else r.n >= n && !IsEmbedded(sch, r) && w.made
  }

  lemma GrowsThen(sch: Schema, n: nat, n': nat, ref: Option<Ref>, r: Ref, c: nat, a: Work, b: Work)
    requires n <= n' && (Grows(sch, n, ref, r, c, a) || Grows(sch, n', ref, r, c, b))
    ensures Grows(sch, n, ref, r, c, Then(a, b))
  {
    TotalGrowthJoined(a.steps, b.steps);
  }

  lemma {:induction false} ObjGrows(sch: Schema, n: nat, o: Obj) returns (r: Ref, c: nat)
    requires ValidSchema(sch) && Typed(sch, o) && !Steady(sch, o)
    ensures forall placing :: Grows(sch, n, None, r, c, ObjWork(sch, n, o, placing, r, c))
    decreases o
  {
    var t := RefOf(sch, n, o);
    TypedHasKey(sch, o);
    if !HasKey(sch, o) && !EmbeddedClass(sch, o.cls) {
      r, c := t, 0;
    } else {
      r, c := PropsGrow(sch, n + Own(sch, o), t, o.vals, 0);
      forall placing ensures Grows(sch, n, None, r, c, ObjWork(sch, n, o, placing, r, c)) {
        TotalGrowthJoined(placing, PropsWork(sch, n + Own(sch, o), t, o.vals, 0, r, c).steps);
      }
    }
  }

  lemma {:induction false} PropsGrow(sch: Schema, n: nat, ref: Ref, vals: seq<Val>, i: nat) returns (r: Ref, c: nat)
    requires ValidSchema(sch) && Suits(sch, ref, vals) && i <= |vals| && !SteadyFrom(sch, ref, vals, i)
    ensures Grows(sch, n, Some(ref), r, c, PropsWork(sch, n, ref, vals, i, r, c))
    decreases vals, |vals| - i
  {
    if !SteadyVal(sch, ref.Keyed?, sch[ref.cls].props[i], vals[i]) {
      r, c := ValGrows(sch, n, ref, i, vals[i]);
    } else {
      var rows := ValWork(sch, n, ref, i, vals[i], ref, 0).rows;
      r, c := PropsGrow(sch, n + rows, ref, vals, i + 1);
      ValRows(sch, n, ref, i, vals[i], ref, 0, r, c);
    }
    var w := ValWork(sch, n, ref, i, vals[i], r, c);
    GrowsThen(sch, n, n + w.rows, Some(ref), r, c, w, PropsWork(sch, n + w.rows, ref, vals, i + 1, r, c));
  }

  lemma {:induction false} ValGrows(sch: Schema, n: nat, ref: Ref, col: nat, v: Val) returns (r: Ref, c: nat)
    requires ValidSchema(sch) && SuitsCol(sch, ref, col, v) && !SteadyVal(sch, ref.Keyed?, sch[ref.cls].props[col], v)
    ensures Grows(sch, n, Some(ref), r, c, ValWork(sch, n, ref, col, v, r, c))
    decreases v
  {
    match v
    case Link(Some(o)) =>
      r, c := ObjGrows(sch, n, o);
      assert Grows(sch, n, None, r, c, ObjWork(sch, n, o, Once(r == ref && c == col, Put(CLink(Some(RefOf(sch, n, o))))), r, c));
    case Links(elems) => r, c := ElemsGrow(sch, n, ref, col, elems, 0);
    case Items(items) =>
      r, c := ref, col;
      var e := PlainStep(sch, ref, col, v);
      assert Once(true, e)[1..] == [] && TotalGrowth(Once(true, e)) == Growth(e);
  }

  lemma ElemsGrowOnce(sch: Schema, n: nat, ref: Ref, col: nat, elems: seq<Option<Obj>>, i: nat, r: Ref, c: nat, w: Work)
    requires i < |elems| && w == ElemWork(sch, n, ref, col, i, elems[i], r, c)
    requires Grows(sch, n, Some(ref), r, c, w) || Grows(sch, n + w.rows, Some(ref), r, c, ElemsWork(sch, n + w.rows, ref, col, elems, i + 1, r, c))
    ensures Grows(sch, n, Some(ref), r, c, ElemsWork(sch, n, ref, col, elems, i, r, c))
  {
    GrowsThen(sch, n, n + w.rows, Some(ref), r, c, w, ElemsWork(sch, n + w.rows, ref, col, elems, i + 1, r, c));
  }

  lemma {:induction false} ElemsGrow(sch: Schema, n: nat, ref: Ref, col: nat, elems: seq<Option<Obj>>, i: nat) returns (r: Ref, c: nat)
    requires ValidSchema(sch) && SuitsCol(sch, ref, col, Links(elems)) && i <= |elems| && !SteadyElems(sch, ref.Keyed?, elems, i)
    ensures Grows(sch, n, Some(ref), r, c, ElemsWork(sch, n, ref, col, elems, i, r, c))
    decreases elems, |elems| - i
  {
    if !(SteadyElem(sch, elems[i]) && (ref.Keyed? ==> elems[i].None?)) {
      r, c := ElemGrows(sch, n, ref, col, i, elems[i]) by { assert TypedElem(sch, sch[ref.cls].props[col].target, elems[i]); }
    } else {
      var rows := ElemWork(sch, n, ref, col, i, elems[i], ref, 0).rows;
      r, c := ElemsGrow(sch, n + rows, ref, col, elems, i + 1);
      ElemRows(sch, n, ref, col, i, elems[i], ref, 0, r, c);
    }
    ElemsGrowOnce(sch, n, ref, col, elems, i, r, c, ElemWork(sch, n, ref, col, i, elems[i], r, c));
  }

  lemma {:induction false} ElemGrows(sch: Schema, n: nat, ref: Ref, col: nat, i: nat, e: Option<Obj>) returns (r: Ref, c: nat)
    requires ValidSchema(sch) && e.Some? && (ref.Keyed? || !Steady(sch, e.value))
    requires ref.cls in sch && col < |sch[ref.cls].props| && sch[ref.cls].props[col].KLinks? && Typed(sch, e.value)
    ensures Grows(sch, n, Some(ref), r, c, ElemWork(sch, n, ref, col, i, e, r, c))
    decreases e
  {
    var o := e.value;
    var t, embedded := RefOf(sch, n, o), EmbeddedClass(sch, o.cls);
    if !Steady(sch, o) {
      r, c := ObjGrows(sch, n, o);
    } else {
      r, c := ref, col;
    }
    var here := r == ref && c == col;
    var w := ObjWork(sch, n, o, Once(here && embedded, Insert(i, t)), r, c);
    if Steady(sch, o) {
      TotalGrowthJoined(Once(embedded, Insert(i, t)), PropsWork(sch, n + Own(sch, o), t, o.vals, 0, r, c).steps);
    } else {
      assert Grows(sch, n, None, r, c, w);
    }
    TotalGrowthJoined(w.steps, Once(here && !embedded, Push(t)));
  }

  // ----- graphs that number no row

  /** Writing the property again changes nothing. */
  ghost predicate Repeats(sch: Schema, k: Kind, v: Val)
    decreases v
  {
    match v
    case Link(t) => t.Some? ==> RepeatsObj(sch, t.value)
    case Links(elems) => forall i :: 0 <= i < |elems| ==> elems[i].None?
    case Items(items) => k.KList? && (k.write.Replace? || items == [])
    case _ => true
  }

  /** An object with a primary key all of whose properties overwrite or merge: no list appends or
      inserts, and everything linked is of this kind too. */
  ghost predicate RepeatsObj(sch: Schema, o: Obj)
    decreases o
  {
    && HasKey(sch, o) && |o.vals| == |sch[o.cls].props|
    && forall i :: 0 <= i < |o.vals| ==> Repeats(sch, sch[o.cls].props[i], o.vals[i])
  }

  /** The graphs that can be added again and number no row. */
  lemma {:induction false} RepeatsObjNumbersNone(sch: Schema, n: nat, o: Obj, placing: seq<Step>, r: Ref, c: nat)
    requires ValidSchema(sch) && Typed(sch, o)
    ensures RepeatsObj(sch, o) <==> Steady(sch, o) && ObjWork(sch, n, o, placing, r, c).rows == 0
    decreases o
  {
    TypedHasKey(sch, o);
    if HasKey(sch, o) { RepeatsPropsNumberNone(sch, n, Keyed(o.cls, KeyOf(sch, o)), o.vals, 0, r, c); }
  }

  ghost predicate RepeatsFrom(sch: Schema, ref: Ref, vals: seq<Val>, i: nat)
    requires ref.cls in sch && |vals| == |sch[ref.cls].props|
  {
    forall j :: i <= j < |vals| ==> Repeats(sch, sch[ref.cls].props[j], vals[j])
  }

  lemma {:induction false} RepeatsPropsNumberNone(sch: Schema, n: nat, ref: Ref, vals: seq<Val>, i: nat, r: Ref, c: nat)
    requires ValidSchema(sch) && Suits(sch, ref, vals) && ref.Keyed? && i <= |vals|
    ensures RepeatsFrom(sch, ref, vals, i) <==> SteadyFrom(sch, ref, vals, i) && PropsWork(sch, n, ref, vals, i, r, c).rows == 0
    decreases vals, |vals| - i
  {
    if i < |vals| {
      var rows := ValWork(sch, n, ref, i, vals[i], r, c).rows;
      RepeatsNumbersNone(sch, n, ref, i, vals[i], r, c);
      RepeatsPropsNumberNone(sch, n + rows, ref, vals, i + 1, r, c);
      PropsRowsAre(sch, n, rows, ref, vals, i, r, c);
      FirstThenRest(sch, ref, vals, i);
    }
  }

  lemma FirstThenRest(sch: Schema, ref: Ref, vals: seq<Val>, i: nat)
    requires ref.cls in sch && |vals| == |sch[ref.cls].props| && i < |vals|
    ensures RepeatsFrom(sch, ref, vals, i) <==> Repeats(sch, sch[ref.cls].props[i], vals[i]) && RepeatsFrom(sch, ref, vals, i + 1)
    ensures SteadyFrom(sch, ref, vals, i) <==> SteadyVal(sch, ref.Keyed?, sch[ref.cls].props[i], vals[i]) && SteadyFrom(sch, ref, vals, i + 1)
  {
  }

  lemma {:induction false} RepeatsNumbersNone(sch: Schema, n: nat, ref: Ref, col: nat, v: Val, r: Ref, c: nat)
    requires ValidSchema(sch) && SuitsCol(sch, ref, col, v) && ref.Keyed?
    ensures var k := sch[ref.cls].props[col];
            Repeats(sch, k, v) <==> SteadyVal(sch, true, k, v) && ValWork(sch, n, ref, col, v, r, c).rows == 0
    decreases v
  {
    match v
    case Link(Some(o)) => RepeatsObjNumbersNone(sch, n, o, Once(r == ref && c == col, Put(CLink(Some(RefOf(sch, n, o))))), r, c);
    case Links(elems) =>
      if Repeats(sch, sch[ref.cls].props[col], v) {
        NoElemsNumberNone(sch, n, ref, col, elems, 0, r, c);
        assert forall i :: 0 <= i < |elems| ==> SteadyElem(sch, elems[i]);
      } else {
        var i :| 0 <= i < |elems| && elems[i].Some?;
        assert !SteadyVal(sch, true, sch[ref.cls].props[col], v);
      }
    case _ =>
  }

  lemma {:induction false} NoElemsNumberNone(sch: Schema, n: nat, ref: Ref, col: nat, elems: seq<Option<Obj>>, i: nat, r: Ref, c: nat)
    requires i <= |elems| && forall j :: 0 <= j < |elems| ==> elems[j].None?
    ensures ElemsWork(sch, n, ref, col, elems, i, r, c).rows == 0
    decreases |elems| - i
  {
    if i < |elems| { NoElemsNumberNone(sch, n, ref, col, elems, i + 1, r, c); }
  }
}
