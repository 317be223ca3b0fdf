/** The same graph written to two tables: what succeeds in the first succeeds in the second, and does the
    same there, the rows being numbered higher. */
module TwoRuns {
  import opened Wrappers
  import opened Store
  import opened Graph
  import opened GraphInvariant
  import opened Cells
  import opened Renumber
  import opened SteadyGraphs

  /** At this cell, what is done from `st` to `st'` is done from `u` to `u'`, with the numbers from
      `from` on `k` higher, and makes no list of a keyed row longer. */
  ghost predicate AlikeBy(sch: Schema, from: nat, k: nat, st: Tables, st': Tables, u: Tables, u': Tables, r: Ref, c: nat, w: Work) {
    && Does(sch, st, st', r, c, w) && Does(sch, u, u', Moved(from, k, r), c, MovedWork(from, k, w))
    && WorkFacts(sch, from, r, c, w, true)
  }

  ghost predicate AlikeAt(sch: Schema, from: nat, k: nat, st: Tables, st': Tables, u: Tables, u': Tables, r: Ref, c: nat) {
    exists w: Work :: AlikeBy(sch, from, k, st, st', u, u', r, c, w)
  }

  ghost predicate Alike(sch: Schema, from: nat, k: nat, st: Tables, st': Tables, u: Tables, u': Tables) {
    forall r, c :: AlikeAt(sch, from, k, st, st', u, u', r, c)
  }

  lemma AlikeThen(sch: Schema, from: nat, k: nat, st: Tables, st1: Tables, st2: Tables, u: Tables, u1: Tables, u2: Tables)
    requires Alike(sch, from, k, st, st1, u, u1) && Alike(sch, from, k, st1, st2, u1, u2)
    ensures Alike(sch, from, k, st, st2, u, u2)
  {
    forall r, c ensures AlikeAt(sch, from, k, st, st2, u, u2, r, c) {
      assert AlikeAt(sch, from, k, st, st1, u, u1, r, c) && AlikeAt(sch, from, k, st1, st2, u1, u2, r, c);
      var a :| AlikeBy(sch, from, k, st, st1, u, u1, r, c, a);
      var b :| AlikeBy(sch, from, k, st1, st2, u1, u2, r, c, b);
      AlikeByThen(sch, from, k, st, st1, st2, u, u1, u2, r, c, a, b);
    }
  }

  lemma AlikeByThen(sch: Schema, from: nat, k: nat, st: Tables, st1: Tables, st2: Tables, u: Tables, u1: Tables, u2: Tables, r: Ref, c: nat, a: Work, b: Work)
    requires AlikeBy(sch, from, k, st, st1, u, u1, r, c, a) && AlikeBy(sch, from, k, st1, st2, u1, u2, r, c, b)
    ensures AlikeBy(sch, from, k, st, st2, u, u2, r, c, Then(a, b))
  {
    DoesThen(sch, st, st1, st2, r, c, a, b);
    DoesThen(sch, u, u1, u2, Moved(from, k, r), c, MovedWork(from, k, a), MovedWork(from, k, b));
    ThenMoves(from, k, a, b);
    ThenFacts(sch, from, r, c, a, b, true, true);
  }

  /** The tables two runs start from, and how much higher the numbers from `from` on are in the second. */
  datatype Start = Start(from: nat, k: nat, st: Tables, u: Tables)

  /** Two runs of the same writes, from `a.st` to `st` and from `a.u` to `u`. */
  ghost predicate Parallel(sch: Schema, a: Start, st: Tables, u: Tables) {
    && ValidSchema(sch) && WellFormed(sch, a.st) && WellFormed(sch, a.u) && WellFormed(sch, st) && WellFormed(sch, u)
    && (forall r :: r in a.st.rows && r.Keyed? ==> r in a.u.rows)
    && a.st.next == a.from && a.u.next == a.from + a.k && a.from <= st.next && u.next == st.next + a.k
    && Alike(sch, a.from, a.k, a.st, st, a.u, u)
  }

  /** One more write, to both tables. */
  ghost predicate Both(sch: Schema, from: nat, k: nat, st: Tables, st': Tables, u: Tables, u': Tables) {
    WellFormed(sch, st') && WellFormed(sch, u') && Alike(sch, from, k, st, st', u, u')
  }

  lemma ParallelThen(sch: Schema, a: Start, st: Tables, st': Tables, u: Tables, u': Tables)
    requires Parallel(sch, a, st, u) && Both(sch, a.from, a.k, st, st', u, u')
    ensures Parallel(sch, a, st', u')
  {
    AlikeThen(sch, a.from, a.k, a.st, st, st', a.u, u, u');
    var r := Auto("", 0);
    assert AlikeAt(sch, a.from, a.k, st, st', u, u', r, 0);
    var w :| AlikeBy(sch, a.from, a.k, st, st', u, u', r, 0, w);
  }

  // ----- the rows and cells of the graph are the same in both

  /** Rows that were there before link to such rows only. */
  lemma OldTargets(sch: Schema, st: Tables, r: Ref, c: nat)
    requires WellFormed(sch, st) && (r.Auto? ==> r.n < st.next)
    ensures forall t :: t in Targets(CellIn(sch, st, r, c)) && t.Auto? ==> t.n < st.next
  {
    forall t | t in Targets(CellIn(sch, st, r, c)) && t.Auto? ensures t.n < st.next {
      var ts := Targets(CellIn(sch, st, r, c));
      var i :| 0 <= i < |ts| && ts[i] == t;
      assert r in st.rows && At(st.rows, Slot(r, c, i)) == Some(t);
    }
  }

  lemma NewCell(sch: Schema, a: Start, st: Tables, u: Tables, r: Ref, c: nat, w: Work)
    requires RowsFit(sch, a.st) && RowsFit(sch, a.u) && a.st.next == a.from && a.u.next == a.from + a.k
    requires AlikeBy(sch, a.from, a.k, a.st, st, a.u, u, r, c, w)
    requires r.Auto? && r.n >= a.from && r in st.rows && Moved(a.from, a.k, r) in u.rows
    ensures CellIn(sch, u, Moved(a.from, a.k, r), c) == MovedCell(a.from, a.k, CellIn(sch, st, r, c))
  {
    var c0 := CellIn(sch, a.st, r, c);
    assert r !in a.st.rows && Moved(a.from, a.k, r) !in a.u.rows;
    assert CellIn(sch, a.u, Moved(a.from, a.k, r), c) == c0 == MovedCell(a.from, a.k, c0);
    RunMoves(a.from, a.k, w.steps, c0);
  }

  lemma MovedSlot(st1: Tables, st2: Tables, from: nat, k: nat, r: Ref, r': Ref, c: nat, i: nat)
    requires Live(st1, r, c) && Live(st2, r', c) && st2.rows[r'][c] == MovedCell(from, k, st1.rows[r][c])
    ensures At(st1.rows, Slot(r, c, i)).Some? <==> At(st2.rows, Slot(r', c, i)).Some?
    ensures At(st1.rows, Slot(r, c, i)).Some? ==> At(st2.rows, Slot(r', c, i)).value == Moved(from, k, At(st1.rows, Slot(r, c, i)).value)
  {
  }

  /** A cell of an older row that links to a row of the graph was overwritten, in both tables. */
  lemma OldCellLinked(sch: Schema, a: Start, st: Tables, u: Tables, r: Ref, c: nat, w: Work, t: Ref)
    requires WellFormed(sch, a.st) && a.st.next == a.from && AlikeBy(sch, a.from, a.k, a.st, st, a.u, u, r, c, w)
    requires (r.Auto? ==> r.n < a.from) && Live(st, r, c) && RowFits(sch, r, st.rows[r])
    requires t.Auto? && t.n >= a.from && t in Targets(st.rows[r][c])
    ensures r.Keyed? && (r in u.rows ==> CellIn(sch, u, r, c) == MovedCell(a.from, a.k, st.rows[r][c]))
  {
    var c0 := CellIn(sch, a.st, r, c);
    assert t !in Targets(c0) by { OldTargets(sch, a.st, r, c); }
    assert w.steps != [];
    var kind := sch[r.cls].props[c];
    NetRuns(kind, w.steps, c0);
    MovedKeepsKinds(a.from, a.k, kind, w.steps);
    NetRuns(kind, MovedSteps(a.from, a.k, w.steps), CellIn(sch, a.u, r, c));
    NetMoves(a.from, a.k, w.steps);
  }

  lemma {:induction false} RowMoves(sch: Schema, a: Start, st: Tables, u: Tables, r: Ref)
    requires Parallel(sch, a, st, u) && r in st.rows && NotBefore(a.from, r)
    ensures Moved(a.from, a.k, r) in u.rows
    decreases if r.Auto? then r.n + 1 else 0
  {
    if IsEmbedded(sch, r) {
      assert RowFits(sch, r, st.rows[r]) && ValidClass(sch, sch[r.cls]);
      var s: Slot :| Owns(sch, st.rows, s, r);
      assert RowFits(sch, s.owner, st.rows[s.owner]);
      if NotBefore(a.from, s.owner) { RowMoves(sch, a, st, u, s.owner); }
      OwnedMoves(sch, a, st, u, s, r);
    } else {
      assert AlikeAt(sch, a.from, a.k, a.st, st, a.u, u, r, 0);
      var w :| AlikeBy(sch, a.from, a.k, a.st, st, a.u, u, r, 0, w);
    }
  }

  lemma OwnedMoves(sch: Schema, a: Start, st: Tables, u: Tables, s: Slot, r: Ref)
    requires Parallel(sch, a, st, u) && r.Auto? && r.n >= a.from && At(st.rows, s) == Some(r)
    requires NotBefore(a.from, s.owner) ==> Moved(a.from, a.k, s.owner) in u.rows
    ensures Moved(a.from, a.k, r) in u.rows
  {
    var owner := Moved(a.from, a.k, s.owner);
    LinkedCellMoves(sch, a, st, u, s.owner, s.col, r);
    MovedSlot(st, u, a.from, a.k, s.owner, owner, s.col, s.idx);
  }

  lemma LinkedCellMoves(sch: Schema, a: Start, st: Tables, u: Tables, owner: Ref, c: nat, t: Ref)
    requires Parallel(sch, a, st, u) && t.Auto? && t.n >= a.from && Live(st, owner, c) && t in Targets(st.rows[owner][c])
    requires NotBefore(a.from, owner) ==> Moved(a.from, a.k, owner) in u.rows
    ensures var owner' := Moved(a.from, a.k, owner);
            Live(u, owner', c) && u.rows[owner'][c] == MovedCell(a.from, a.k, st.rows[owner][c])
  {
    assert AlikeAt(sch, a.from, a.k, a.st, st, a.u, u, owner, c);
    var w :| AlikeBy(sch, a.from, a.k, a.st, st, a.u, u, owner, c, w);
    assert RowFits(sch, owner, st.rows[owner]);
    if owner.Auto? && owner.n >= a.from {
      NewCell(sch, a, st, u, owner, c, w);
    } else {
      OldCellLinked(sch, a, st, u, owner, c, w, t);
    }
    assert RowFits(sch, Moved(a.from, a.k, owner), u.rows[Moved(a.from, a.k, owner)]);
  }

  lemma LiveMoves(sch: Schema, a: Start, st: Tables, u: Tables, ref: Ref, col: nat)
    requires Parallel(sch, a, st, u) && Live(st, ref, col) && NotBefore(a.from, ref)
    ensures Live(u, Moved(a.from, a.k, ref), col)
  {
    var ref' := Moved(a.from, a.k, ref);
    RowMoves(sch, a, st, u, ref);
    assert RowFits(sch, ref, st.rows[ref]) && RowFits(sch, ref', u.rows[ref']);
  }

  // ----- each write that succeeds in the first tables succeeds in the second

  /** What the row that is written to has to be. */
  ghost predicate Target(sch: Schema, from: nat, st: Tables, ref: Ref, col: nat, v: Val) {
    && Known(st, ref) && NotBefore(from, ref) && SuitsCol(sch, ref, col, v)
    && SteadyVal(sch, ref.Keyed?, sch[ref.cls].props[col], v)
  }

  lemma PlainParallel(sch: Schema, a: Start, st: Tables, u: Tables, ref: Ref, col: nat, v: Val, w: Out, w': Out)
    requires Parallel(sch, a, st, u) && Target(sch, a.from, st, ref, col, v) && Plain(v)
    requires w == WriteVal(sch, st, ref, col, v) && w' == WriteVal(sch, u, Moved(a.from, a.k, ref), col, v) && w.ok
    ensures w'.ok && Parallel(sch, a, w.st, w'.st)
  {
    PlainOk(sch, a, st, u, ref, col, v);
    PlainBoth(sch, a.from, a.k, st, u, ref, col, v, w, w');
    ParallelThen(sch, a, st, w.st, u, w'.st);
  }

  lemma PlainBoth(sch: Schema, from: nat, k: nat, st: Tables, u: Tables, ref: Ref, col: nat, v: Val, w: Out, w': Out)
    requires ValidSchema(sch) && WellFormed(sch, st) && WellFormed(sch, u) && Known(st, ref) && Known(u, Moved(from, k, ref))
    requires NotBefore(from, ref) && SuitsCol(sch, ref, col, v) && SteadyVal(sch, ref.Keyed?, sch[ref.cls].props[col], v) && Plain(v)
    requires w == WriteVal(sch, st, ref, col, v) && w' == WriteVal(sch, u, Moved(from, k, ref), col, v) && w.ok && w'.ok
    ensures Both(sch, from, k, st, w.st, u, w'.st)
  {
    WriteValKeeps(sch, st, ref, col, v);
    WriteValKeeps(sch, u, Moved(from, k, ref), col, v);
    forall r, c ensures AlikeAt(sch, from, k, st, w.st, u, w'.st, r, c) {
      PlainDoes(sch, st, ref, col, v, r, c);
      PlainDoes(sch, u, Moved(from, k, ref), col, v, Moved(from, k, r), c);
      PlainWorkMoves(sch, from, k, ref, col, v, r, c);
      assert AlikeBy(sch, from, k, st, w.st, u, w'.st, r, c, Work(0, Once(r == ref && c == col, PlainStep(sch, ref, col, v)), false));
    }
  }

  lemma PlainWorkMoves(sch: Schema, from: nat, k: nat, ref: Ref, col: nat, v: Val, r: Ref, c: nat)
    requires NotBefore(from, ref) && SuitsCol(sch, ref, col, v) && SteadyVal(sch, ref.Keyed?, sch[ref.cls].props[col], v) && Plain(v)
    ensures var w := Work(0, Once(r == ref && c == col, PlainStep(sch, ref, col, v)), false);
            var r', ref' := Moved(from, k, r), Moved(from, k, ref);
            && WorkFacts(sch, from, r, c, w, true)
            && MovedWork(from, k, w) == Work(0, Once(r' == ref' && c == col, PlainStep(sch, ref', col, v)), false)
  {
    OnceMoves(from, k, r == ref && c == col, PlainStep(sch, ref, col, v));
    PlainFacts(sch, from, ref, col, v, r, c);
  }

  lemma PlainOk(sch: Schema, a: Start, st: Tables, u: Tables, ref: Ref, col: nat, v: Val)
    requires Parallel(sch, a, st, u) && Target(sch, a.from, st, ref, col, v) && Plain(v) && WriteVal(sch, st, ref, col, v).ok
    ensures var ref' := Moved(a.from, a.k, ref);
            WriteVal(sch, u, ref', col, v).ok && Known(u, ref') && SuitsCol(sch, ref', col, v)
  {
    var ref' := Moved(a.from, a.k, ref);
    if Live(st, ref, col) {
      LiveMoves(sch, a, st, u, ref, col);
      assert RowFits(sch, ref', u.rows[ref']);
      PlainIsSet(sch, u, ref', col, v);
    }
    if ref in st.rows { RowMoves(sch, a, st, u, ref); }
  }

  /** Placing the row of a linked object, in both tables. */
  lemma PlaceLinkParallel(sch: Schema, a: Start, st: Tables, u: Tables, ref: Ref, col: nat, o: Obj, m: Made, m': Made)
    requires Parallel(sch, a, st, u) && Target(sch, a.from, st, ref, col, Link(Some(o)))
    requires m == PlaceLink(sch, st, ref, col, o) && m' == PlaceLink(sch, u, Moved(a.from, a.k, ref), col, o) && m.ok
    ensures m'.ok && Placed(sch, a, st, m, m', o)
  {
    PlaceLinkOk(sch, a, st, u, ref, col, o, m, m');
    PlaceLinkBoth(sch, a.from, a.k, st, u, ref, col, o, m, m');
    ParallelThen(sch, a, st, m.st, u, m'.st);
  }

  /** The rows made for `o` in the two tables. */
  ghost predicate Placed(sch: Schema, a: Start, st: Tables, m: Made, m': Made, o: Obj) {
    && Parallel(sch, a, m.st, m'.st) && m.ref == RefOf(sch, st.next, o) && m'.ref == Moved(a.from, a.k, m.ref)
    && m.ref in m.st.rows && NotBefore(a.from, m.ref) && Suits(sch, m.ref, o.vals) && SteadyFrom(sch, m.ref, o.vals, 0)
  }

  lemma PlaceLinkOk(sch: Schema, a: Start, st: Tables, u: Tables, ref: Ref, col: nat, o: Obj, m: Made, m': Made)
    requires Parallel(sch, a, st, u) && Target(sch, a.from, st, ref, col, Link(Some(o)))
    requires m == PlaceLink(sch, st, ref, col, o) && m' == PlaceLink(sch, u, Moved(a.from, a.k, ref), col, o) && m.ok
    ensures m'.ok
  {
    assert Live(st, ref, col) by { PlaceLinkLive(sch, a.from, st, ref, col, o); }
    assert Live(u, Moved(a.from, a.k, ref), col) by { LiveMoves(sch, a, st, u, ref, col); }
    LivePlaceLink(sch, a.from, st, ref, col, o, u, Moved(a.from, a.k, ref));
  }

  lemma PlaceLinkLive(sch: Schema, from: nat, st: Tables, ref: Ref, col: nat, o: Obj)
    requires ValidSchema(sch) && WellFormed(sch, st) && Target(sch, from, st, ref, col, Link(Some(o))) && PlaceLink(sch, st, ref, col, o).ok
    ensures Live(st, ref, col)
  {
    TypedHasKey(sch, o);
    if ref in st.rows { assert RowFits(sch, ref, st.rows[ref]); }
  }

  lemma LivePlaceLink(sch: Schema, from: nat, st: Tables, ref: Ref, col: nat, o: Obj, u: Tables, ref': Ref)
    requires ValidSchema(sch) && Target(sch, from, st, ref, col, Link(Some(o))) && Live(u, ref', col)
    ensures PlaceLink(sch, u, ref', col, o).ok
  {
    TypedHasKey(sch, o);
    SteadyHasRow(sch, st.next, o);
    assert ValidClass(sch, sch[o.cls]);
  }

  lemma PlaceLinkBoth(sch: Schema, from: nat, k: nat, st: Tables, u: Tables, ref: Ref, col: nat, o: Obj, m: Made, m': Made)
    requires ValidSchema(sch) && WellFormed(sch, st) && WellFormed(sch, u) && from <= st.next && u.next == st.next + k
    requires NotBefore(from, ref) && SuitsCol(sch, ref, col, Link(Some(o))) && Steady(sch, o)
    requires m == PlaceLink(sch, st, ref, col, o) && m' == PlaceLink(sch, u, Moved(from, k, ref), col, o) && m.ok && m'.ok
    ensures Both(sch, from, k, st, m.st, u, m'.st) && m.ref == RefOf(sch, st.next, o) && m'.ref == Moved(from, k, m.ref)
    ensures m.ref in m.st.rows && Suits(sch, m.ref, o.vals) && NotBefore(from, m.ref) && SteadyFrom(sch, m.ref, o.vals, 0)
  {
    PlaceLinkKeeps(sch, st, ref, col, o);
    PlaceLinkKeeps(sch, u, Moved(from, k, ref), col, o);
    forall r, c ensures AlikeAt(sch, from, k, st, m.st, u, m'.st, r, c) {
      PlaceLinkAlike(sch, from, k, st, u, ref, col, o, m, m', r, c);
    }
    PlaceLinkAlike(sch, from, k, st, u, ref, col, o, m, m', ref, col);
  }

  lemma PlaceLinkAlike(sch: Schema, from: nat, k: nat, st: Tables, u: Tables, ref: Ref, col: nat, o: Obj, m: Made, m': Made, r: Ref, c: nat)
    requires ValidSchema(sch) && WellFormed(sch, st) && WellFormed(sch, u) && from <= st.next && u.next == st.next + k
    requires NotBefore(from, ref) && SuitsCol(sch, ref, col, Link(Some(o))) && Steady(sch, o)
    requires m == PlaceLink(sch, st, ref, col, o) && m' == PlaceLink(sch, u, Moved(from, k, ref), col, o) && m.ok && m'.ok
    ensures AlikeAt(sch, from, k, st, m.st, u, m'.st, r, c) && m.ref == RefOf(sch, st.next, o) && m'.ref == Moved(from, k, m.ref)
  {
    var t := RefOf(sch, st.next, o);
    var w := Work(Own(sch, o), Once(r == ref && c == col, Put(CLink(Some(t)))), r == t);
    assert m.ref == t && Does(sch, st, m.st, r, c, w) by { PlaceLinkDoes(sch, st, ref, col, o, r, c); }
    LinkWorkMoves(sch, from, k, st.next, ref, col, o, r, c);
    assert m'.ref == Moved(from, k, t) && Does(sch, u, m'.st, Moved(from, k, r), c, MovedWork(from, k, w)) by {
      PlaceLinkDoes(sch, u, Moved(from, k, ref), col, o, Moved(from, k, r), c);
    }
    assert AlikeBy(sch, from, k, st, m.st, u, m'.st, r, c, w);
  }

  lemma LinkWorkMoves(sch: Schema, from: nat, k: nat, n: nat, ref: Ref, col: nat, o: Obj, r: Ref, c: nat)
    requires from <= n && NotBefore(from, ref) && SuitsCol(sch, ref, col, Link(Some(o))) && Steady(sch, o)
    ensures var t, t' := RefOf(sch, n, o), RefOf(sch, n + k, o);
            var r', ref' := Moved(from, k, r), Moved(from, k, ref);
            var w := Work(Own(sch, o), Once(r == ref && c == col, Put(CLink(Some(t)))), r == t);
            && t' == Moved(from, k, t) && WorkFacts(sch, from, r, c, w, true)
            && MovedWork(from, k, w) == Work(Own(sch, o), Once(r' == ref' && c == col, Put(CLink(Some(t')))), r' == t')
  {
    var t := RefOf(sch, n, o);
    OnceMoves(from, k, r == ref && c == col, Put(CLink(Some(t))));
    SteadyHasRow(sch, n, o);
    OnceFacts(sch, from, ref, col, Put(CLink(Some(t))), Own(sch, o), t, r, c, r == ref && c == col);
  }

  // ----- the recursion

  lemma {:induction false} ValParallel(sch: Schema, a: Start, st: Tables, u: Tables, ref: Ref, col: nat, v: Val, w: Out, w': Out)
    requires Parallel(sch, a, st, u) && Target(sch, a.from, st, ref, col, v)
    requires w == WriteVal(sch, st, ref, col, v) && w' == WriteVal(sch, u, Moved(a.from, a.k, ref), col, v) && w.ok
    ensures w'.ok && Parallel(sch, a, w.st, w'.st)
    decreases v
  {
    match v
    case Link(Some(o)) => LinkParallel(sch, a, st, u, ref, col, o, w, w');
    case Links(elems) =>
      LiveMoves(sch, a, st, u, ref, col);
      ElemsParallel(sch, a, st, u, ref, col, elems, 0, w, w');
    case Link(None) =>
    case Backlinks =>
    case _ => PlainParallel(sch, a, st, u, ref, col, v, w, w');
  }

  lemma {:induction false} LinkParallel(sch: Schema, a: Start, st: Tables, u: Tables, ref: Ref, col: nat, o: Obj, w: Out, w': Out)
    requires Parallel(sch, a, st, u) && Target(sch, a.from, st, ref, col, Link(Some(o)))
    requires w == WriteVal(sch, st, ref, col, Link(Some(o))) && w' == WriteVal(sch, u, Moved(a.from, a.k, ref), col, Link(Some(o))) && w.ok
    ensures w'.ok && Parallel(sch, a, w.st, w'.st)
    decreases o, 1
  {
    var m, m' := PlaceLink(sch, st, ref, col, o), PlaceLink(sch, u, Moved(a.from, a.k, ref), col, o);
    PlaceLinkParallel(sch, a, st, u, ref, col, o, m, m');
    PlacedParallel(sch, a, st, m, m', o, w, w');
  }

  lemma {:induction false} PlacedParallel(sch: Schema, a: Start, st: Tables, m: Made, m': Made, o: Obj, w: Out, w': Out)
    requires Placed(sch, a, st, m, m', o)
    requires w == WriteProps(sch, m.st, m.ref, o.vals, 0) && w' == WriteProps(sch, m'.st, m'.ref, o.vals, 0) && w.ok
    ensures w'.ok && Parallel(sch, a, w.st, w'.st) && (m.ref in w.st.rows || IsEmbedded(sch, m.ref))
    decreases o, 0
  {
    PropsParallel(sch, a, m.st, m'.st, m.ref, o.vals, 0, w, w');
    WritePropsKeeps(sch, m.st, m.ref, o.vals, 0);
  }

  lemma {:induction false} PropsParallel(sch: Schema, a: Start, st: Tables, u: Tables, ref: Ref, vals: seq<Val>, i: nat, w: Out, w': Out)
    requires i <= |vals| && Parallel(sch, a, st, u) && Known(st, ref) && NotBefore(a.from, ref) && Suits(sch, ref, vals)
    requires SteadyFrom(sch, ref, vals, 0)
    requires w == WriteProps(sch, st, ref, vals, i) && w' == WriteProps(sch, u, Moved(a.from, a.k, ref), vals, i) && w.ok
    ensures w'.ok && Parallel(sch, a, w.st, w'.st)
    decreases vals, |vals| - i
  {
    if i < |vals| {
      var x, x' := WriteVal(sch, st, ref, i, vals[i]), WriteVal(sch, u, Moved(a.from, a.k, ref), i, vals[i]);
      ValParallel(sch, a, st, u, ref, i, vals[i], x, x');
      StillKnownVal(sch, st, ref, i, vals[i]);
      PropsParallel(sch, a, x.st, x'.st, ref, vals, i + 1, w, w');
    }
  }

  lemma StillKnownVal(sch: Schema, st: Tables, ref: Ref, col: nat, v: Val)
    requires ValidSchema(sch) && WellFormed(sch, st) && Known(st, ref) && SuitsCol(sch, ref, col, v) && WriteVal(sch, st, ref, col, v).ok
    ensures Known(WriteVal(sch, st, ref, col, v).st, ref)
  {
    ValDoes(sch, st, ref, col, v, ref, col);
    StillKnown(sch, st, ref, col, v);
  }

  lemma {:induction false} ElemsParallel(sch: Schema, a: Start, st: Tables, u: Tables, ref: Ref, col: nat, elems: seq<Option<Obj>>, i: nat, w: Out, w': Out)
    requires i <= |elems| && Parallel(sch, a, st, u) && Target(sch, a.from, st, ref, col, Links(elems))
    requires w == WriteElems(sch, st, ref, col, elems, i) && w' == WriteElems(sch, u, Moved(a.from, a.k, ref), col, elems, i) && w.ok
    ensures w'.ok && Parallel(sch, a, w.st, w'.st)
    decreases elems, |elems| - i
  {
    if i < |elems| {
      if elems[i].None? {
        ElemsParallel(sch, a, st, u, ref, col, elems, i + 1, w, w');
      } else {
        assert TypedElem(sch, sch[ref.cls].props[col].target, elems[i]) && SteadyElem(sch, elems[i]);
        var x, x' := WriteElem(sch, st, ref, col, i, elems[i]), WriteElem(sch, u, Moved(a.from, a.k, ref), col, i, elems[i]);
        ElemParallel(sch, a, st, u, ref, col, i, elems[i], x, x');
        ElemsParallel(sch, a, x.st, x'.st, ref, col, elems, i + 1, w, w');
      }
    }
  }

  lemma {:induction false} ElemParallel(sch: Schema, a: Start, st: Tables, u: Tables, ref: Ref, col: nat, i: nat, e: Option<Obj>, w: Out, w': Out)
    requires Parallel(sch, a, st, u) && Known(st, ref) && ref.Auto? && ref.n >= a.from && e.Some? && Typed(sch, e.value) && Steady(sch, e.value)
    requires ref.cls in sch && col < |sch[ref.cls].props| && sch[ref.cls].props[col] == KLinks(e.value.cls)
    requires w == WriteElem(sch, st, ref, col, i, e) && w' == WriteElem(sch, u, Moved(a.from, a.k, ref), col, i, e) && w.ok
    ensures w'.ok && Parallel(sch, a, w.st, w'.st) && Known(w.st, ref)
    decreases e
  {
    var o := e.value;
    var m, m' := PlaceElem(sch, st, ref, col, i, o), PlaceElem(sch, u, Moved(a.from, a.k, ref), col, i, o);
    PlaceElemParallel(sch, a, st, u, ref, col, i, o, m, m');
    var x, x' := WriteProps(sch, m.st, m.ref, o.vals, 0), WriteProps(sch, m'.st, m'.ref, o.vals, 0);
    PlacedParallel(sch, a, st, m, m', o, x, x');
    if !EmbeddedClass(sch, o.cls) { AppendParallel(sch, a, x.st, x'.st, ref, col, m.ref, w, w'); }
    StillKnownAfter(sch, st, ref, col, i, e);
  }

  lemma StillKnownAfter(sch: Schema, st: Tables, ref: Ref, col: nat, i: nat, e: Option<Obj>)
    requires ValidSchema(sch) && WellFormed(sch, st) && Known(st, ref) && e.Some? && Typed(sch, e.value) && WriteElem(sch, st, ref, col, i, e).ok
    requires ref.cls in sch && col < |sch[ref.cls].props| && sch[ref.cls].props[col] == KLinks(e.value.cls)
    ensures Known(WriteElem(sch, st, ref, col, i, e).st, ref)
  {
    ElemDoes(sch, st, ref, col, i, e, ref, col);
    StillKnownElem(sch, st, ref, col, i, e);
  }

  // ----- placing the row of an element, and listing it

  lemma PlaceElemParallel(sch: Schema, a: Start, st: Tables, u: Tables, ref: Ref, col: nat, i: nat, o: Obj, m: Made, m': Made)
    requires Parallel(sch, a, st, u) && Known(st, ref) && ref.Auto? && ref.n >= a.from && Typed(sch, o) && Steady(sch, o)
    requires ref.cls in sch && col < |sch[ref.cls].props| && sch[ref.cls].props[col] == KLinks(o.cls)
    requires m == PlaceElem(sch, st, ref, col, i, o) && m' == PlaceElem(sch, u, Moved(a.from, a.k, ref), col, i, o) && m.ok
    ensures m'.ok && Placed(sch, a, st, m, m', o)
  {
    PlaceElemOk(sch, a, st, u, ref, col, i, o);
    PlaceElemBoth(sch, a.from, a.k, st, u, ref, col, i, o, m, m');
    ParallelThen(sch, a, st, m.st, u, m'.st);
  }

  lemma PlaceElemOk(sch: Schema, a: Start, st: Tables, u: Tables, ref: Ref, col: nat, i: nat, o: Obj)
    requires Parallel(sch, a, st, u) && ref.Auto? && ref.n >= a.from && Typed(sch, o) && Steady(sch, o)
    requires PlaceElem(sch, st, ref, col, i, o).ok
    ensures PlaceElem(sch, u, Moved(a.from, a.k, ref), col, i, o).ok
  {
    TypedHasKey(sch, o);
    if EmbeddedClass(sch, o.cls) {
      LiveMoves(sch, a, st, u, ref, col);
      assert AlikeAt(sch, a.from, a.k, a.st, st, a.u, u, ref, col);
      var w :| AlikeBy(sch, a.from, a.k, a.st, st, a.u, u, ref, col, w);
      NewCell(sch, a, st, u, ref, col, w);
    } else {
      assert ValidClass(sch, sch[o.cls]);
    }
  }

  lemma PlaceElemBoth(sch: Schema, from: nat, k: nat, st: Tables, u: Tables, ref: Ref, col: nat, i: nat, o: Obj, m: Made, m': Made)
    requires ValidSchema(sch) && WellFormed(sch, st) && WellFormed(sch, u) && from <= st.next && u.next == st.next + k
    requires ref.Auto? && ref.n >= from && Typed(sch, o) && Steady(sch, o)
    requires ref.cls in sch && col < |sch[ref.cls].props| && sch[ref.cls].props[col] == KLinks(o.cls)
    requires m == PlaceElem(sch, st, ref, col, i, o) && m' == PlaceElem(sch, u, Moved(from, k, ref), col, i, o) && m.ok && m'.ok
    ensures Both(sch, from, k, st, m.st, u, m'.st) && m.ref == RefOf(sch, st.next, o) && m'.ref == Moved(from, k, m.ref)
    ensures m.ref in m.st.rows && Suits(sch, m.ref, o.vals) && NotBefore(from, m.ref) && SteadyFrom(sch, m.ref, o.vals, 0)
  {
    PlaceElemKeeps(sch, st, ref, col, i, o);
    PlaceElemKeeps(sch, u, Moved(from, k, ref), col, i, o);
    forall r, c ensures AlikeAt(sch, from, k, st, m.st, u, m'.st, r, c) {
      PlaceElemAlike(sch, from, k, st, u, ref, col, i, o, m, m', r, c);
    }
    PlaceElemAlike(sch, from, k, st, u, ref, col, i, o, m, m', ref, col);
  }

  lemma PlaceElemAlike(sch: Schema, from: nat, k: nat, st: Tables, u: Tables, ref: Ref, col: nat, i: nat, o: Obj, m: Made, m': Made, r: Ref, c: nat)
    requires ValidSchema(sch) && WellFormed(sch, st) && WellFormed(sch, u) && from <= st.next && u.next == st.next + k
    requires ref.Auto? && ref.n >= from && Typed(sch, o) && Steady(sch, o)
    requires ref.cls in sch && col < |sch[ref.cls].props| && sch[ref.cls].props[col] == KLinks(o.cls)
    requires m == PlaceElem(sch, st, ref, col, i, o) && m' == PlaceElem(sch, u, Moved(from, k, ref), col, i, o) && m.ok && m'.ok
    ensures AlikeAt(sch, from, k, st, m.st, u, m'.st, r, c) && m.ref == RefOf(sch, st.next, o) && m'.ref == Moved(from, k, m.ref)
  {
    var t := RefOf(sch, st.next, o);
    var w := Work(Own(sch, o), Once(r == ref && c == col && EmbeddedClass(sch, o.cls), Insert(i, t)), r == t);
    assert m.ref == t && Does(sch, st, m.st, r, c, w) by { PlaceElemDoes(sch, st, ref, col, i, o, r, c); }
    ElemWorkMoves(sch, from, k, st.next, ref, col, i, o, r, c);
    assert m'.ref == Moved(from, k, t) && Does(sch, u, m'.st, Moved(from, k, r), c, MovedWork(from, k, w)) by {
      PlaceElemDoes(sch, u, Moved(from, k, ref), col, i, o, Moved(from, k, r), c);
    }
    assert AlikeBy(sch, from, k, st, m.st, u, m'.st, r, c, w);
  }

  lemma ElemWorkMoves(sch: Schema, from: nat, k: nat, n: nat, ref: Ref, col: nat, i: nat, o: Obj, r: Ref, c: nat)
    requires from <= n && ref.Auto? && ref.n >= from && Steady(sch, o)
    requires ref.cls in sch && col < |sch[ref.cls].props| && sch[ref.cls].props[col].KLinks?
    ensures var t, t' := RefOf(sch, n, o), RefOf(sch, n + k, o);
            var r', ref' := Moved(from, k, r), Moved(from, k, ref);
            var w := Work(Own(sch, o), Once(r == ref && c == col && EmbeddedClass(sch, o.cls), Insert(i, t)), r == t);
            && t' == Moved(from, k, t) && WorkFacts(sch, from, r, c, w, true)
            && MovedWork(from, k, w) == Work(Own(sch, o), Once(r' == ref' && c == col && EmbeddedClass(sch, o.cls), Insert(i, t')), r' == t')
  {
    var t := RefOf(sch, n, o);
    var here := r == ref && c == col && EmbeddedClass(sch, o.cls);
    SteadyHasRow(sch, n, o);
    OnceMoves(from, k, here, Insert(i, t));
    OnceFacts(sch, from, ref, col, Insert(i, t), Own(sch, o), t, r, c, here);
  }

  lemma AppendParallel(sch: Schema, a: Start, st: Tables, u: Tables, ref: Ref, col: nat, t: Ref, w: Out, w': Out)
    requires Parallel(sch, a, st, u) && ref.Auto? && ref.n >= a.from && NotBefore(a.from, t) && t in st.rows && !IsEmbedded(sch, t)
    requires ref.cls in sch && col < |sch[ref.cls].props| && sch[ref.cls].props[col] == KLinks(t.cls)
    requires w == AppendLink(st, ref, col, t) && w' == AppendLink(u, Moved(a.from, a.k, ref), col, Moved(a.from, a.k, t)) && w.ok
    ensures w'.ok && Parallel(sch, a, w.st, w'.st)
  {
    LiveMoves(sch, a, st, u, ref, col);
    RowMoves(sch, a, st, u, t);
    assert w'.ok by { assert RowFits(sch, Moved(a.from, a.k, ref), u.rows[Moved(a.from, a.k, ref)]); }
    AppendBoth(sch, a.from, a.k, st, u, ref, col, t, w, w');
    ParallelThen(sch, a, st, w.st, u, w'.st);
  }

  lemma AppendBoth(sch: Schema, from: nat, k: nat, st: Tables, u: Tables, ref: Ref, col: nat, t: Ref, w: Out, w': Out)
    requires WellFormed(sch, st) && WellFormed(sch, u) && ref.Auto? && ref.n >= from
    requires t in st.rows && Moved(from, k, t) in u.rows && !IsEmbedded(sch, t)
    requires ref.cls in sch && col < |sch[ref.cls].props| && sch[ref.cls].props[col] == KLinks(t.cls)
    requires w == AppendLink(st, ref, col, t) && w' == AppendLink(u, Moved(from, k, ref), col, Moved(from, k, t)) && w.ok && w'.ok
    ensures Both(sch, from, k, st, w.st, u, w'.st)
  {
    AppendLinkKeeps(sch, st, ref, col, t);
    AppendLinkKeeps(sch, u, Moved(from, k, ref), col, Moved(from, k, t));
    forall r, c ensures AlikeAt(sch, from, k, st, w.st, u, w'.st, r, c) {
      var here := r == ref && c == col;
      SetCellDoes(sch, st, ref, col, Push(t), r, c);
      SetCellDoes(sch, u, Moved(from, k, ref), col, Push(Moved(from, k, t)), Moved(from, k, r), c);
      OnceMoves(from, k, here, Push(t));
      assert AlikeBy(sch, from, k, st, w.st, u, w'.st, r, c, Work(0, Once(here, Push(t)), false));
    }
  }
}
