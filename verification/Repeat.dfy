/** Adding the same object twice. */
module Repeat {
  import opened Wrappers
  import opened Store
  import opened Graph
  import opened GraphInvariant
  import opened Cells
  import opened Renumber
  import opened SteadyGraphs
  import opened TwoRuns

  // ----- the second `add` does the same again

  lemma AddsAgain(sch: Schema, st: Tables, o: Obj, m: Made, m2: Made, k: nat)
    requires ValidSchema(sch) && WellFormed(sch, st) && Typed(sch, o) && Steady(sch, o)
    requires m == Add(sch, st, o) && m.ok && m.st.next == st.next + k && m2 == Add(sch, m.st, o)
    ensures m2.ok && m2.ref == m.ref && m2.st.next == m.st.next + k && SameAgain(sch, st.next, k, m.st, m2.st)
  {
    AddKeeps(sch, st, o);
    AddsParallel(sch, st, o, m, m2, k);
    forall r, c ensures CellSame(st.next, k, m.st, m2.st, r, c) { SecondCell(sch, st, m.st, m2.st, k, r, c); }
    forall r | !IsEmbedded(sch, r) ensures PlainSame(st.next, k, m.st, m2.st, r) { PlainAgain(sch, st, o, m, m2, k, r); }
  }

  lemma AddsParallel(sch: Schema, st: Tables, o: Obj, m: Made, m2: Made, k: nat)
    requires ValidSchema(sch) && WellFormed(sch, st) && Typed(sch, o) && Steady(sch, o)
    requires m == Add(sch, st, o) && m.ok && m.st.next == st.next + k && m2 == Add(sch, m.st, o)
    ensures m2.ok && m2.ref == m.ref && Parallel(sch, Start(st.next, k, st, m.st), m.st, m2.st)
  {
    var c, c' := Create(sch, st, o), Create(sch, m.st, o);
    AddKeeps(sch, st, o);
    var a := Start(st.next, k, st, m.st);
    Unwritten(sch, a);
    CreateParallel(sch, a, o, c, c');
    PlacedParallel(sch, a, st, c, c', o, WriteProps(sch, c.st, c.ref, o.vals, 0), WriteProps(sch, c'.st, c'.ref, o.vals, 0));
  }

  /** The root's row. */
  lemma CreateParallel(sch: Schema, a: Start, o: Obj, c: Made, c': Made)
    requires Parallel(sch, a, a.st, a.u) && Typed(sch, o) && Steady(sch, o)
    requires c == Create(sch, a.st, o) && c' == Create(sch, a.u, o) && c.ok
    ensures c'.ok && Placed(sch, a, a.st, c, c', o)
  {
    CreateBoth(sch, a.from, a.k, a.st, a.u, o, c, c');
    ParallelThen(sch, a, a.st, c.st, a.u, c'.st);
  }

  lemma CreateBoth(sch: Schema, from: nat, k: nat, st: Tables, u: Tables, o: Obj, c: Made, c': Made)
    requires ValidSchema(sch) && WellFormed(sch, st) && WellFormed(sch, u) && Typed(sch, o) && Steady(sch, o)
    requires c == Create(sch, st, o) && c' == Create(sch, u, o) && c.ok
    ensures c'.ok && HasKey(sch, o) && c.ref == c'.ref == Keyed(o.cls, KeyOf(sch, o)) && c.ref in c.st.rows
    ensures Suits(sch, c.ref, o.vals) && Both(sch, from, k, st, c.st, u, c'.st)
  {
    CreateKeeps(sch, st, o);
    CreateKeeps(sch, u, o);
    forall r, j ensures AlikeAt(sch, from, k, st, c.st, u, c'.st, r, j) {
      CreateDoes(sch, st, o, r, j);
      CreateDoes(sch, u, o, Moved(from, k, r), j);
      assert MovedSteps(from, k, []) == [];
      assert AlikeBy(sch, from, k, st, c.st, u, c'.st, r, j, Work(0, [], r == c.ref));
    }
  }

  /** A row that is not embedded has a key or was there before both. */
  lemma PlainAgain(sch: Schema, st: Tables, o: Obj, m: Made, m2: Made, k: nat, r: Ref)
    requires ValidSchema(sch) && WellFormed(sch, st) && Typed(sch, o) && Steady(sch, o) && !IsEmbedded(sch, r)
    requires m == Add(sch, st, o) && m.ok && m.st.next == st.next + k && WellFormed(sch, m.st) && m2 == Add(sch, m.st, o) && m2.ok
    ensures PlainSame(st.next, k, m.st, m2.st, r)
  {
    var from := st.next;
    AddDoes(sch, st, o, r, 0);
    AddDoes(sch, m.st, o, r, 0);
    AddFacts(sch, from, o, r, 0);
    AddFacts(sch, from + k, o, r, 0);
    ObjMoves(sch, from, k, from, o, [], r, 0);
    assert MovedSteps(from, k, []) == [];
  }

  lemma Unwritten(sch: Schema, a: Start)
    requires ValidSchema(sch) && WellFormed(sch, a.st) && WellFormed(sch, a.u) && a.st.next == a.from && a.u.next == a.from + a.k
    requires forall r :: r in a.st.rows && r.Keyed? ==> r in a.u.rows
    ensures Parallel(sch, a, a.st, a.u)
  {
    forall r, c ensures AlikeAt(sch, a.from, a.k, a.st, a.st, a.u, a.u, r, c) {
      DoesNothing(sch, a.st, r, c);
      DoesNothing(sch, a.u, Moved(a.from, a.k, r), c);
      assert MovedSteps(a.from, a.k, []) == [];
      assert AlikeBy(sch, a.from, a.k, a.st, a.st, a.u, a.u, r, c, NOTHING);
    }
  }

  // ----- so the tables are the same but for the numbers

  /** The cells of each row are those of the row it has become, and the rows that are not embedded are
      the same. */
  ghost predicate SameAgain(sch: Schema, from: nat, k: nat, st: Tables, st': Tables) {
    && WellFormed(sch, st) && WellFormed(sch, st')
    && (forall r, c :: CellSame(from, k, st, st', r, c))
    && forall r :: !IsEmbedded(sch, r) ==> PlainSame(from, k, st, st', r)
  }

  predicate CellSame(from: nat, k: nat, st: Tables, st': Tables, r: Ref, c: nat) {
    Live(st, r, c) && Moved(from, k, r) in st'.rows ==>
      Live(st', Moved(from, k, r), c) && st'.rows[Moved(from, k, r)][c] == MovedCell(from, k, st.rows[r][c])
  }

  predicate PlainSame(from: nat, k: nat, st: Tables, st': Tables, r: Ref) {
    (r in st.rows <==> r in st'.rows) && (r in st.rows ==> Moved(from, k, r) == r)
  }

  /** Rows that were there before link to such rows only. */
  lemma OldUnmoved(sch: Schema, st: Tables, k: nat, r: Ref, c: nat)
    requires WellFormed(sch, st) && (r.Auto? ==> r.n < st.next)
    ensures MovedCell(st.next, k, CellIn(sch, st, r, c)) == CellIn(sch, st, r, c)
  {
    OldTargets(sch, st, r, c);
    var ts := Targets(CellIn(sch, st, r, c));
    match CellIn(sch, st, r, c)
    case CLink(Some(t)) => assert t in ts;
    case CLinks(links) => assert forall i :: 0 <= i < |links| ==> links[i] in ts; assert MovedRefs(st.next, k, links) == links;
    case _ =>
  }

  lemma SecondCell(sch: Schema, st: Tables, st1: Tables, st2: Tables, k: nat, r: Ref, c: nat)
    requires Parallel(sch, Start(st.next, k, st, st1), st1, st2)
    ensures CellSame(st.next, k, st1, st2, r, c)
  {
    if Live(st1, r, c) && Moved(st.next, k, r) in st2.rows {
      assert AlikeAt(sch, st.next, k, st, st1, st1, st2, r, c);
      var w :| AlikeBy(sch, st.next, k, st, st1, st1, st2, r, c, w);
      assert RowFits(sch, r, st1.rows[r]) && RowFits(sch, Moved(st.next, k, r), st2.rows[Moved(st.next, k, r)]);
      if r.Auto? && r.n >= st.next {
        NewCell(sch, Start(st.next, k, st, st1), st1, st2, r, c, w);
      } else {
        OldUnmoved(sch, st, k, r, c);
        OldCell(sch, st, st1, st2, k, r, c, w);
      }
    }
  }

  lemma OldCell(sch: Schema, st: Tables, st1: Tables, st2: Tables, k: nat, r: Ref, c: nat, w: Work)
    requires (r.Auto? ==> r.n < st.next) && r in st1.rows && r in st2.rows && RowFits(sch, r, st1.rows[r]) && c < |st1.rows[r]|
    requires MovedCell(st.next, k, CellIn(sch, st, r, c)) == CellIn(sch, st, r, c)
    requires AlikeBy(sch, st.next, k, st, st1, st1, st2, r, c, w)
    ensures CellIn(sch, st2, r, c) == MovedCell(st.next, k, CellIn(sch, st1, r, c))
  {
    if r.Auto? {
      assert MovedSteps(st.next, k, w.steps) == [];
    } else {
      Again(st.next, k, sch[r.cls].props[c], w.steps, CellIn(sch, st, r, c));
    }
  }

  lemma MovedSlotSame(from: nat, k: nat, st: Tables, st': Tables, s: Slot)
    requires CellSame(from, k, st, st', s.owner, s.col) && Live(st, s.owner, s.col) && Moved(from, k, s.owner) in st'.rows
    ensures var s' := Slot(Moved(from, k, s.owner), s.col, s.idx);
            && (At(st.rows, s).Some? <==> At(st'.rows, s').Some?)
            && (At(st.rows, s).Some? ==> At(st'.rows, s').value == Moved(from, k, At(st.rows, s).value))
  {
    MovedSlot(st, st', from, k, s.owner, Moved(from, k, s.owner), s.col, s.idx);
  }

  /** Every row is still there, under its new number. */
  lemma {:induction false} RowAgain(sch: Schema, from: nat, k: nat, st: Tables, st': Tables, r: Ref)
    requires SameAgain(sch, from, k, st, st') && r in st.rows
    ensures Moved(from, k, r) in st'.rows
    decreases if r.Auto? then r.n + 1 else 0
  {
    if IsEmbedded(sch, r) {
      var s: Slot :| Owns(sch, st.rows, s, r);
      RowAgain(sch, from, k, st, st', s.owner);
      MovedSlotSame(from, k, st, st', s);
    } else {
      assert PlainSame(from, k, st, st', r);
    }
  }

  /** There are no others. */
  lemma {:induction false} RowOnlyAgain(sch: Schema, from: nat, k: nat, st: Tables, st': Tables, r': Ref) returns (r: Ref)
    requires SameAgain(sch, from, k, st, st') && r' in st'.rows
    ensures r in st.rows && Moved(from, k, r) == r'
    decreases if r'.Auto? then r'.n + 1 else 0
  {
    if IsEmbedded(sch, r') {
      var s: Slot :| Owns(sch, st'.rows, s, r');
      var owner := RowOnlyAgain(sch, from, k, st, st', s.owner);
      r := TargetAgain(sch, from, k, st, st', owner, s, r');
    } else {
      assert PlainSame(from, k, st, st', r');
      r := r';
    }
  }

  lemma TargetAgain(sch: Schema, from: nat, k: nat, st: Tables, st': Tables, owner: Ref, s: Slot, r': Ref) returns (r: Ref)
    requires WellFormed(sch, st) && RowsFit(sch, st') && CellSame(from, k, st, st', owner, s.col)
    requires owner in st.rows && s.owner == Moved(from, k, owner) && At(st'.rows, s) == Some(r')
    ensures r in st.rows && Moved(from, k, r) == r'
  {
    assert Live(st, owner, s.col) by { SameClassSameLength(sch, st, st', owner, s.owner); }
    MovedSlotSame(from, k, st, st', Slot(owner, s.col, s.idx));
    r := At(st.rows, Slot(owner, s.col, s.idx)).value;
  }

  lemma SameClassSameLength(sch: Schema, st: Tables, st': Tables, r: Ref, r': Ref)
    requires RowsFit(sch, st) && RowsFit(sch, st') && r in st.rows && r' in st'.rows && r.cls == r'.cls
    ensures |st.rows[r]| == |st'.rows[r']|
  {
    assert RowFits(sch, r, st.rows[r]) && RowFits(sch, r', st'.rows[r']);
  }

  /** The rows of `st`, each with its new number. */
  function AllMoved(st: Tables, from: nat, k: nat): (f: map<Ref, Ref>)
    ensures f.Keys == st.rows.Keys && forall r :: r in f ==> f[r] == Moved(from, k, r)
  {
    map r | r in st.rows :: Moved(from, k, r)
  }

  lemma RenamesAgain(sch: Schema, from: nat, k: nat, st: Tables, st': Tables)
    requires SameAgain(sch, from, k, st, st')
    ensures SameButNumbers(st, st')
  {
    var f := AllMoved(st, from, k);
    assert f.Values == st'.rows.Keys by { RowsAgain(sch, from, k, st, st', f); }
    forall r | r in f ensures RenamesRow(f, r, st.rows[r], f[r], st'.rows[f[r]]) {
      RowRenamed(sch, from, k, st, st', f, r);
    }
    assert Renames(f, st, st');
  }

  lemma RowsAgain(sch: Schema, from: nat, k: nat, st: Tables, st': Tables, f: map<Ref, Ref>)
    requires SameAgain(sch, from, k, st, st')
    requires f.Keys == st.rows.Keys && forall r :: r in f ==> f[r] == Moved(from, k, r)
    ensures f.Values == st'.rows.Keys
  {
    forall r' | r' in st'.rows ensures r' in f.Values {
      var r := RowOnlyAgain(sch, from, k, st, st', r');
      assert f[r] == r';
    }
    forall r | r in f ensures f[r] in st'.rows { RowAgain(sch, from, k, st, st', r); }
  }

  lemma RowRenamed(sch: Schema, from: nat, k: nat, st: Tables, st': Tables, f: map<Ref, Ref>, r: Ref)
    requires SameAgain(sch, from, k, st, st') && r in st.rows && Moved(from, k, r) in st'.rows
    requires f.Keys == st.rows.Keys && forall t :: t in f ==> f[t] == Moved(from, k, t)
    ensures RenamesRow(f, r, st.rows[r], Moved(from, k, r), st'.rows[Moved(from, k, r)])
  {
    var r' := Moved(from, k, r);
    SameClassSameLength(sch, st, st', r, r');
    forall c | 0 <= c < |st.rows[r]| ensures RenamesCell(f, st.rows[r][c], st'.rows[r'][c]) {
      assert CellSame(from, k, st, st', r, c);
      LinksIn(sch, st, r, c);
      CellRenamed(from, k, f, st.rows[r][c]);
    }
  }

  lemma LinksIn(sch: Schema, st: Tables, r: Ref, c: nat)
    requires WellFormed(sch, st) && Live(st, r, c)
    ensures forall t :: t in Targets(st.rows[r][c]) ==> t in st.rows
  {
    var ts := Targets(st.rows[r][c]);
    forall t | t in ts ensures t in st.rows {
      var i :| 0 <= i < |ts| && ts[i] == t;
      assert At(st.rows, Slot(r, c, i)) == Some(t);
    }
  }

  lemma CellRenamed(from: nat, k: nat, f: map<Ref, Ref>, c: Cell)
    requires forall t :: t in Targets(c) ==> t in f && f[t] == Moved(from, k, t)
    ensures RenamesCell(f, c, MovedCell(from, k, c))
  {
    match c
    case CLink(Some(t)) => assert t in Targets(c);
    case CLinks(ts) => forall i | 0 <= i < |ts| ensures ts[i] in f && f[ts[i]] == Moved(from, k, ts[i]) { assert ts[i] in Targets(c); }
    case _ =>
  }

  /** If no row is numbered, the tables are the same. */
  lemma NothingNew(sch: Schema, from: nat, st: Tables, st': Tables)
    requires SameAgain(sch, from, 0, st, st')
    ensures st.rows == st'.rows
  {
    forall r | r in st.rows ensures r in st'.rows && st'.rows[r] == st.rows[r] {
      RowAgain(sch, from, 0, st, st', r);
      SameClassSameLength(sch, st, st', r, r);
      forall c | 0 <= c < |st.rows[r]| ensures st'.rows[r][c] == st.rows[r][c] {
        assert CellSame(from, 0, st, st', r, c);
        NotMoved(from, st.rows[r][c]);
      }
    }
    forall r' | r' in st'.rows ensures r' in st.rows {
      var r := RowOnlyAgain(sch, from, 0, st, st', r');
    }
  }

  lemma NotMoved(from: nat, c: Cell)
    ensures MovedCell(from, 0, c) == c
  {
    if c.CLinks? { assert MovedRefs(from, 0, c.links) == c.links; }
  }

  // ----- otherwise they are not

  /** The rows that have neither a key nor an owner. */
  function PlainRows(sch: Schema, st: Tables): set<Ref> {
    set r | r in st.rows && r.Auto? && !IsEmbedded(sch, r)
  }

  lemma {:induction false} NoMoreImages(f: map<Ref, Ref>, s: set<Ref>, s': set<Ref>)
    requires s <= f.Keys && forall r' :: r' in s' ==> exists r :: r in s && f[r] == r'
    ensures |s'| <= |s|
    decreases |s|
  {
    if s' != {} {
      var r' :| r' in s';
      var r :| r in s && f[r] == r';
      forall t' | t' in s' - {r'} ensures exists t :: t in s - {r} && f[t] == t' {
        var t :| t in s && f[t] == t';
      }
      NoMoreImages(f, s - {r}, s' - {r'});
    }
  }

  lemma PlainRowsKept(sch: Schema, st: Tables, st': Tables)
    requires SameButNumbers(st, st')
    ensures |PlainRows(sch, st')| <= |PlainRows(sch, st)|
  {
    var f :| Renames(f, st, st');
    forall r' | r' in PlainRows(sch, st') ensures exists r :: r in PlainRows(sch, st) && f[r] == r' {
      var r := RenamedFrom(f, st, st', r');
      assert RenamesRow(f, r, st.rows[r], f[r], st'.rows[f[r]]);
    }
    NoMoreImages(f, PlainRows(sch, st), PlainRows(sch, st'));
  }

  lemma LengthsKept(st: Tables, st': Tables, k: Kind, r: Ref, c: nat)
    requires SameButNumbers(st, st') && r.Keyed? && Live(st', r, c)
    ensures Live(st, r, c) && Extent(k, st.rows[r][c]) == Extent(k, st'.rows[r][c])
  {
    var f :| Renames(f, st, st');
    var q := RenamedFrom(f, st, st', r);
    assert RenamesRow(f, q, st.rows[q], f[q], st'.rows[f[q]]);
    LengthKept(f, k, st.rows[r][c], st'.rows[r][c]);
  }

  lemma RenamedFrom(f: map<Ref, Ref>, st: Tables, st': Tables, r': Ref) returns (r: Ref)
    requires Renames(f, st, st') && r' in st'.rows
    ensures r in f && f[r] == r' && (r'.Keyed? ==> r == r')
  {
    assert r' in f.Values;
    r :| r in f && f[r] == r';
    assert RenamesRow(f, r, st.rows[r], f[r], st'.rows[f[r]]);
  }

  lemma LengthKept(f: map<Ref, Ref>, k: Kind, c: Cell, c': Cell)
    requires RenamesCell(f, c, c')
    ensures Extent(k, c) == Extent(k, c')
  {
  }

  lemma UnsteadyDiffers(sch: Schema, st: Tables, o: Obj)
    requires ValidSchema(sch) && WellFormed(sch, st) && Typed(sch, o) && !Steady(sch, o)
    requires Add(sch, st, o).ok
    ensures !SameButNumbers(st, Add(sch, st, o).st)
  {
    var st' := Add(sch, st, o).st;
    var r, c := ObjGrows(sch, st.next, o);
    var w := ObjWork(sch, st.next, o, [], r, c);
    assert Grows(sch, st.next, None, r, c, w);
    AddDoes(sch, st, o, r, c);
    AddKeeps(sch, st, o);
    if SameButNumbers(st, st') {
      if r.Keyed? {
        AddFacts(sch, st.next, o, r, c);
        ListLonger(sch, st, st', r, c, w);
      } else {
        PlainRowsKept(sch, st, st');
        MorePlainRows(sch, st, st', r);
      }
    }
  }

  lemma MorePlainRows(sch: Schema, st: Tables, st': Tables, r: Ref)
    requires RowsFit(sch, st) && Keeps(sch, st, st') && r.Auto? && r.n >= st.next && r in st'.rows && !IsEmbedded(sch, r)
    ensures |PlainRows(sch, st)| < |PlainRows(sch, st')|
  {
    assert r !in st.rows;
    SubsetSize(PlainRows(sch, st) + {r}, PlainRows(sch, st'));
  }

  lemma {:induction false} SubsetSize(s: set<Ref>, s': set<Ref>)
    requires s <= s'
    ensures |s| <= |s'|
    decreases |s|
  {
    if s != {} {
      var r :| r in s;
      SubsetSize(s - {r}, s' - {r});
    }
  }

  lemma ListLonger(sch: Schema, st: Tables, st': Tables, r: Ref, c: nat, w: Work)
    requires WellFormed(sch, st) && WellFormed(sch, st') && Does(sch, st, st', r, c, w) && WorkFacts(sch, st.next, r, c, w, false)
    requires r.Keyed? && Grows(sch, st.next, None, r, c, w)
    ensures !SameButNumbers(st, st')
  {
    if SameButNumbers(st, st') {
      var k := sch[r.cls].props[c];
      assert r in st'.rows && RowFits(sch, r, st'.rows[r]);
      LengthsKept(st, st', k, r, c);
      assert RowFits(sch, r, st.rows[r]);
      RunGrows(k, w.steps, st.rows[r][c]);
      assert false;
    }
  }

  // ----- the main results

  /** Adding the same graph again leaves the tables the same but for the numbers of rows exactly when
      each of its objects has a primary key or is embedded, and those with a key add nothing to a list:
      the rows of embedded objects are created anew, and everything else is overwritten or merged. */
  lemma AddTwiceButNumbers(sch: Schema, st: Tables, o: Obj)
    requires ValidSchema(sch) && WellFormed(sch, st) && Typed(sch, o) && Add(sch, st, o).ok
    ensures var m := Add(sch, st, o);
            var m2 := Add(sch, m.st, o);
            m2.ok && SameButNumbers(m.st, m2.st) <==> Steady(sch, o)
  {
    var m := Add(sch, st, o);
    if Steady(sch, o) {
      SteadyAgain(sch, st, o, m, Add(sch, m.st, o));
    } else if Add(sch, m.st, o).ok {
      AddKeeps(sch, st, o);
      UnsteadyDiffers(sch, m.st, o);
    }
  }

  lemma SteadyAgain(sch: Schema, st: Tables, o: Obj, m: Made, m2: Made)
    requires ValidSchema(sch) && WellFormed(sch, st) && Typed(sch, o) && Steady(sch, o)
    requires m == Add(sch, st, o) && m.ok && m2 == Add(sch, m.st, o)
    ensures m2.ok && SameButNumbers(m.st, m2.st)
  {
    var k := ObjWork(sch, st.next, o, [], m.ref, 0).rows;
    AddDoes(sch, st, o, m.ref, 0);
    AddsAgain(sch, st, o, m, m2, k);
    RenamesAgain(sch, st.next, k, m.st, m2.st);
  }

  /** It changes nothing at all exactly when there are no embedded objects either: the object has a
      primary key and all its properties overwrite or merge, and so do those of everything it links to;
      whether or not the graph names a key more than once, and with which values. */
  lemma AddTwice(sch: Schema, st: Tables, o: Obj)
    requires ValidSchema(sch) && WellFormed(sch, st) && Typed(sch, o) && Add(sch, st, o).ok
    ensures var m := Add(sch, st, o); Add(sch, m.st, o) == m <==> RepeatsObj(sch, o)
  {
    var m := Add(sch, st, o);
    AddKeeps(sch, st, o);
    if RepeatsObj(sch, o) {
      SecondAddChangesNothing(sch, st, o, m, Add(sch, m.st, o));
    } else if Add(sch, m.st, o) == m {
      AddSameRepeats(sch, m.st, o);
    }
  }

  lemma SecondAddChangesNothing(sch: Schema, st: Tables, o: Obj, m: Made, m2: Made)
    requires ValidSchema(sch) && WellFormed(sch, st) && Typed(sch, o) && RepeatsObj(sch, o)
    requires m == Add(sch, st, o) && m.ok && m2 == Add(sch, m.st, o)
    ensures m2 == m
  {
    RepeatsObjNumbersNone(sch, st.next, o, [], m.ref, 0);
    AddDoes(sch, st, o, m.ref, 0);
    AddsAgain(sch, st, o, m, m2, 0);
    NothingNew(sch, st.next, m.st, m2.st);
  }

  /** What changes nothing is repeatable. */
  lemma AddSameRepeats(sch: Schema, st: Tables, o: Obj)
    requires ValidSchema(sch) && WellFormed(sch, st) && Typed(sch, o) && Add(sch, st, o).ok && Add(sch, st, o).st == st
    ensures RepeatsObj(sch, o)
  {
    var w := ObjWork(sch, st.next, o, [], Auto("", 0), 0);
    assert w.rows == 0 by { AddDoes(sch, st, o, Auto("", 0), 0); }
    assert Steady(sch, o) by {
      SameIsSame(sch, st);
      if !Steady(sch, o) { UnsteadyDiffers(sch, st, o); }
    }
    RepeatsObjNumbersNone(sch, st.next, o, [], Auto("", 0), 0);
  }

  lemma SameIsSame(sch: Schema, st: Tables)
    requires WellFormed(sch, st)
    ensures SameButNumbers(st, st)
  {
    var f := map r | r in st.rows :: r;
    forall r | r in f ensures RenamesRow(f, r, st.rows[r], f[r], st.rows[f[r]]) {
      forall c | 0 <= c < |st.rows[r]| ensures RenamesCell(f, st.rows[r][c], st.rows[r][c]) {
        LinksIn(sch, st, r, c);
        NotMoved(0, st.rows[r][c]);
        CellRenamed(0, 0, f, st.rows[r][c]);
      }
    }
    assert f.Values == st.rows.Keys by { forall r | r in st.rows ensures r in f.Values { assert f[r] == r; } }
    assert Renames(f, st, st);
  }
}
