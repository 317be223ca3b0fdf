/** While a graph is written, every row written so far stands for an object, and says what it says, as far
    as the object has been written. */
module Mirror {
  import opened Wrappers
  import opened Store
  import opened StoreInvariant
  import opened Graph
  import opened GraphInvariant
  import opened GraphFrame
  import opened Sharing
  import opened Upsert

  /** The object each row was written for. */
  type Shadow = map<Ref, Obj>

  ghost predicate StandsFor(sh: Shadow, t: Ref, o: Obj) {
    t in sh && sh[t] == o
  }

  /** A cell says what `v` says; a list that was written more than once may have become longer. */
  ghost predicate Says(sh: Shadow, k: Kind, exact: bool, c: Cell, v: Val) {
    match v
    case Scalar(p) => c == CPrim(p)
    case Link(t) => t.Some? && c.CLink? && c.link.Some? && StandsFor(sh, c.link.value, t.value)
    case Links(elems) =>
      && c.CLinks? && |c.links| >= |elems| && (exact ==> |c.links| == |elems|)
      && (|c.links| == |elems| ==> forall i :: 0 <= i < |elems| ==> elems[i].Some? && StandsFor(sh, c.links[i], elems[i].value))
    case Items(items) =>
      && c.CList? && |c.items| >= |items| && (exact || (k.KList? && k.write.Replace?) ==> |c.items| == |items|)
      && (|c.items| == |items| ==> c.items == items)
    case Elems(s) => c == CSet(s)
    case Entries(m) => c == CMap(m)
    case Backlinks => c == CNone
  }

  ghost predicate Shaped(sch: Schema, r: Ref, row: Row, o: Obj) {
    r.cls in sch && o.cls == r.cls && |row| == |o.vals| == |sch[r.cls].props|
  }

  /** The first `n` cells of a row say what its object says. */
  ghost predicate RowSays(sch: Schema, sh: Shadow, r: Ref, row: Row, o: Obj, n: nat) {
    && Shaped(sch, r, row, o)
    && forall j :: 0 <= j < n && j < |row| ==> Says(sh, sch[r.cls].props[j], r.Auto?, row[j], o.vals[j])
  }

  /** Rows being written for the first time, with the number of cells written. */
  type Unfinished = map<Ref, nat>

  ghost predicate RowMirrors(sch: Schema, st: Tables, sh: Shadow, left: Unfinished, r: Ref)
    requires r in sh
  {
    && (r.Auto? ==> r.n < st.next)
    && (r in st.rows ==> RowSays(sch, sh, r, st.rows[r], sh[r], if r in left then left[r] else |sh[r].vals|))
  }

  ghost predicate Mirrors(sch: Schema, st: Tables, sh: Shadow, left: Unfinished) {
    forall r :: r in sh ==> RowMirrors(sch, st, sh, left, r)
  }

  /** Rows keep what they stand for. */
  ghost predicate Grown(sh: Shadow, sh': Shadow) {
    forall r :: r in sh ==> StandsFor(sh', r, sh[r])
  }

  /** The keyed rows of the graph stand for its objects. */
  ghost predicate KeysStand(env: map<Ref, Obj>, st: Tables, sh: Shadow) {
    && (forall r :: r in env && r in st.rows ==> r in sh)
    && (forall r :: r in sh && r.Keyed? ==> r in env && sh[r] == env[r])
  }

  ghost predicate Ready(sch: Schema, env: map<Ref, Obj>, st: Tables, sh: Shadow, left: Unfinished, ref: Ref, keys: set<Ref>, up: set<Ref>) {
    && Outside(sch, st, ref, keys, up) && keys <= env.Keys
    && ref in sh && (ref.Auto? ==> ref in left) && left.Keys <= up + {ref}
    && Mirrors(sch, st, sh, left) && KeysStand(env, st, sh)
  }

  ghost predicate Mirrored(sch: Schema, env: map<Ref, Obj>, st': Tables, sh: Shadow, sh': Shadow, left': Unfinished) {
    WellFormed(sch, st') && Grown(sh, sh') && Mirrors(sch, st', sh', left') && KeysStand(env, st', sh')
  }

  function Further(left: Unfinished, ref: Ref, n: nat): Unfinished {
    if ref in left then left[ref := n] else left
  }

  // ----- one cell written, at most one row created

  lemma SaysGrown(sh: Shadow, sh': Shadow, k: Kind, exact: bool, c: Cell, v: Val)
    requires Says(sh, k, exact, c, v) && Grown(sh, sh')
    ensures Says(sh', k, exact, c, v)
  {
    if v.Links? && |c.links| == |v.elems| {
      forall i | 0 <= i < |v.elems| ensures v.elems[i].Some? && StandsFor(sh', c.links[i], v.elems[i].value) {
        assert StandsFor(sh, c.links[i], v.elems[i].value);
      }
    }
  }

  lemma RowSaysGrown(sch: Schema, sh: Shadow, sh': Shadow, r: Ref, row: Row, o: Obj, n: nat)
    requires RowSays(sch, sh, r, row, o, n) && Grown(sh, sh')
    ensures RowSays(sch, sh', r, row, o, n)
  {
    forall j | 0 <= j < n && j < |row| ensures Says(sh', sch[r.cls].props[j], r.Auto?, row[j], o.vals[j]) {
      SaysGrown(sh, sh', sch[r.cls].props[j], r.Auto?, row[j], o.vals[j]);
    }
  }

  /** From `st` to `st'` only column `col` of `ref` changed, to `cell`, and only `t` may be new. */
  ghost predicate OneCell(st: Tables, st': Tables, ref: Ref, col: nat, cell: Cell, t: Ref) {
    && Live(st, ref, col) && ref in st'.rows && st.next <= st'.next
    && st'.rows[ref] == st.rows[ref][col := cell]
    && forall r :: r in st'.rows && r != ref && (r != t || r in st.rows) ==> r in st.rows && st'.rows[r] == st.rows[r]
  }

  /** `t` is a new row, all of it still to be written, or stands for `o` already. */
  ghost predicate Stands(sch: Schema, st: Tables, st': Tables, sh: Shadow, left: Unfinished, left': Unfinished, ref: Ref, t: Ref, o: Obj) {
    && (t in sh ==> sh[t] == o)
    && (if t in st.rows then t in sh
        else (t.Auto? ==> t.n < st'.next) && t in left' && left'[t] == 0 && t in st'.rows && Shaped(sch, t, st'.rows[t], o))
    && forall r :: r != ref && (r != t || r in st.rows) ==> (r in left' <==> r in left) && (r in left ==> left'[r] == left[r])
  }

  /** The written cell of `ref` says what it should, or is still unfinished. */
  ghost predicate CellDone(sch: Schema, sh: Shadow, left: Unfinished, left': Unfinished, ref: Ref, col: nat, cell: Cell)
    requires ref in sh
  {
    && (ref in left <==> ref in left')
    && ((ref in left && left'[ref] == left[ref] <= col) ||
        (&& (ref in left ==> left[ref] == col && left'[ref] == col + 1)
         && col < |sh[ref].vals| && ref.cls in sch && col < |sch[ref.cls].props|
         && Says(sh, sch[ref.cls].props[col], ref.Auto?, cell, sh[ref].vals[col])))
  }

  lemma OneCellMirrors(sch: Schema, st: Tables, st': Tables, sh: Shadow, left: Unfinished, left': Unfinished,
                       ref: Ref, col: nat, cell: Cell, t: Ref, o: Obj)
    requires Mirrors(sch, st, sh, left) && ref in sh && OneCell(st, st', ref, col, cell, t)
    requires Stands(sch, st, st', sh, left, left', ref, t, o) && CellDone(sch, sh[t := o], left, left', ref, col, cell)
    ensures Mirrors(sch, st', sh[t := o], left') && Grown(sh, sh[t := o])
  {
    var sh' := sh[t := o];
    forall r | r in sh' ensures RowMirrors(sch, st', sh', left', r) {
      if r in sh {
        assert RowMirrors(sch, st, sh, left, r);
        if r in st.rows && r in st'.rows {
          RowSaysGrown(sch, sh, sh', r, st.rows[r], sh[r], if r in left then left[r] else |sh[r].vals|);
        }
      }
    }
  }

  /** Afterwards the parts of a target are written while `ref` and what holds it are left alone. */
  lemma InsideTarget(sch: Schema, st: Tables, ref: Ref, up: set<Ref>, t: Ref)
    requires WellFormed(sch, st) && Inside(sch, st, ref, up) && t in st.rows && t !in up + {ref}
    requires IsEmbedded(sch, t) ==> exists s :: Owns(sch, st.rows, s, t) && s.owner == ref
    ensures Inside(sch, st, t, up + {ref})
  {
    assert Apart(sch, st, t, up + {ref});
  }

  lemma TargetOutside(sch: Schema, env: map<Ref, Obj>, st: Tables, ref: Ref, up: set<Ref>, t: Ref, o: Obj)
    requires Outside(sch, st, ref, PropKeys(sch, o.vals), up) && t in st.rows && t !in up + {ref}
    requires IsEmbedded(sch, t) ==> exists s :: Owns(sch, st.rows, s, t) && s.owner == ref
    requires Named(sch, env, o) && (t.Keyed? ==> HasKey(sch, o) && t == Keyed(o.cls, KeyOf(sch, o)))
    ensures Outside(sch, st, t, PropKeys(sch, o.vals), up + {ref})
  {
    InsideTarget(sch, st, ref, up, t);
    if t.Keyed? {
      NotInItself(sch, env, o);
    } else if t in PropKeys(sch, o.vals) {
      KeyInside(sch, env, o, t);
    }
  }

  // ----- links

  /** An unwritten row: default cells where there is no scalar to come. */
  ghost predicate Unwritten(sch: Schema, st: Tables, ref: Ref, vals: seq<Val>, i: nat) {
    && ref in st.rows && ref.cls in sch && |st.rows[ref]| == |vals| == |sch[ref.cls].props|
    && forall j :: i <= j < |vals| ==> vals[j].Scalar? || st.rows[ref][j] == DefaultCell(sch[ref.cls].props[j])
  }

  lemma CreatedRow(sch: Schema, st: Tables, o: Obj)
    requires ValidSchema(sch) && WellFormed(sch, st) && Typed(sch, o) && !EmbeddedClass(sch, o.cls)
    ensures var m := Create(sch, st, o);
            && m.ok && m.ref in m.st.rows && m.ref.cls == o.cls && m.st.rows.Keys == st.rows.Keys + {m.ref}
            && (forall r :: r in st.rows ==> m.st.rows[r] == st.rows[r])
            && (if m.ref.Keyed? then HasKey(sch, o) && m.ref == Keyed(o.cls, KeyOf(sch, o)) else !HasKey(sch, o))
            && (m.ref !in st.rows ==> Unwritten(sch, m.st, m.ref, o.vals, 0))
            && st.next <= m.st.next && (m.ref.Auto? ==> m.ref !in st.rows && m.ref.n < m.st.next)
  {
    TypedHasKey(sch, o);
    NumbersAreNew(sch, st, o.cls);
  }

  /** What placing the target of a link does. */
  lemma PlacedTarget(sch: Schema, st: Tables, ref: Ref, col: nat, o: Obj)
    requires ValidSchema(sch) && WellFormed(sch, st) && Live(st, ref, col) && ref !in Keys(sch, o)
    requires SuitsCol(sch, ref, col, Link(Some(o)))
    ensures var m := PlaceLink(sch, st, ref, col, o);
            && m.ok && OneCell(st, m.st, ref, col, CLink(Some(m.ref)), m.ref) && m.ref in m.st.rows && m.ref.cls == o.cls
            && (if m.ref.Keyed? then HasKey(sch, o) && m.ref == Keyed(o.cls, KeyOf(sch, o)) else !HasKey(sch, o))
            && (m.ref !in st.rows ==> Unwritten(sch, m.st, m.ref, o.vals, 0))
            && (m.ref.Auto? ==> m.ref !in st.rows && m.ref.n < m.st.next)
            && (IsEmbedded(sch, m.ref) ==> Owns(sch, m.st.rows, Slot(ref, col, 0), m.ref))
  {
    NumbersAreNew(sch, st, o.cls);
    if EmbeddedClass(sch, o.cls) {
      TypedHasKey(sch, o);
    } else {
      CreatedRow(sch, st, o);
    }
  }

  /** The object's parts can be written once the target row is placed. */
  ghost predicate ReadyFor(sch: Schema, env: map<Ref, Obj>, st: Tables, sh: Shadow, left: Unfinished, t: Ref, o: Obj, up: set<Ref>) {
    && Ready(sch, env, st, sh, left, t, PropKeys(sch, o.vals), up) && sh[t] == o && Suits(sch, t, o.vals)
    && (t in left ==> left[t] == 0 && Unwritten(sch, st, t, o.vals, 0))
  }

  function WithTarget(left: Unfinished, st: Tables, t: Ref): Unfinished {
    if t in st.rows then left else left[t := 0]
  }

  lemma LinkPlaced(sch: Schema, env: map<Ref, Obj>, st: Tables, ref: Ref, col: nat, o: Obj, up: set<Ref>)
    requires Outside(sch, st, ref, Keys(sch, o), up) && SuitsCol(sch, ref, col, Link(Some(o))) && Named(sch, env, o) && Live(st, ref, col)
    ensures var m := PlaceLink(sch, st, ref, col, o);
            && m.ok && m.ref !in up + {ref} && Suits(sch, m.ref, o.vals) && RowOf(sch, st.next, m.ref, o)
            && Outside(sch, m.st, m.ref, PropKeys(sch, o.vals), up + {ref})
  {
    var m := PlaceLink(sch, st, ref, col, o);
    PlacedTarget(sch, st, ref, col, o);
    PlaceLinkEffect(sch, st, ref, col, o, up);
    assert Outside(sch, m.st, m.ref, PropKeys(sch, o.vals), up + {ref}) by { TargetOutside(sch, env, m.st, ref, up, m.ref, o); }
  }

  lemma LinkMirrored(sch: Schema, env: map<Ref, Obj>, st: Tables, sh: Shadow, left: Unfinished, ref: Ref, col: nat, o: Obj)
    requires ValidSchema(sch) && WellFormed(sch, st) && Mirrors(sch, st, sh, left) && KeysStand(env, st, sh) && Named(sch, env, o)
    requires Live(st, ref, col) && ref !in Keys(sch, o) && SuitsCol(sch, ref, col, Link(Some(o)))
    requires ref in sh && col < |sh[ref].vals| && sh[ref].vals[col] == Link(Some(o)) && (ref in left ==> left[ref] == col)
    requires var m := PlaceLink(sch, st, ref, col, o); m.ref != ref && RowOf(sch, st.next, m.ref, o)
    ensures var m := PlaceLink(sch, st, ref, col, o);
            var left2 := WithTarget(Further(left, ref, col + 1), st, m.ref);
            && Mirrors(sch, m.st, sh[m.ref := o], left2) && Grown(sh, sh[m.ref := o])
            && (m.ref !in st.rows ==> Unwritten(sch, m.st, m.ref, o.vals, 0)) && (m.ref.Auto? ==> m.ref !in st.rows)
            && (forall r :: r in m.st.rows && r != m.ref ==> r in st.rows)
  {
    var m := PlaceLink(sch, st, ref, col, o);
    var left2 := WithTarget(Further(left, ref, col + 1), st, m.ref);
    PlacedTarget(sch, st, ref, col, o);
    assert Stands(sch, st, m.st, sh, left, left2, ref, m.ref, o) by {
      TargetStands(sch, env, st, m.st, sh, left, ref, Further(left, ref, col + 1), m.ref, o);
    }
    assert CellDone(sch, sh[m.ref := o], left, left2, ref, col, CLink(Some(m.ref))) by { LinkDone(sch, sh, left, ref, col, st, m.ref, o); }
    assert Mirrors(sch, m.st, sh[m.ref := o], left2) && Grown(sh, sh[m.ref := o]) by {
      OneCellMirrors(sch, st, m.st, sh, left, left2, ref, col, CLink(Some(m.ref)), m.ref, o);
    }
  }

  lemma LinkDone(sch: Schema, sh: Shadow, left: Unfinished, ref: Ref, col: nat, st: Tables, t: Ref, o: Obj)
    requires ref in sh && t != ref && col < |sh[ref].vals| && sh[ref].vals[col] == Link(Some(o)) && (ref in left ==> left[ref] == col)
    requires ref.cls in sch && col < |sch[ref.cls].props|
    ensures CellDone(sch, sh[t := o], left, WithTarget(Further(left, ref, col + 1), st, t), ref, col, CLink(Some(t)))
  {
  }

  lemma LinkReady(sch: Schema, env: map<Ref, Obj>, st: Tables, sh: Shadow, left: Unfinished, ref: Ref, col: nat, o: Obj, up: set<Ref>)
    requires Ready(sch, env, st, sh, left, ref, Keys(sch, o), up) && SuitsCol(sch, ref, col, Link(Some(o))) && Named(sch, env, o)
    requires col < |sh[ref].vals| && sh[ref].vals[col] == Link(Some(o)) && (ref in left ==> left[ref] == col) && Live(st, ref, col)
    ensures var m := PlaceLink(sch, st, ref, col, o);
            && m.ok && m.ref !in up + {ref}
            && ReadyFor(sch, env, m.st, sh[m.ref := o], WithTarget(Further(left, ref, col + 1), st, m.ref), m.ref, o, up + {ref})
            && Grown(sh, sh[m.ref := o])
  {
    LinkPlaced(sch, env, st, ref, col, o, up);
    LinkMirrored(sch, env, st, sh, left, ref, col, o);
    var m := PlaceLink(sch, st, ref, col, o);
    assert KeysStand(env, m.st, sh[m.ref := o]) by { TargetKeys(sch, env, st, m.st, sh, ref, m.ref, o); }
  }

  lemma TargetStands(sch: Schema, env: map<Ref, Obj>, st: Tables, st': Tables, sh: Shadow, left: Unfinished, ref: Ref,
                     left1: Unfinished, t: Ref, o: Obj)
    requires Mirrors(sch, st, sh, left) && KeysStand(env, st, sh) && Named(sch, env, o)
    requires forall r :: r != ref ==> (r in left1 <==> r in left) && (r in left ==> left1[r] == left[r])
    requires t in st'.rows && t != ref && t.cls == o.cls
    requires if t.Keyed? then HasKey(sch, o) && t == Keyed(o.cls, KeyOf(sch, o)) else t !in st.rows && t.n >= st.next && t.n < st'.next
    requires t !in st.rows ==> Unwritten(sch, st', t, o.vals, 0)
    ensures Stands(sch, st, st', sh, left, WithTarget(left1, st, t), ref, t, o)
  {
    if t in sh { assert RowMirrors(sch, st, sh, left, t); }
  }

  lemma TargetKeys(sch: Schema, env: map<Ref, Obj>, st: Tables, st': Tables, sh: Shadow, ref: Ref, t: Ref, o: Obj)
    requires KeysStand(env, st, sh) && ref in st.rows && (t.Keyed? ==> t in env && env[t] == o)
    requires forall r :: r in st'.rows && r != t ==> r in st.rows
    ensures KeysStand(env, st', sh[t := o])
  {
  }

  // ----- plain values

  /** A column to be written: unwritten so far, or saying what it should already. */
  ghost predicate ToWrite(sch: Schema, st: Tables, sh: Shadow, left: Unfinished, ref: Ref, col: nat, v: Val) {
    && ref in sh && col < |sh[ref].vals| && sh[ref].vals[col] == v && SuitsCol(sch, ref, col, v) && Live(st, ref, col)
    && (ref in left ==> left[ref] == col && (v.Scalar? || st.rows[ref][col] == DefaultCell(sch[ref.cls].props[col])))
  }

  lemma SaysAlready(sch: Schema, env: map<Ref, Obj>, st: Tables, sh: Shadow, left: Unfinished, ref: Ref, col: nat, v: Val, up: set<Ref>)
    requires Ready(sch, env, st, sh, left, ref, ValKeys(sch, v), up) && ToWrite(sch, st, sh, left, ref, col, v) && ref !in left
    ensures Says(sh, sch[ref.cls].props[col], false, st.rows[ref][col], v) && ref.Keyed?
  {
    assert RowMirrors(sch, st, sh, left, ref);
  }

  /** The cell after a plain value was written. */
  function PlainCell(k: Kind, c: Cell, v: Val): Cell {
    match v
    case Scalar(p) => CPrim(p)
    case Items(items) =>
      if !k.KList? || k.write.Replace? || !c.CList? then CList(items)
      else if k.write.Append? then CList(c.items + items)
      else CList(items + c.items)
    case Elems(s) => if c.CSet? then CSet(c.elems + s) else c
    case Entries(m) => if c.CMap? then CMap(c.entries + m) else c
    case _ => c
  }

  predicate IsPlain(v: Val) {
    !v.Link? && !v.Links?
  }

  lemma PlainWrite(sch: Schema, st: Tables, ref: Ref, col: nat, v: Val)
    requires WellFormed(sch, st) && ref in st.rows && SuitsCol(sch, ref, col, v) && IsPlain(v)
    ensures var w := WriteVal(sch, st, ref, col, v);
            && w.ok && w.st.rows.Keys == st.rows.Keys && w.st.next == st.next && col < |st.rows[ref]|
            && OneCell(st, w.st, ref, col, PlainCell(sch[ref.cls].props[col], st.rows[ref][col], v), ref)
  {
    var row := st.rows[ref];
    assert RowFits(sch, ref, row);
    if v.Items? && v.items == [] && row[col].CList? { assert row[col].items + [] == row[col].items; }
    assert row[col := row[col]] == row;
  }

  lemma PlainSays(sh: Shadow, k: Kind, exact: bool, c: Cell, v: Val)
    requires IsPlain(v) && (v.Items? ==> k.KList?) && TypedPlain(k, v)
    requires v.Scalar? || c == DefaultCell(k) || (!exact && Says(sh, k, false, c, v))
    ensures Says(sh, k, exact, PlainCell(k, c, v), v)
  {
    match v
    case Items(items) =>
      if c.CList? && |c.items| >= |items| && items != [] {
        assert |c.items + items| > |items| && |items + c.items| > |items|;
      }
      assert [] + items == items == items + [];
    case Elems(s) => assert {} + s == s == s + s;
    case Entries(m) => assert map[] + m == m == m + m;
    case _ =>
  }

  predicate TypedPlain(k: Kind, v: Val) {
    match v
    case Scalar(_) => k.KScalar?
    case Items(_) => k.KList?
    case Elems(_) => k.KSet?
    case Entries(_) => k.KMap?
    case Backlinks => k.KBacklinks?
    case _ => true
  }

  lemma PlainMirrors(sch: Schema, env: map<Ref, Obj>, st: Tables, sh: Shadow, left: Unfinished, ref: Ref, col: nat, v: Val, up: set<Ref>)
    requires Ready(sch, env, st, sh, left, ref, ValKeys(sch, v), up) && ToWrite(sch, st, sh, left, ref, col, v) && IsPlain(v)
    ensures var w := WriteVal(sch, st, ref, col, v);
            w.ok && Mirrored(sch, env, w.st, sh, sh, Further(left, ref, col + 1))
  {
    var w := WriteVal(sch, st, ref, col, v);
    PlainWrite(sch, st, ref, col, v);
    assert WellFormed(sch, w.st) by { WriteValKeeps(sch, st, ref, col, v); }
    var k, c := sch[ref.cls].props[col], st.rows[ref][col];
    assert Says(sh, k, ref.Auto?, PlainCell(k, c, v), v) by {
      if ref !in left { SaysAlready(sch, env, st, sh, left, ref, col, v, up); }
      PlainSays(sh, k, ref.Auto?, c, v);
    }
    assert Mirrors(sch, w.st, sh, Further(left, ref, col + 1)) by {
      SameShadow(sch, st, w.st, sh, left, ref, col, PlainCell(k, c, v));
    }
  }

  /** A cell written in a row that goes on standing for what it did. */
  lemma SameShadow(sch: Schema, st: Tables, st': Tables, sh: Shadow, left: Unfinished, ref: Ref, col: nat, cell: Cell)
    requires Mirrors(sch, st, sh, left) && ref in sh && OneCell(st, st', ref, col, cell, ref)
    requires (ref in left ==> left[ref] == col) && col < |sh[ref].vals| && ref.cls in sch && col < |sch[ref.cls].props|
    requires Says(sh, sch[ref.cls].props[col], ref.Auto?, cell, sh[ref].vals[col])
    ensures Mirrors(sch, st', sh, Further(left, ref, col + 1))
  {
    assert sh[ref := sh[ref]] == sh;
    OneCellMirrors(sch, st, st', sh, left, Further(left, ref, col + 1), ref, col, cell, ref, sh[ref]);
  }

  // ----- lists of links

  /** The list of links of an unfinished row holds the rows of the first `i` elements; that of any
      other row at least as many as there are elements. */
  ghost predicate ListTo(st: Tables, sh: Shadow, left: Unfinished, ref: Ref, col: nat, elems: seq<Option<Obj>>, i: nat) {
    && ref in sh && col < |sh[ref].vals| && sh[ref].vals[col] == Links(elems) && i <= |elems|
    && Live(st, ref, col) && st.rows[ref][col].CLinks?
    && var ts := st.rows[ref][col].links;
    if ref in left then
      left[ref] == col && |ts| == i && forall k :: 0 <= k < i ==> elems[k].Some? && StandsFor(sh, ts[k], elems[k].value)
    else |ts| >= |elems| && ref.Keyed?
  }

  /** What creating the row of an element does. */
  lemma PlacedElem(sch: Schema, st: Tables, ref: Ref, col: nat, i: nat, o: Obj)
    requires ValidSchema(sch) && WellFormed(sch, st) && Live(st, ref, col) && st.rows[ref][col].CLinks? && i <= |st.rows[ref][col].links|
    requires Typed(sch, o) && ref !in Keys(sch, o) && ref.cls in sch
    ensures var m := PlaceElem(sch, st, ref, col, i, o);
            var ts := st.rows[ref][col].links;
            && m.ok && OneCell(st, m.st, ref, col, if EmbeddedClass(sch, o.cls) then CLinks(ts[..i] + [m.ref] + ts[i..]) else CLinks(ts), m.ref)
            && m.ref in m.st.rows && m.ref.cls == o.cls
            && (if m.ref.Keyed? then HasKey(sch, o) && m.ref == Keyed(o.cls, KeyOf(sch, o)) else !HasKey(sch, o))
            && (m.ref !in st.rows ==> Unwritten(sch, m.st, m.ref, o.vals, 0))
            && (m.ref.Auto? ==> m.ref !in st.rows && m.ref.n < m.st.next)
            && (IsEmbedded(sch, m.ref) ==> Owns(sch, m.st.rows, Slot(ref, col, i), m.ref))
  {
    NumbersAreNew(sch, st, o.cls);
    var row := st.rows[ref];
    assert row[col := row[col]] == row;
    if EmbeddedClass(sch, o.cls) {
      TypedHasKey(sch, o);
    } else {
      CreatedRow(sch, st, o);
    }
  }

  lemma ElemPlaced(sch: Schema, env: map<Ref, Obj>, st: Tables, ref: Ref, col: nat, i: nat, o: Obj, up: set<Ref>)
    requires Outside(sch, st, ref, Keys(sch, o), up) && Typed(sch, o) && Named(sch, env, o)
    requires ref.cls in sch && col < |sch[ref.cls].props| && sch[ref.cls].props[col] == KLinks(o.cls)
    requires Live(st, ref, col) && st.rows[ref][col].CLinks? && i <= |st.rows[ref][col].links|
    ensures var m := PlaceElem(sch, st, ref, col, i, o);
            && m.ok && m.ref !in up + {ref} && Suits(sch, m.ref, o.vals) && RowOf(sch, st.next, m.ref, o)
            && Outside(sch, m.st, m.ref, PropKeys(sch, o.vals), up + {ref})
  {
    var m := PlaceElem(sch, st, ref, col, i, o);
    PlacedElem(sch, st, ref, col, i, o);
    PlaceElemEffect(sch, st, ref, col, i, o, up);
    assert Outside(sch, m.st, m.ref, PropKeys(sch, o.vals), up + {ref}) by { TargetOutside(sch, env, m.st, ref, up, m.ref, o); }
  }

  /** A list that got longer than its elements says nothing wrong, an unfinished one nothing yet. */
  lemma LongerListDone(sch: Schema, sh: Shadow, sh': Shadow, left: Unfinished, left': Unfinished, st: Tables, ref: Ref, col: nat,
                       elems: seq<Option<Obj>>, i: nat, cell: Cell)
    requires ListTo(st, sh, left, ref, col, elems, i) && Grown(sh, sh') && ref.cls in sch && col < |sch[ref.cls].props|
    requires (ref in left <==> ref in left') && (ref in left ==> left'[ref] == left[ref])
    requires ref !in left ==> Says(sh, sch[ref.cls].props[col], false, st.rows[ref][col], Links(elems))
    requires cell.CLinks? && (ref !in left ==> cell == st.rows[ref][col] || |cell.links| > |elems|)
    ensures CellDone(sch, sh', left, left', ref, col, cell)
  {
    assert StandsFor(sh', ref, sh[ref]);
    if ref !in left && cell == st.rows[ref][col] { SaysGrown(sh, sh', sch[ref.cls].props[col], false, cell, Links(elems)); }
  }

  lemma ElemMirrored(sch: Schema, env: map<Ref, Obj>, st: Tables, sh: Shadow, left: Unfinished, ref: Ref, col: nat,
                     elems: seq<Option<Obj>>, i: nat, o: Obj)
    requires ValidSchema(sch) && WellFormed(sch, st) && Mirrors(sch, st, sh, left) && KeysStand(env, st, sh) && Named(sch, env, o)
    requires ListTo(st, sh, left, ref, col, elems, i) && Typed(sch, o) && ref !in Keys(sch, o) && i <= |st.rows[ref][col].links|
    requires ref.cls in sch && col < |sch[ref.cls].props|
    requires ref !in left ==> Says(sh, sch[ref.cls].props[col], false, st.rows[ref][col], Links(elems))
    requires var m := PlaceElem(sch, st, ref, col, i, o); m.ref != ref && RowOf(sch, st.next, m.ref, o)
    ensures var m := PlaceElem(sch, st, ref, col, i, o);
            && Mirrors(sch, m.st, sh[m.ref := o], WithTarget(left, st, m.ref)) && Grown(sh, sh[m.ref := o])
            && (m.ref !in st.rows ==> Unwritten(sch, m.st, m.ref, o.vals, 0)) && (m.ref.Auto? ==> m.ref !in st.rows)
            && (forall r :: r in m.st.rows && r != m.ref ==> r in st.rows)
  {
    var m := PlaceElem(sch, st, ref, col, i, o);
    var ts := st.rows[ref][col].links;
    var cell := if EmbeddedClass(sch, o.cls) then CLinks(ts[..i] + [m.ref] + ts[i..]) else CLinks(ts);
    PlacedElem(sch, st, ref, col, i, o);
    assert Stands(sch, st, m.st, sh, left, WithTarget(left, st, m.ref), ref, m.ref, o) by {
      TargetStands(sch, env, st, m.st, sh, left, ref, left, m.ref, o);
    }
    assert Grown(sh, sh[m.ref := o]);
    LongerListDone(sch, sh, sh[m.ref := o], left, WithTarget(left, st, m.ref), st, ref, col, elems, i, cell);
    OneCellMirrors(sch, st, m.st, sh, left, WithTarget(left, st, m.ref), ref, col, cell, m.ref, o);
  }

  lemma ElemReady(sch: Schema, env: map<Ref, Obj>, st: Tables, sh: Shadow, left: Unfinished, ref: Ref, col: nat,
                  elems: seq<Option<Obj>>, i: nat, o: Obj, up: set<Ref>)
    requires Ready(sch, env, st, sh, left, ref, Keys(sch, o), up) && Typed(sch, o) && Named(sch, env, o)
    requires ref.cls in sch && col < |sch[ref.cls].props| && sch[ref.cls].props[col] == KLinks(o.cls)
    requires ListTo(st, sh, left, ref, col, elems, i) && i <= |st.rows[ref][col].links|
    ensures var m := PlaceElem(sch, st, ref, col, i, o);
            && m.ok && m.ref !in up + {ref}
            && ReadyFor(sch, env, m.st, sh[m.ref := o], WithTarget(left, st, m.ref), m.ref, o, up + {ref})
            && Grown(sh, sh[m.ref := o])
  {
    var m := PlaceElem(sch, st, ref, col, i, o);
    ElemPlaced(sch, env, st, ref, col, i, o, up);
    assert RowMirrors(sch, st, sh, left, ref);
    ElemMirrored(sch, env, st, sh, left, ref, col, elems, i, o);
    assert KeysStand(env, m.st, sh[m.ref := o]) by { TargetKeys(sch, env, st, m.st, sh, ref, m.ref, o); }
  }
}
