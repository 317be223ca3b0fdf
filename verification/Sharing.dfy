/** Objects that a graph contains more than once, and by how much they make lists longer. */
module Sharing {
  import opened Wrappers
  import opened Store
  import opened StoreInvariant
  import opened Graph
  import opened GraphInvariant
  import opened GraphFrame
  import opened SteadyGraphs
  import opened Upsert

  /** `env` is the one object there is for each primary key: wherever the graph names a key, it has
      that object. */
  ghost predicate Named(sch: Schema, env: map<Ref, Obj>, o: Obj)
    decreases o
  {
    && (HasKey(sch, o) ==> Keyed(o.cls, KeyOf(sch, o)) in env && env[Keyed(o.cls, KeyOf(sch, o))] == o)
    && forall i :: 0 <= i < |o.vals| ==> NamedVal(sch, env, o.vals[i])
  }

  ghost predicate NamedVal(sch: Schema, env: map<Ref, Obj>, v: Val)
    decreases v
  {
    match v
    case Link(Some(o)) => Named(sch, env, o)
    case Links(elems) => forall i :: 0 <= i < |elems| ==> NamedElem(sch, env, elems[i])
    case _ => true
  }

  ghost predicate NamedElem(sch: Schema, env: map<Ref, Obj>, e: Option<Obj>)
    decreases e
  {
    e.Some? ==> Named(sch, env, e.value)
  }

  /** Whatever a graph names is in it. */
  lemma {:induction false} KeyInside(sch: Schema, env: map<Ref, Obj>, o: Obj, r: Ref)
    requires Named(sch, env, o) && r in Keys(sch, o)
    ensures r in env && r.Keyed? && (env[r] == o || env[r] < o)
    ensures r in PropKeys(sch, o.vals) ==> env[r] < o
    decreases o
  {
    if r in PropKeys(sch, o.vals) {
      var i :| 0 <= i < |o.vals| && r in ValKeys(sch, o.vals[i]);
      assert NamedVal(sch, env, o.vals[i]);
      match o.vals[i]
      case Link(Some(p)) => KeyInside(sch, env, p, r);
      case Links(elems) =>
        var j :| 0 <= j < |elems| && r in ElemKeys(sch, elems[j]);
        assert NamedElem(sch, env, elems[j]);
        KeyInside(sch, env, elems[j].value, r);
    }
  }

  /** So no object contains itself. */
  lemma NotInItself(sch: Schema, env: map<Ref, Obj>, o: Obj)
    requires Named(sch, env, o) && HasKey(sch, o)
    ensures Keyed(o.cls, KeyOf(sch, o)) !in PropKeys(sch, o.vals)
  {
    var r := Keyed(o.cls, KeyOf(sch, o));
    if r in PropKeys(sch, o.vals) { KeyInside(sch, env, o, r); }
  }

  lemma {:induction false} NamedKeys(sch: Schema, env: map<Ref, Obj>, o: Obj)
    requires Named(sch, env, o)
    ensures Keys(sch, o) <= env.Keys
  {
    forall r | r in Keys(sch, o) ensures r in env { KeyInside(sch, env, o, r); }
  }

  /** Only the named keys matter. */
  lemma {:induction false} NamedWithin(sch: Schema, env: map<Ref, Obj>, env': map<Ref, Obj>, o: Obj)
    requires Named(sch, env, o) && forall r :: r in Keys(sch, o) && r in env ==> r in env' && env'[r] == env[r]
    ensures Named(sch, env', o)
    decreases o
  {
    forall i | 0 <= i < |o.vals| ensures NamedVal(sch, env', o.vals[i]) {
      ValKeysIn(sch, o.vals, i);
      match o.vals[i]
      case Link(Some(p)) => NamedWithin(sch, env, env', p);
      case Links(elems) =>
        forall j | 0 <= j < |elems| ensures NamedElem(sch, env', elems[j]) {
          assert NamedElem(sch, env, elems[j]);
          ElemKeysIn(sch, elems, j);
          if elems[j].Some? { NamedWithin(sch, env, env', elems[j].value); }
        }
      case _ =>
    }
  }

  // ----- occurrences

  /** The occurrences of a primary key in a graph. */
  function Occurrences(sch: Schema, r: Ref, o: Obj): seq<Obj>
    decreases o
  {
    (if HasKey(sch, o) && Keyed(o.cls, KeyOf(sch, o)) == r then [o] else []) + PropOccurrences(sch, r, o.vals, 0)
  }

  function PropOccurrences(sch: Schema, r: Ref, vals: seq<Val>, i: nat): seq<Obj>
    requires i <= |vals|
    decreases vals, |vals| - i
  {
    if i == |vals| then [] else ValOccurrences(sch, r, vals[i]) + PropOccurrences(sch, r, vals, i + 1)
  }

  function ValOccurrences(sch: Schema, r: Ref, v: Val): seq<Obj>
    decreases v
  {
    match v
    case Link(Some(o)) => Occurrences(sch, r, o)
    case Links(elems) => ElemOccurrences(sch, r, elems, 0)
    case _ => []
  }

  function ElemOccurrences(sch: Schema, r: Ref, elems: seq<Option<Obj>>, i: nat): seq<Obj>
    requires i <= |elems|
    decreases elems, |elems| - i
  {
    if i == |elems| then []
    else OptOccurrences(sch, r, elems[i]) + ElemOccurrences(sch, r, elems, i + 1)
  }

  function OptOccurrences(sch: Schema, r: Ref, e: Option<Obj>): seq<Obj>
    decreases e
  {
    if e.Some? then Occurrences(sch, r, e.value) else []
  }

  predicate AllAre(os: seq<Obj>, o: Obj) {
    forall i :: 0 <= i < |os| ==> os[i] == o
  }

  /** A key that is named occurs, and all its occurrences are its one object. */
  lemma {:induction false} OccurrencesAre(sch: Schema, env: map<Ref, Obj>, o: Obj, r: Ref)
    requires Named(sch, env, o) && r in env
    ensures AllAre(Occurrences(sch, r, o), env[r]) && (r in Keys(sch, o) ==> Occurrences(sch, r, o) != [])
    decreases o
  {
    PropOccurrencesAre(sch, env, o.vals, 0, r);
    if r in PropKeys(sch, o.vals) {
      var j :| 0 <= j < |o.vals| && r in ValKeys(sch, o.vals[j]);
      assert PropOccurrences(sch, r, o.vals, 0) != [];
    }
  }

  lemma {:induction false} PropOccurrencesAre(sch: Schema, env: map<Ref, Obj>, vals: seq<Val>, i: nat, r: Ref)
    requires i <= |vals| && (forall j :: 0 <= j < |vals| ==> NamedVal(sch, env, vals[j])) && r in env
    ensures AllAre(PropOccurrences(sch, r, vals, i), env[r])
    ensures forall j :: i <= j < |vals| && r in ValKeys(sch, vals[j]) ==> PropOccurrences(sch, r, vals, i) != []
    decreases vals, |vals| - i
  {
    if i < |vals| {
      ValOccurrencesAre(sch, env, vals[i], r);
      PropOccurrencesAre(sch, env, vals, i + 1, r);
    }
  }

  lemma {:induction false} ValOccurrencesAre(sch: Schema, env: map<Ref, Obj>, v: Val, r: Ref)
    requires NamedVal(sch, env, v) && r in env
    ensures AllAre(ValOccurrences(sch, r, v), env[r]) && (r in ValKeys(sch, v) ==> ValOccurrences(sch, r, v) != [])
    decreases v
  {
    match v
    case Link(Some(o)) => OccurrencesAre(sch, env, o, r);
    case Links(elems) =>
      ElemOccurrencesAre(sch, env, elems, 0, r);
      if r in ValKeys(sch, v) {
        var j :| 0 <= j < |elems| && r in ElemKeys(sch, elems[j]);
        assert ElemOccurrences(sch, r, elems, 0) != [];
      }
    case _ =>
  }

  lemma {:induction false} ElemOccurrencesAre(sch: Schema, env: map<Ref, Obj>, elems: seq<Option<Obj>>, i: nat, r: Ref)
    requires i <= |elems| && (forall j :: 0 <= j < |elems| ==> NamedElem(sch, env, elems[j])) && r in env
    ensures AllAre(ElemOccurrences(sch, r, elems, i), env[r])
    ensures forall j :: i <= j < |elems| && r in ElemKeys(sch, elems[j]) ==> ElemOccurrences(sch, r, elems, i) != []
    decreases elems, |elems| - i
  {
    if i < |elems| {
      OptOccurrencesAre(sch, env, elems[i], r);
      ElemOccurrencesAre(sch, env, elems, i + 1, r);
    }
  }

  lemma {:induction false} OptOccurrencesAre(sch: Schema, env: map<Ref, Obj>, e: Option<Obj>, r: Ref)
    requires NamedElem(sch, env, e) && r in env
    ensures AllAre(OptOccurrences(sch, r, e), env[r]) && (r in ElemKeys(sch, e) ==> OptOccurrences(sch, r, e) != [])
    decreases e
  {
    if e.Some? { OccurrencesAre(sch, env, e.value, r); }
  }

  /** A key that is not named does not occur. */
  lemma {:induction false} NotNamed(sch: Schema, r: Ref, o: Obj)
    requires r !in Keys(sch, o)
    ensures Occurrences(sch, r, o) == []
    decreases o
  {
    NotNamedProps(sch, r, o.vals, 0);
  }

  lemma {:induction false} NotNamedProps(sch: Schema, r: Ref, vals: seq<Val>, i: nat)
    requires i <= |vals| && r !in PropKeys(sch, vals)
    ensures PropOccurrences(sch, r, vals, i) == []
    decreases vals, |vals| - i
  {
    if i < |vals| {
      ValKeysIn(sch, vals, i);
      NotNamedVal(sch, r, vals[i]);
      NotNamedProps(sch, r, vals, i + 1);
    }
  }

  lemma {:induction false} NotNamedVal(sch: Schema, r: Ref, v: Val)
    requires r !in ValKeys(sch, v)
    ensures ValOccurrences(sch, r, v) == []
    decreases v
  {
    match v
    case Link(Some(o)) => NotNamed(sch, r, o);
    case Links(elems) => NotNamedElems(sch, r, elems, 0);
    case _ =>
  }

  lemma {:induction false} NotNamedElems(sch: Schema, r: Ref, elems: seq<Option<Obj>>, i: nat)
    requires i <= |elems| && r !in ValKeys(sch, Links(elems))
    ensures ElemOccurrences(sch, r, elems, i) == []
    decreases elems, |elems| - i
  {
    if i < |elems| {
      ElemKeysIn(sch, elems, i);
      NotNamedElem(sch, r, elems[i]);
      NotNamedElems(sch, r, elems, i + 1);
    }
  }

  lemma {:induction false} NotNamedElem(sch: Schema, r: Ref, e: Option<Obj>)
    requires r !in ElemKeys(sch, e)
    ensures OptOccurrences(sch, r, e) == []
    decreases e
  {
    if e.Some? { NotNamed(sch, r, e.value); }
  }

  // ----- what is added to the lists

  lemma {:induction false} AllPresentCount(elems: seq<Option<Obj>>)
    requires AllPresent(elems)
    ensures |Present(elems)| == |elems|
    decreases |elems|
  {
    if elems != [] { AllPresentCount(elems[1..]); }
  }

  /** How many entries writing `v` adds to a list of kind `k` that writing extends. */
  function Adds(k: Kind, v: Val): nat {
    match v
    case Links(elems) => if k.KLinks? then |Present(elems)| else 0
    case Items(items) => if k.KList? && !k.write.Replace? then |items| else 0
    case _ => 0
  }

  function ObjAdds(sch: Schema, o: Obj, c: nat): nat {
    if o.cls in sch && c < |o.vals| && c < |sch[o.cls].props| then Adds(sch[o.cls].props[c], o.vals[c]) else 0
  }

  function Total(sch: Schema, c: nat, os: seq<Obj>): nat {
    if os == [] then 0 else ObjAdds(sch, os[0], c) + Total(sch, c, os[1..])
  }

  lemma {:induction false} TotalOfTwo(sch: Schema, c: nat, a: seq<Obj>, b: seq<Obj>)
    ensures Total(sch, c, a + b) == Total(sch, c, a) + Total(sch, c, b)
    decreases |a|
  {
    if a == [] {
      assert a + b == b;
    } else {
      assert (a + b)[1..] == a[1..] + b;
      TotalOfTwo(sch, c, a[1..], b);
    }
  }

  lemma {:induction false} TotalOfSame(sch: Schema, c: nat, os: seq<Obj>, o: Obj)
    requires AllAre(os, o)
    ensures |os| == 1 ==> Total(sch, c, os) == ObjAdds(sch, o, c)
    ensures |os| > 1 ==> Total(sch, c, os) >= 2 * ObjAdds(sch, o, c)
    ensures ObjAdds(sch, o, c) == 0 ==> Total(sch, c, os) == 0
    decreases |os|
  {
    if os != [] { TotalOfSame(sch, c, os[1..], o); }
  }

  /** The length of a list that writing extends. */
  function Length(sch: Schema, st: Tables, r: Ref, c: nat): nat {
    if r in st.rows && r.cls in sch && c < |st.rows[r]| && c < |sch[r.cls].props| then Extent(sch[r.cls].props[c], st.rows[r][c])
    else 0
  }

  function Here(ref: Ref, col: nat, r: Ref, c: nat, n: nat): nat {
    if r == ref && c == col then n else 0
  }

  // ----- keyed rows lose nothing

  lemma CreateLength(sch: Schema, st: Tables, o: Obj, r: Ref, c: nat)
    requires ValidSchema(sch) && r.Keyed?
    ensures Length(sch, Create(sch, st, o).st, r, c) == Length(sch, st, r, c)
  {
    if r.cls in sch && c < |sch[r.cls].props| {
      assert ValidClass(sch, sch[r.cls]);
      assert DefaultRow(sch[r.cls])[c] == DefaultCell(sch[r.cls].props[c]);
      assert Extent(sch[r.cls].props[c], DefaultCell(sch[r.cls].props[c])) == 0;
    }
  }

  lemma KeyedIsNoVictim(sch: Schema, st: Tables, ref: Ref, col: nat, r: Ref)
    requires ValidSchema(sch) && WellFormed(sch, st) && Live(st, ref, col) && r.Keyed? && r in st.rows
    ensures r !in Victims(sch, st, ref, col)
  {
    VictimsFacts(sch, st, ref, col);
    assert RowFits(sch, r, st.rows[r]) && ValidClass(sch, sch[r.cls]);
  }

  lemma PlaceLinkLength(sch: Schema, st: Tables, ref: Ref, col: nat, o: Obj, r: Ref, c: nat)
    requires ValidSchema(sch) && WellFormed(sch, st) && Typed(sch, o) && SuitsCol(sch, ref, col, Link(Some(o))) && r.Keyed?
    ensures Length(sch, PlaceLink(sch, st, ref, col, o).st, r, c) == Length(sch, st, r, c)
  {
    if !EmbeddedClass(sch, o.cls) {
      CreateLength(sch, st, o, r, c);
    } else if Live(st, ref, col) {
      if r in st.rows { KeyedIsNoVictim(sch, st, ref, col, r); }
    }
  }

  lemma PlaceElemLength(sch: Schema, st: Tables, ref: Ref, col: nat, i: nat, o: Obj, r: Ref, c: nat)
    requires ValidSchema(sch) && r.Keyed? && PlaceElem(sch, st, ref, col, i, o).ok
    requires ref.cls in sch && col < |sch[ref.cls].props| && sch[ref.cls].props[col].KLinks?
    ensures Length(sch, PlaceElem(sch, st, ref, col, i, o).st, r, c) ==
            Length(sch, st, r, c) + Here(ref, col, r, c, if EmbeddedClass(sch, o.cls) then 1 else 0)
  {
    if !EmbeddedClass(sch, o.cls) { CreateLength(sch, st, o, r, c); }
  }

  // ----- conservation

  /** Each list of a keyed row gets longer by exactly the entries of all occurrences of its key. */
  lemma {:induction false} ValLength(sch: Schema, st: Tables, ref: Ref, col: nat, v: Val, r: Ref, c: nat)
    requires ValidSchema(sch) && WellFormed(sch, st) && SuitsCol(sch, ref, col, v) && WriteVal(sch, st, ref, col, v).ok && r.Keyed?
    ensures Length(sch, WriteVal(sch, st, ref, col, v).st, r, c) ==
            Length(sch, st, r, c) + Total(sch, c, ValOccurrences(sch, r, v)) + Here(ref, col, r, c, Adds(sch[ref.cls].props[col], v))
    decreases v
  {
    match v
    case Link(Some(o)) => LinkLength(sch, st, ref, col, o, r, c);
    case Links(elems) =>
      assert elems[0..] == elems;
      ElemsLength(sch, st, ref, col, elems, 0, r, c);
    case _ => PlainLength(sch, st, ref, col, v, r, c);
  }

  lemma PlainLength(sch: Schema, st: Tables, ref: Ref, col: nat, v: Val, r: Ref, c: nat)
    requires SuitsCol(sch, ref, col, v) && WriteVal(sch, st, ref, col, v).ok && !v.Links? && (v.Link? ==> v.target.None?)
    ensures Length(sch, WriteVal(sch, st, ref, col, v).st, r, c) ==
            Length(sch, st, r, c) + Here(ref, col, r, c, Adds(sch[ref.cls].props[col], v))
  {
  }

  lemma {:induction false} LinkLength(sch: Schema, st: Tables, ref: Ref, col: nat, o: Obj, r: Ref, c: nat)
    requires ValidSchema(sch) && WellFormed(sch, st) && SuitsCol(sch, ref, col, Link(Some(o))) && r.Keyed?
    requires WriteVal(sch, st, ref, col, Link(Some(o))).ok
    ensures Length(sch, WriteVal(sch, st, ref, col, Link(Some(o))).st, r, c) ==
            Length(sch, st, r, c) + Total(sch, c, Occurrences(sch, r, o))
    decreases o, 1
  {
    var m := PlaceLink(sch, st, ref, col, o);
    PlaceLinkLength(sch, st, ref, col, o, r, c);
    assert GoodTarget(sch, st, m, o) by { PlaceLinkKeeps(sch, st, ref, col, o); }
    TargetLength(sch, m.st, m.ref, o, r, c);
  }

  /** A target row whose properties are written: its own entries and those of its parts. */
  lemma {:induction false} TargetLength(sch: Schema, st: Tables, t: Ref, o: Obj, r: Ref, c: nat)
    requires ValidSchema(sch) && WellFormed(sch, st) && Typed(sch, o) && Suits(sch, t, o.vals) && r.Keyed? && t.cls == o.cls
    requires WriteProps(sch, st, t, o.vals, 0).ok
    requires t == (if HasKey(sch, o) then Keyed(o.cls, KeyOf(sch, o)) else t) && (t.Keyed? ==> HasKey(sch, o))
    ensures Length(sch, WriteProps(sch, st, t, o.vals, 0).st, r, c) == Length(sch, st, r, c) + Total(sch, c, Occurrences(sch, r, o))
    decreases o, 0
  {
    PropsLength(sch, st, t, o.vals, 0, r, c);
    var parts := PropOccurrences(sch, r, o.vals, 0);
    if t == r {
      TotalOfTwo(sch, c, [o], parts);
      assert Total(sch, c, [o]) == ObjAdds(sch, o, c) + Total(sch, c, []);
    } else {
      assert [] + parts == parts;
    }
  }

  lemma {:induction false} PropsLength(sch: Schema, st: Tables, ref: Ref, vals: seq<Val>, i: nat, r: Ref, c: nat)
    requires ValidSchema(sch) && WellFormed(sch, st) && i <= |vals| && Suits(sch, ref, vals) && r.Keyed?
    requires WriteProps(sch, st, ref, vals, i).ok
    ensures Length(sch, WriteProps(sch, st, ref, vals, i).st, r, c) ==
            Length(sch, st, r, c) + Total(sch, c, PropOccurrences(sch, r, vals, i)) +
            (if r == ref && i <= c < |vals| then Adds(sch[ref.cls].props[c], vals[c]) else 0)
    decreases vals, |vals| - i
  {
    if i < |vals| {
      ValLength(sch, st, ref, i, vals[i], r, c);
      var w := WriteVal(sch, st, ref, i, vals[i]);
      assert WellFormed(sch, w.st) by { WriteValKeeps(sch, st, ref, i, vals[i]); }
      PropsLength(sch, w.st, ref, vals, i + 1, r, c);
      TotalOfTwo(sch, c, ValOccurrences(sch, r, vals[i]), PropOccurrences(sch, r, vals, i + 1));
    }
  }

  lemma PresentStep(elems: seq<Option<Obj>>, i: nat)
    requires i < |elems|
    ensures |Present(elems[i..])| == (if elems[i].Some? then 1 else 0) + |Present(elems[i + 1..])|
  {
    assert elems[i..][0] == elems[i] && elems[i..][1..] == elems[i + 1..];
  }

  lemma {:induction false} ElemsLength(sch: Schema, st: Tables, ref: Ref, col: nat, elems: seq<Option<Obj>>, i: nat, r: Ref, c: nat)
    requires ValidSchema(sch) && WellFormed(sch, st) && i <= |elems| && SuitsCol(sch, ref, col, Links(elems)) && r.Keyed?
    requires WriteElems(sch, st, ref, col, elems, i).ok
    ensures Length(sch, WriteElems(sch, st, ref, col, elems, i).st, r, c) ==
            Length(sch, st, r, c) + Total(sch, c, ElemOccurrences(sch, r, elems, i)) + Here(ref, col, r, c, |Present(elems[i..])|)
    decreases elems, |elems| - i
  {
    if i < |elems| {
      PresentStep(elems, i);
      if elems[i].None? {
        ElemsLength(sch, st, ref, col, elems, i + 1, r, c);
        assert [] + ElemOccurrences(sch, r, elems, i + 1) == ElemOccurrences(sch, r, elems, i + 1);
      } else {
        assert TypedElem(sch, sch[ref.cls].props[col].target, elems[i]);
        ElemLength(sch, st, ref, col, i, elems[i], r, c);
        var w := WriteElem(sch, st, ref, col, i, elems[i]);
        assert WellFormed(sch, w.st) by { WriteElemKeeps(sch, st, ref, col, i, elems[i]); }
        ElemsLength(sch, w.st, ref, col, elems, i + 1, r, c);
        TotalOfTwo(sch, c, Occurrences(sch, r, elems[i].value), ElemOccurrences(sch, r, elems, i + 1));
      }
    }
  }

  lemma {:induction false} ElemLength(sch: Schema, st: Tables, ref: Ref, col: nat, i: nat, e: Option<Obj>, r: Ref, c: nat)
    requires ValidSchema(sch) && WellFormed(sch, st) && e.Some? && Typed(sch, e.value) && r.Keyed?
    requires ref.cls in sch && col < |sch[ref.cls].props| && sch[ref.cls].props[col] == KLinks(e.value.cls)
    requires WriteElem(sch, st, ref, col, i, e).ok
    ensures Length(sch, WriteElem(sch, st, ref, col, i, e).st, r, c) ==
            Length(sch, st, r, c) + Total(sch, c, Occurrences(sch, r, e.value)) + Here(ref, col, r, c, 1)
    decreases e
  {
    var o := e.value;
    var m := PlaceElem(sch, st, ref, col, i, o);
    PlaceElemLength(sch, st, ref, col, i, o, r, c);
    assert GoodTarget(sch, st, m, o) && m.ref.cls == o.cls by { PlaceElemKeeps(sch, st, ref, col, i, o); }
    TypedHasKey(sch, o);
    TargetLength(sch, m.st, m.ref, o, r, c);
    var w := WriteProps(sch, m.st, m.ref, o.vals, 0);
    if !EmbeddedClass(sch, o.cls) { AppendLength(sch, w.st, ref, col, m.ref, r, c); }
  }

  lemma AppendLength(sch: Schema, st: Tables, ref: Ref, col: nat, t: Ref, r: Ref, c: nat)
    requires ref.cls in sch && col < |sch[ref.cls].props| && sch[ref.cls].props[col].KLinks? && AppendLink(st, ref, col, t).ok
    ensures Length(sch, AppendLink(st, ref, col, t).st, r, c) == Length(sch, st, r, c) + Here(ref, col, r, c, 1)
  {
  }

  /** `add` makes each list of a keyed row longer by exactly the entries of all occurrences of the key. */
  lemma AddLength(sch: Schema, st: Tables, o: Obj, r: Ref, c: nat)
    requires ValidSchema(sch) && WellFormed(sch, st) && Typed(sch, o) && Add(sch, st, o).ok && r.Keyed?
    ensures Length(sch, Add(sch, st, o).st, r, c) == Length(sch, st, r, c) + Total(sch, c, Occurrences(sch, r, o))
  {
    CreateLength(sch, st, o, r, c);
    CreateKeeps(sch, st, o);
    TypedHasKey(sch, o);
    var m := Create(sch, st, o);
    TargetLength(sch, m.st, m.ref, o, r, c);
  }
}
