/** `add` and `detach` on objects in memory that point to each other. */
module AddPointers {
  import opened Wrappers
  import opened Store
  import opened Graph
  import opened GraphFrame
  import opened RoundTrip
  import opened Sharing
  import opened PointerGraph
  import opened AddDetach

  /** Pointers are in pointer slots only. */
  predicate Proper(m: Memory) {
    forall p :: p in m ==> forall i :: 0 <= i < |m[p].slots| && m[p].slots[i].Plain? ==> NoLink(m[p].slots[i].v)
  }

  predicate NoLink(v: Val) {
    !v.Link? && !v.Links?
  }

  /** The primary key an object in memory has. */
  function NodeKey(sch: Schema, n: Node): Option<Ref> {
    if n.cls in sch && sch[n.cls].pk.Some? && sch[n.cls].pk.value < |n.slots| then
      match n.slots[sch[n.cls].pk.value]
      case Plain(Scalar(x)) => Some(Keyed(n.cls, x))
      case _ => None
    else None
  }

  ghost predicate DistinctKeys(sch: Schema, m: Memory) {
    forall p, q :: p in m && q in m && NodeKey(sch, m[p]).Some? && NodeKey(sch, m[p]) == NodeKey(sch, m[q]) ==> p == q
  }

  ghost predicate Acyclic(m: Memory) {
    Sound(m) && exists rank :: Ranked(m, rank)
  }

  /** The graph the accessors visit from `p`. */
  ghost function Unfolding(m: Memory, p: Ptr): Obj
    requires p in m && Ends(m, p)
  {
    Visit(m, p, Depth(m, p)).value
  }

  /** How deep a visit may go makes no difference if it ends. */
  lemma {:induction false} VisitAgrees(m: Memory, p: Ptr, d: nat, e: nat)
    requires p in m && Visit(m, p, d).Some? && Visit(m, p, e).Some?
    ensures Visit(m, p, d) == Visit(m, p, e)
    decreases d, 0
  {
    var slots := m[p].slots;
    var vs, ws := VisitSlots(m, slots, d - 1).value, VisitSlots(m, slots, e - 1).value;
    forall i | 0 <= i < |slots| ensures vs[i] == ws[i] {
      SlotAgrees(m, slots[i], d - 1, e - 1);
    }
    assert vs == ws;
  }

  lemma {:induction false} SlotAgrees(m: Memory, s: PointerGraph.Slot, d: nat, e: nat)
    requires VisitSlot(m, s, d).Some? && VisitSlot(m, s, e).Some?
    ensures VisitSlot(m, s, d) == VisitSlot(m, s, e)
    decreases d, 2
  {
    match s
    case Plain(_) =>
    case Pointer(q) => PointerAgrees(m, q, d, e);
    case Pointers(qs) =>
      var vs, ws := VisitPointers(m, qs, d).value, VisitPointers(m, qs, e).value;
      forall i | 0 <= i < |qs| ensures vs[i] == ws[i] { PointerAgrees(m, qs[i], d, e); }
      assert vs == ws;
  }

  lemma {:induction false} PointerAgrees(m: Memory, q: Option<Ptr>, d: nat, e: nat)
    requires VisitPointer(m, q, d).Some? && VisitPointer(m, q, e).Some?
    ensures VisitPointer(m, q, d) == VisitPointer(m, q, e)
    decreases d, 1
  {
    if q.Some? { VisitAgrees(m, q.value, d, e); }
  }

  /** The object of each key. */
  ghost function ByKey(sch: Schema, m: Memory): map<Ref, Obj>
    requires DistinctKeys(sch, m) && forall p :: p in m ==> Ends(m, p)
  {
    map p | p in m && NodeKey(sch, m[p]).Some? :: NodeKey(sch, m[p]).value := Unfolding(m, p)
  }

  lemma {:induction false} VisitNamed(sch: Schema, m: Memory, p: Ptr, d: nat)
    requires Proper(m) && DistinctKeys(sch, m) && (forall q :: q in m ==> Ends(m, q))
    requires p in m && Visit(m, p, d).Some?
    ensures Named(sch, ByKey(sch, m), Visit(m, p, d).value)
    decreases d, 0
  {
    var o := Visit(m, p, d).value;
    if HasKey(sch, o) {
      var k := sch[o.cls].pk.value;
      assert VisitSlot(m, m[p].slots[k], d - 1) == Some(o.vals[k]);
      assert NodeKey(sch, m[p]) == Some(Keyed(o.cls, KeyOf(sch, o)));
      VisitAgrees(m, p, d, Depth(m, p));
    }
    forall i | 0 <= i < |o.vals| ensures NamedVal(sch, ByKey(sch, m), o.vals[i]) {
      SlotNamed(sch, m, p, i, d - 1);
    }
  }

  lemma {:induction false} SlotNamed(sch: Schema, m: Memory, p: Ptr, i: nat, d: nat)
    requires Proper(m) && DistinctKeys(sch, m) && (forall q :: q in m ==> Ends(m, q))
    requires p in m && i < |m[p].slots| && VisitSlot(m, m[p].slots[i], d).Some?
    ensures NamedVal(sch, ByKey(sch, m), VisitSlot(m, m[p].slots[i], d).value)
    decreases d, 2
  {
    match m[p].slots[i]
    case Plain(v) => assert NoLink(v);
    case Pointer(q) => PointerNamed(sch, m, q, d);
    case Pointers(qs) =>
      var os := VisitPointers(m, qs, d).value;
      forall j | 0 <= j < |os| ensures NamedElem(sch, ByKey(sch, m), os[j]) { PointerNamed(sch, m, qs[j], d); }
  }

  lemma {:induction false} PointerNamed(sch: Schema, m: Memory, q: Option<Ptr>, d: nat)
    requires Proper(m) && DistinctKeys(sch, m) && (forall r :: r in m ==> Ends(m, r))
    requires VisitPointer(m, q, d).Some?
    ensures NamedElem(sch, ByKey(sch, m), VisitPointer(m, q, d).value)
    decreases d, 1
  {
    if q.Some? { VisitNamed(sch, m, q.value, d); }
  }

  /** An object in an acyclic memory, added to tables that hold none of the keys it reaches, detaches to
      itself exactly when no null pointer is reached and no object that is reached more than once has
      links or items that adding it again adds again. */
  lemma AddPointerThenDetach(sch: Schema, m: Memory, p: Ptr, st: Tables)
    requires ValidSchema(sch) && WellFormed(sch, st) && Acyclic(m) && Proper(m) && DistinctKeys(sch, m) && p in m
    ensures forall q :: q in m ==> Ends(m, q)
    ensures var o := Unfolding(m, p);
            Typed(sch, o) && !EmbeddedClass(sch, o.cls) && Keys(sch, o) !! st.rows.Keys ==>
              var a := Add(sch, st, o);
              ((a.ok && Detaches(sch, a.st.rows, a.ref, a.ref.cls, o)) <==> Solid(o) && SharesSafely(sch, ByKey(sch, m), o))
  {
    EndsIffRanked(m);
    var o := Unfolding(m, p);
    VisitNamed(sch, m, p, Depth(m, p));
    if Typed(sch, o) && !EmbeddedClass(sch, o.cls) && Keys(sch, o) !! st.rows.Keys {
      AddThenDetach(sch, ByKey(sch, m), st, o);
    }
  }

  // ----- an object pointed to twice

  const TWICE := map[
    "A" := ClassDef(["id", "first", "second"], [KScalar("int"), KLink("B"), KLink("B")], Some(0), false),
    "B" := ClassDef(["id", "flags"], [KScalar("int"), KList(Append, "bool")], Some(0), false)]

  function Shared(flags: seq<Prim>): Obj {
    Obj("B", [Scalar(Int(1)), Items(flags)])
  }

  function Sharer(flags: seq<Prim>): Obj {
    Obj("A", [Scalar(Int(1)), Link(Some(Shared(flags))), Link(Some(Shared(flags)))])
  }

  /** Both pointers of an object lead to one other object: whatever is in its `bool` list is added twice,
      so the object does not come back, unless that list is empty. */
  lemma PointedToTwice(flags: seq<Prim>)
    ensures var a := Sharer(flags);
            var m := Add(TWICE, Tables(map[], 0), a);
            Solid(a) && ((m.ok && Detaches(TWICE, m.st.rows, m.ref, m.ref.cls, a)) <==> flags == [])
  {
    var a, b := Sharer(flags), Shared(flags);
    var ka, kb := Keyed("A", Int(1)), Keyed("B", Int(1));
    var env := map[ka := a, kb := b];
    TwiceIsValid();
    SharerIsTyped(flags);
    SharerIsNamed(flags, env);
    AddThenDetach(TWICE, env, Tables(map[], 0), a);
    SharedOccurs(flags);
    SharedAdds(flags);
    if flags == [] {
      forall r, c: nat | r in Keys(TWICE, a) && r in env && |Occurrences(TWICE, r, a)| > 1 ensures ObjAdds(TWICE, env[r], c) == 0 {
        assert r == kb;
      }
    } else {
      assert kb in Keys(TWICE, a) && |Occurrences(TWICE, kb, a)| > 1 && ObjAdds(TWICE, env[kb], 1) > 0;
    }
  }

  lemma SharedAdds(flags: seq<Prim>)
    ensures ObjAdds(TWICE, Shared(flags), 1) == |flags| && forall c: nat :: c != 1 ==> ObjAdds(TWICE, Shared(flags), c) == 0
  {
  }

  lemma SharerIsTyped(flags: seq<Prim>)
    ensures Typed(TWICE, Sharer(flags)) && Solid(Sharer(flags))
  {
    var a, b := Sharer(flags), Shared(flags);
    assert Solid(b) && Typed(TWICE, b);
    assert forall i :: 0 <= i < 3 ==> SolidVal(a.vals[i]);
    assert TypedVal(TWICE, KScalar("int"), a.vals[0]) && TypedVal(TWICE, KLink("B"), a.vals[1]) && TypedVal(TWICE, KLink("B"), a.vals[2]);
  }

  lemma TwiceIsValid()
    ensures ValidSchema(TWICE) && WellFormed(TWICE, Tables(map[], 0))
  {
    assert ValidClass(TWICE, TWICE["A"]) && ValidClass(TWICE, TWICE["B"]);
  }

  lemma SharerIsNamed(flags: seq<Prim>, env: map<Ref, Obj>)
    requires env == map[Keyed("A", Int(1)) := Sharer(flags), Keyed("B", Int(1)) := Shared(flags)]
    ensures Named(TWICE, env, Sharer(flags))
  {
    var a, b := Sharer(flags), Shared(flags);
    assert Named(TWICE, env, b);
    assert forall i :: 0 <= i < 3 ==> NamedVal(TWICE, env, a.vals[i]);
  }

  lemma SharedOccurs(flags: seq<Prim>)
    ensures Keyed("B", Int(1)) in Keys(TWICE, Sharer(flags))
    ensures |Occurrences(TWICE, Keyed("B", Int(1)), Sharer(flags))| == 2 && |Occurrences(TWICE, Keyed("A", Int(1)), Sharer(flags))| == 1
  {
    var a, b := Sharer(flags), Shared(flags);
    assert Keyed("B", Int(1)) in Keys(TWICE, b);
    assert Keyed("B", Int(1)) in ValKeys(TWICE, a.vals[1]);
    forall r: Ref ensures Occurrences(TWICE, r, b) == if r == Keyed("B", Int(1)) then [b] else [] {
      assert PropOccurrences(TWICE, r, b.vals, 2) == [] && PropOccurrences(TWICE, r, b.vals, 1) == [];
      assert PropOccurrences(TWICE, r, b.vals, 0) == [];
    }
    forall r: Ref ensures PropOccurrences(TWICE, r, a.vals, 0) == Occurrences(TWICE, r, b) + Occurrences(TWICE, r, b) {
      assert PropOccurrences(TWICE, r, a.vals, 3) == [];
      assert PropOccurrences(TWICE, r, a.vals, 2) == Occurrences(TWICE, r, b);
      assert PropOccurrences(TWICE, r, a.vals, 1) == Occurrences(TWICE, r, b) + Occurrences(TWICE, r, b);
    }
  }
}
