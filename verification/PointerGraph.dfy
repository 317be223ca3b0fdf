/** Object graphs as they are in memory: objects pointing to each other. */
module PointerGraph {
  import opened Wrappers
  import opened Store
  import opened Graph

  // The accessors visit the unfolding of the graph, which is finite exactly if the graph has no cycle.

  type Ptr = nat

  datatype Slot = Plain(v: Val) | Pointer(p: Option<Ptr>) | Pointers(ps: seq<Option<Ptr>>)

  datatype Node = Node(cls: Class, slots: seq<Slot>)

  type Memory = map<Ptr, Node>

  function SlotPointers(s: Slot): set<Ptr> {
    match s
    case Plain(_) => {}
    case Pointer(p) => if p.Some? then {p.value} else {}
    case Pointers(ps) => set i | 0 <= i < |ps| && ps[i].Some? :: ps[i].value
  }

  predicate PointsTo(m: Memory, p: Ptr, q: Ptr) {
    p in m && exists i :: 0 <= i < |m[p].slots| && q in SlotPointers(m[p].slots[i])
  }

  /** No pointer dangles. */
  ghost predicate Sound(m: Memory) {
    forall p, q :: PointsTo(m, p, q) ==> q in m
  }

  /** The recursion of the accessors from object `p`, at most `depth` objects deep: the object graph
      it visits, or `None` if it would go deeper. */
  function Visit(m: Memory, p: Ptr, depth: nat): Option<Obj>
    requires p in m
    decreases depth, 0, 0, 0
  {
    if depth == 0 then None
    else match VisitSlots(m, m[p].slots, depth - 1)
         case Some(vals) => Some(Obj(m[p].cls, vals))
         case None => None
  }

  function VisitSlots(m: Memory, slots: seq<Slot>, depth: nat): (r: Option<seq<Val>>)
    ensures r.Some? <==> forall i :: 0 <= i < |slots| ==> VisitSlot(m, slots[i], depth).Some?
    ensures r.Some? ==> |r.value| == |slots| && forall i :: 0 <= i < |slots| ==> Some(r.value[i]) == VisitSlot(m, slots[i], depth)
    decreases depth, 2, |slots|, 0
  {
    if slots == [] then Some([])
    else
      var init := VisitSlots(m, slots[..|slots| - 1], depth);
      var last := VisitSlot(m, slots[|slots| - 1], depth);
      assert forall i :: 0 <= i < |slots| - 1 ==> slots[..|slots| - 1][i] == slots[i];
      if init.Some? && last.Some? then Some(init.value + [last.value]) else None
  }

  function VisitSlot(m: Memory, s: Slot, depth: nat): Option<Val>
    decreases depth, 1, 0, 0
  {
    match s
    case Plain(v) => Some(v)
    case Pointer(p) => (match VisitPointer(m, p, depth) case Some(o) => Some(Link(o)) case None => None)
    case Pointers(ps) => (match VisitPointers(m, ps, depth) case Some(os) => Some(Links(os)) case None => None)
  }

  function VisitPointers(m: Memory, ps: seq<Option<Ptr>>, depth: nat): (r: Option<seq<Option<Obj>>>)
    ensures r.Some? <==> forall i :: 0 <= i < |ps| ==> VisitPointer(m, ps[i], depth).Some?
    ensures r.Some? ==> |r.value| == |ps| && forall i :: 0 <= i < |ps| ==> Some(r.value[i]) == VisitPointer(m, ps[i], depth)
    decreases depth, 0, 1, |ps|
  {
    if ps == [] then Some([])
    else
      var init := VisitPointers(m, ps[..|ps| - 1], depth);
      var last := VisitPointer(m, ps[|ps| - 1], depth);
      assert forall i :: 0 <= i < |ps| - 1 ==> ps[..|ps| - 1][i] == ps[i];
      if init.Some? && last.Some? then Some(init.value + [last.value]) else None
  }

  /** A null pointer visits nothing. */
  function VisitPointer(m: Memory, p: Option<Ptr>, depth: nat): Option<Option<Obj>>
    decreases depth, 0, 0, 1
  {
    if p.None? then Some(None)
    else if p.value !in m then None
    else match Visit(m, p.value, depth) case Some(o) => Some(Some(o)) case None => None
  }

  /** A visit succeeds exactly if the visits of all objects pointed to succeed, one level up. */
  lemma VisitStep(m: Memory, p: Ptr, depth: nat)
    requires Sound(m) && p in m
    ensures Visit(m, p, depth + 1).Some? <==> forall q :: PointsTo(m, p, q) ==> Visit(m, q, depth).Some?
  {
    var slots := m[p].slots;
    forall i | 0 <= i < |slots| ensures VisitSlot(m, slots[i], depth).Some? <==> SlotVisited(m, slots[i], depth) {
      forall q | q in SlotPointers(slots[i]) ensures q in m { assert PointsTo(m, p, q); }
      SlotStep(m, slots[i], depth);
    }
    if Visit(m, p, depth + 1).Some? {
      forall q | PointsTo(m, p, q) ensures Visit(m, q, depth).Some? {
        var i :| 0 <= i < |slots| && q in SlotPointers(slots[i]);
        assert SlotVisited(m, slots[i], depth);
      }
    }
    if forall q :: PointsTo(m, p, q) ==> Visit(m, q, depth).Some? {
      forall i | 0 <= i < |slots| ensures SlotVisited(m, slots[i], depth) {
        forall q | q in SlotPointers(slots[i]) ensures q in m && Visit(m, q, depth).Some? { assert PointsTo(m, p, q); }
      }
    }
  }

  predicate SlotVisited(m: Memory, s: Slot, depth: nat) {
    forall q :: q in SlotPointers(s) ==> q in m && Visit(m, q, depth).Some?
  }

  lemma SlotStep(m: Memory, s: Slot, depth: nat)
    requires forall q :: q in SlotPointers(s) ==> q in m
    ensures VisitSlot(m, s, depth).Some? <==> SlotVisited(m, s, depth)
  {
    if s.Pointers? {
      forall i | 0 <= i < |s.ps| && s.ps[i].Some? ensures s.ps[i].value in SlotPointers(s) {}
    }
  }

  /** Going deeper never loses a visit. */
  lemma {:induction false} VisitDeeper(m: Memory, p: Ptr, depth: nat, more: nat)
    requires Sound(m) && p in m && Visit(m, p, depth).Some? && depth <= more
    ensures Visit(m, p, more).Some?
    decreases depth
  {
    VisitStep(m, p, depth - 1);
    VisitStep(m, p, more - 1);
    forall q | PointsTo(m, p, q) ensures Visit(m, q, more - 1).Some? {
      VisitDeeper(m, q, depth - 1, more - 1);
    }
  }

  /** Every pointer goes from a higher to a lower rank. */
  ghost predicate Ranked(m: Memory, rank: map<Ptr, nat>) {
    m.Keys <= rank.Keys && forall p, q :: PointsTo(m, p, q) ==> q in rank && rank[q] < rank[p]
  }

  lemma {:induction false} RankedVisit(m: Memory, rank: map<Ptr, nat>, p: Ptr)
    requires Sound(m) && Ranked(m, rank) && p in m
    ensures Visit(m, p, rank[p] + 1).Some?
    decreases rank[p]
  {
    VisitStep(m, p, rank[p]);
    forall q | PointsTo(m, p, q) ensures Visit(m, q, rank[p]).Some? {
      RankedVisit(m, rank, q);
      VisitDeeper(m, q, rank[q] + 1, rank[p]);
    }
  }

  /** The smallest depth at which the visit of `p` succeeds. */
  ghost predicate IsDepth(m: Memory, p: Ptr, k: nat)
    requires p in m
  {
    k > 0 && Visit(m, p, k).Some? && Visit(m, p, k - 1).None?
  }

  lemma {:induction false} HasDepth(m: Memory, p: Ptr, depth: nat)
    requires p in m && Visit(m, p, depth).Some?
    ensures exists k: nat :: IsDepth(m, p, k)
  {
    if Visit(m, p, depth - 1).Some? {
      HasDepth(m, p, depth - 1);
    } else {
      assert IsDepth(m, p, depth);
    }
  }

  ghost predicate Ends(m: Memory, p: Ptr)
    requires p in m
  {
    exists depth: nat :: Visit(m, p, depth).Some?
  }

  ghost function Depth(m: Memory, p: Ptr): (k: nat)
    requires p in m && Ends(m, p)
    ensures IsDepth(m, p, k)
  {
    var d: nat :| Visit(m, p, d).Some?;
    HasDepth(m, p, d);
    var k: nat :| IsDepth(m, p, k);
    k
  }

  lemma DepthDrops(m: Memory, p: Ptr, q: Ptr, k: nat, l: nat)
    requires Sound(m) && p in m && q in m && PointsTo(m, p, q) && IsDepth(m, p, k) && IsDepth(m, q, l)
    ensures l < k
  {
    VisitStep(m, p, k - 1);
    if k <= l { VisitDeeper(m, q, k - 1, l - 1); }
  }

  ghost function Depths(m: Memory): map<Ptr, nat>
    requires forall p :: p in m ==> Ends(m, p)
  {
    map p | p in m :: Depth(m, p)
  }

  lemma DepthsRank(m: Memory)
    requires Sound(m) && forall p :: p in m ==> Ends(m, p)
    ensures Ranked(m, Depths(m))
  {
    var rank := Depths(m);
    forall p, q | PointsTo(m, p, q) ensures q in rank && rank[q] < rank[p] {
      DepthDrops(m, p, q, Depth(m, p), Depth(m, q));
    }
  }

  /** The recursion ends on every object exactly if the graph is acyclic: if its objects can be ranked. */
  lemma EndsIffRanked(m: Memory)
    requires Sound(m)
    ensures (forall p :: p in m ==> Ends(m, p)) <==> exists rank :: Ranked(m, rank)
  {
    if exists rank :: Ranked(m, rank) {
      var rank :| Ranked(m, rank);
      forall p | p in m ensures Ends(m, p) { RankedVisit(m, rank, p); }
    }
    if forall p :: p in m ==> Ends(m, p) {
      DepthsRank(m);
    }
  }
}
