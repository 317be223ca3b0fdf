/** The operators outside of a query. */
module DirectMode {
  import opened Wrappers
  import opened Conditions
  import opened Predicates
  import opened QueryMeaning
  import QueryExact

  /** `v` holds the comparisons that come out true; `operator||` on two plain results computes their
      conjunction. */
  ghost predicate Direct(t: Pred, v: set<Leaf>) {
    match t
    case Is(l) => l in v
    case Everything => true
    case Nothing => false
    case Not(p) => !Direct(p, v)
    case And(p, q) => Direct(p, v) && Direct(q, v)
    case Or(p, q) => Direct(p, v) && Direct(q, v)
  }

  /** The Boolean meaning. */
  ghost predicate Boolean(t: Pred, v: set<Leaf>) {
    match t
    case Is(l) => l in v
    case Everything => true
    case Nothing => false
    case Not(p) => !Boolean(p, v)
    case And(p, q) => Boolean(p, v) && Boolean(q, v)
    case Or(p, q) => Boolean(p, v) || Boolean(q, v)
  }

  predicate NoDisjunction(t: Pred) {
    match t
    case Not(p) => NoDisjunction(p)
    case And(p, q) => NoDisjunction(p) && NoDisjunction(q)
    case Or(_, _) => false
    case _ => true
  }

  predicate NoConstants(t: Pred) {
    match t
    case Is(_) => true
    case Not(p) => NoConstants(p)
    case And(p, q) => NoConstants(p) && NoConstants(q)
    case Or(p, q) => NoConstants(p) && NoConstants(q)
    case _ => false
  }

  /** No comparison occurs twice. */
  predicate Once(t: Pred) {
    match t
    case Not(p) => Once(p)
    case And(p, q) => Once(p) && Once(q) && Leaves(p) !! Leaves(q)
    case Or(p, q) => Once(p) && Once(q) && Leaves(p) !! Leaves(q)
    case _ => true
  }

  /** The predicate that is computed. */
  function Conjoined(t: Pred): Pred {
    match t
    case Not(p) => Not(Conjoined(p))
    case And(p, q) => And(Conjoined(p), Conjoined(q))
    case Or(p, q) => And(Conjoined(p), Conjoined(q))
    case _ => t
  }

  /** The constants settle `t`, and settle alike what is computed. */
  predicate SettledAlike(t: Pred) {
    Const(t).Some? && Const(Conjoined(t)) == Const(t)
  }

  /** By its constants alone `t` is false, but computed as true. */
  predicate FalseMadeTrue(t: Pred) {
    Const(t) == Some(false) && Const(Conjoined(t)) == Some(true)
  }

  /** Each disjunction is settled by constants, or conjoins one operand with a false one that is
      computed as true. */
  predicate DirectGuard(t: Pred) {
    match t
    case Not(p) => DirectGuard(p)
    case And(p, q) => SettledAlike(t) || (DirectGuard(p) && DirectGuard(q))
    case Or(p, q) =>
      || SettledAlike(t)
      || (FalseMadeTrue(p) && DirectGuard(q))
      || (FalseMadeTrue(q) && DirectGuard(p))
    case _ => true
  }

  ghost predicate DirectAgrees(t: Pred) {
    forall v :: Direct(t, v) == Boolean(t, v)
  }

  /** Only the comparisons of the predicate matter. */
  lemma {:induction false} DirectLocal(t: Pred, v: set<Leaf>, v': set<Leaf>)
    requires v * Leaves(t) == v' * Leaves(t)
    ensures Direct(t, v) == Direct(t, v') && Boolean(t, v) == Boolean(t, v')
    decreases t, 1
  {
    match t
    case Is(l) => assert l in v <==> l in v * Leaves(t);
    case Not(p) => DirectLocal(p, v, v');
    case And(p, q) => DirectLocalOperands(t, p, q, v, v');
    case Or(p, q) => DirectLocalOperands(t, p, q, v, v');
    case _ =>
  }

  lemma {:induction false} DirectLocalOperands(t: Pred, p: Pred, q: Pred, v: set<Leaf>, v': set<Leaf>)
    requires t == And(p, q) || t == Or(p, q)
    requires v * Leaves(t) == v' * Leaves(t)
    ensures Direct(p, v) == Direct(p, v') && Direct(q, v) == Direct(q, v')
    ensures Boolean(p, v) == Boolean(p, v') && Boolean(q, v) == Boolean(q, v')
    decreases t, 0
  {
    assert v * Leaves(p) == v * Leaves(t) * Leaves(p) == v' * Leaves(p);
    assert v * Leaves(q) == v * Leaves(t) * Leaves(q) == v' * Leaves(q);
    DirectLocal(p, v, v');
    DirectLocal(q, v, v');
  }

  /** The outcomes `vp` for the one operand and `vq` for the other. */
  function Mix(p: Pred, q: Pred, vp: set<Leaf>, vq: set<Leaf>): set<Leaf> {
    vp * Leaves(p) + vq * Leaves(q)
  }

  lemma DirectMix(p: Pred, q: Pred, vp: set<Leaf>, vq: set<Leaf>)
    requires Leaves(p) !! Leaves(q)
    ensures var v := Mix(p, q, vp, vq);
            && Direct(p, v) == Direct(p, vp) && Direct(q, v) == Direct(q, vq)
            && Boolean(p, v) == Boolean(p, vp) && Boolean(q, v) == Boolean(q, vq)
  {
    var v := Mix(p, q, vp, vq);
    assert v * Leaves(p) == vp * Leaves(p);
    assert v * Leaves(q) == vq * Leaves(q);
    DirectLocal(p, v, vp);
    DirectLocal(q, v, vq);
  }

  lemma {:induction false} ConstBoolean(t: Pred, v: set<Leaf>)
    requires Const(t).Some?
    ensures Boolean(t, v) == Const(t).value
  {
    match t
    case Not(p) => ConstBoolean(p, v);
    case And(p, q) => if Const(p).Some? { ConstBoolean(p, v); } if Const(q).Some? { ConstBoolean(q, v); }
    case Or(p, q) => if Const(p).Some? { ConstBoolean(p, v); } if Const(q).Some? { ConstBoolean(q, v); }
    case _ =>
  }

  lemma {:induction false} ConjoinedIsComputed(t: Pred, v: set<Leaf>)
    ensures Boolean(Conjoined(t), v) == Direct(t, v)
    ensures Leaves(Conjoined(t)) == Leaves(t) && (Once(t) ==> Once(Conjoined(t)))
  {
    match t
    case Not(p) => ConjoinedIsComputed(p, v);
    case And(p, q) => ConjoinedIsComputed(p, v); ConjoinedIsComputed(q, v);
    case Or(p, q) => ConjoinedIsComputed(p, v); ConjoinedIsComputed(q, v);
    case _ =>
  }

  lemma ConstDirect(t: Pred, v: set<Leaf>)
    requires Const(Conjoined(t)).Some?
    ensures Direct(t, v) == Const(Conjoined(t)).value
  {
    ConjoinedIsComputed(t, v);
    ConstBoolean(Conjoined(t), v);
  }

  /** A predicate takes each truth value that its constants do not exclude. */
  lemma {:induction false} Takes(t: Pred, x: bool) returns (v: set<Leaf>)
    requires Once(t) && Const(t) != Some(!x)
    ensures Boolean(t, v) == x
    decreases t, 1
  {
    match t
    case Is(l) => v := if x then {l} else {};
    case Not(p) => v := Takes(p, !x);
    case And(p, q) => v := TakesOperands(t, p, q, x);
    case Or(p, q) => v := TakesOperands(t, p, q, x);
    case _ => v := {};
  }

  lemma {:induction false} TakesOperands(t: Pred, p: Pred, q: Pred, x: bool) returns (v: set<Leaf>)
    requires (t == And(p, q) || t == Or(p, q)) && Once(t) && Const(t) != Some(!x)
    ensures Boolean(t, v) == x
    decreases t, 0
  {
    var vp, vq := {}, {};
    if Const(p) != Some(!x) { vp := Takes(p, x); }
    if Const(q) != Some(!x) { vq := Takes(q, x); }
    v := Mix(p, q, vp, vq);
    DirectMix(p, q, vp, vq);
  }

  /** What is computed takes the values its own constants allow. */
  lemma DirectTakes(t: Pred, x: bool) returns (v: set<Leaf>)
    requires Once(t) && Const(Conjoined(t)) != Some(!x)
    ensures Direct(t, v) == x
  {
    ConjoinedIsComputed(t, {});
    v := Takes(Conjoined(t), x);
    ConjoinedIsComputed(t, v);
  }

  lemma DirectSplit(t: Pred, p: Pred, q: Pred, vp: set<Leaf>, vq: set<Leaf>)
    requires (t == And(p, q) || t == Or(p, q)) && Once(t) && DirectAgrees(t)
    ensures (Direct(p, vp) && Direct(q, vq)) ==
            if t.And? then Boolean(p, vp) && Boolean(q, vq) else Boolean(p, vp) || Boolean(q, vq)
  {
    DirectMix(p, q, vp, vq);
    assert Direct(t, Mix(p, q, vp, vq)) == Boolean(t, Mix(p, q, vp, vq));
  }

  lemma {:induction false} GuardAgrees(t: Pred, v: set<Leaf>)
    requires DirectGuard(t)
    ensures Direct(t, v) == Boolean(t, v)
  {
    if SettledAlike(t) {
      ConstBoolean(t, v);
      ConstDirect(t, v);
    } else {
      match t
      case Not(p) => GuardAgrees(p, v);
      case And(p, q) => GuardAgrees(p, v); GuardAgrees(q, v);
      case Or(p, q) =>
        var (made, other) := if FalseMadeTrue(p) && DirectGuard(q) then (p, q) else (q, p);
        ConstBoolean(made, v);
        ConstDirect(made, v);
        GuardAgrees(other, v);
      case _ =>
    }
  }

  lemma {:induction false} AgreesGuarded(t: Pred)
    requires Once(t) && DirectAgrees(t)
    ensures DirectGuard(t)
    decreases t, 1
  {
    match t
    case Not(p) =>
      forall v ensures Direct(p, v) == Boolean(p, v) { assert Direct(t, v) == Boolean(t, v); }
      AgreesGuarded(p);
    case And(p, q) => if Const(t).Some? { SettledAgrees(t); } else { ConjunctionGuarded(t, p, q); }
    case Or(p, q) => if Const(t).Some? { SettledAgrees(t); } else { DisjunctionGuarded(t, p, q); }
    case _ =>
  }

  lemma SettledAgrees(t: Pred)
    requires Once(t) && DirectAgrees(t) && Const(t).Some?
    ensures SettledAlike(t)
  {
    if Const(Conjoined(t)) != Const(t) {
      var v := DirectTakes(t, !Const(t).value);
      ConstBoolean(t, v);
      assert false;
    }
  }

  lemma {:induction false} ConjunctionGuarded(t: Pred, p: Pred, q: Pred)
    requires t == And(p, q) && Once(t) && DirectAgrees(t) && Const(t).None?
    ensures DirectGuard(p) && DirectGuard(q)
    decreases t, 0
  {
    var wp := Takes(p, true);
    var wq := Takes(q, true);
    DirectSplit(t, p, q, wp, wq);
    forall v ensures Direct(p, v) == Boolean(p, v) { DirectSplit(t, p, q, v, wq); }
    forall v ensures Direct(q, v) == Boolean(q, v) { DirectSplit(t, p, q, wp, v); }
    AgreesGuarded(p);
    AgreesGuarded(q);
  }

  lemma {:induction false} DisjunctionGuarded(t: Pred, p: Pred, q: Pred)
    requires t == Or(p, q) && Once(t) && DirectAgrees(t) && Const(t).None?
    ensures (FalseMadeTrue(p) && DirectGuard(q)) || (FalseMadeTrue(q) && DirectGuard(p))
    decreases t, 0
  {
    var vp := Takes(p, false);
    var vq := Takes(q, false);
    if Const(p).None? && Const(q).None? {
      var wp := Takes(p, true);
      var wq := Takes(q, true);
      DirectSplit(t, p, q, vp, vq);
      DirectSplit(t, p, q, vp, wq);
      DirectSplit(t, p, q, wp, vq);
      assert false;
    } else if Const(p).None? {
      var wp := Takes(p, true);
      forall v ensures Direct(q, v) && !Boolean(q, v) { DirectSplit(t, p, q, wp, v); ConstBoolean(q, v); }
      MadeTrue(q);
      forall v ensures Direct(p, v) == Boolean(p, v) { DirectSplit(t, p, q, v, vq); }
      AgreesGuarded(p);
    } else {
      var wq := Takes(q, true);
      forall v ensures Direct(p, v) && !Boolean(p, v) { DirectSplit(t, p, q, v, wq); ConstBoolean(p, v); }
      MadeTrue(p);
      forall v ensures Direct(q, v) == Boolean(q, v) { DirectSplit(t, p, q, vp, v); }
      AgreesGuarded(q);
    }
  }

  lemma MadeTrue(t: Pred)
    requires Once(t) && Const(t) == Some(false) && forall v :: Direct(t, v)
    ensures FalseMadeTrue(t)
  {
    if Const(Conjoined(t)) != Some(true) { var v := DirectTakes(t, false); }
  }

  /** Outside of a query the operators compute the Boolean meaning, for all outcomes of the
      comparisons, exactly for the predicates inside the guard. */
  lemma DirectMeaning(t: Pred)
    requires Once(t)
    ensures DirectAgrees(t) <==> DirectGuard(t)
  {
    if DirectGuard(t) {
      forall v ensures Direct(t, v) == Boolean(t, v) { GuardAgrees(t, v); }
    } else if DirectAgrees(t) {
      AgreesGuarded(t);
    }
  }

  lemma {:induction false} ShapeIsDirectlyGuarded(t: Pred, u: Pred)
    requires QueryExact.SameShape(t, u)
    ensures DirectGuard(t) == DirectGuard(u)
    ensures Const(t) == Const(u) && Const(Conjoined(t)) == Const(Conjoined(u))
  {
    match t
    case Not(p) => ShapeIsDirectlyGuarded(p, u.p);
    case And(p, q) => ShapeIsDirectlyGuarded(p, u.left); ShapeIsDirectlyGuarded(q, u.right);
    case Or(p, q) => ShapeIsDirectlyGuarded(p, u.left); ShapeIsDirectlyGuarded(q, u.right);
    case _ =>
  }

  lemma {:induction false} NumberedOnce(t: Pred, n: nat)
    ensures Once(QueryExact.Numbered(t, n))
    ensures forall l :: l in Leaves(QueryExact.Numbered(t, n)) ==> n <= l.col < n + QueryExact.Count(t)
  {
    match t
    case Not(p) => NumberedOnce(p, n);
    case And(p, q) => NumberedOnce(p, n); NumberedOnce(q, n + QueryExact.Count(p));
    case Or(p, q) => NumberedOnce(p, n); NumberedOnce(q, n + QueryExact.Count(p));
    case _ =>
  }

  /** For every choice of comparisons, repeated or not: exactly for the shapes inside the guard. */
  lemma DirectShapeMeaning(t: Pred)
    ensures (forall u :: QueryExact.SameShape(t, u) ==> DirectAgrees(u)) <==> DirectGuard(t)
  {
    if DirectGuard(t) {
      forall u | QueryExact.SameShape(t, u) ensures DirectAgrees(u) {
        ShapeIsDirectlyGuarded(t, u);
        forall v ensures Direct(u, v) == Boolean(u, v) { GuardAgrees(u, v); }
      }
    } else {
      var u := QueryExact.Numbered(t, 0);
      QueryExact.NumberedFacts(t, 0);
      NumberedOnce(t, 0);
      ShapeIsDirectlyGuarded(t, u);
      DirectMeaning(u);
    }
  }

  /** Without constants, these are the predicates without `||`. */
  lemma {:induction false} DirectGuardIsNoDisjunction(t: Pred)
    requires NoConstants(t)
    ensures DirectGuard(t) <==> NoDisjunction(t)
    ensures Const(t).None?
  {
    match t
    case Is(_) =>
    case Not(p) => DirectGuardIsNoDisjunction(p);
    case And(p, q) => DirectGuardIsNoDisjunction(p); DirectGuardIsNoDisjunction(q);
    case Or(p, q) => DirectGuardIsNoDisjunction(p); DirectGuardIsNoDisjunction(q);
  }

  // ----- comparing stored links

  /** `link == other` on a stored link compares with the object that holds the other link. */
  predicate DirectLinkEqual(link: Option<Key>, rhs: Operand) {
    match rhs
    case Nothing => link == None
    case Object(k) => link == Some(k)
    case LinkOf(holder, _) => link == Some(holder)
  }

  /** `link != other` only asks whether the link is set. */
  predicate DirectLinkNotEqual(link: Option<Key>, rhs: Operand) {
    link.Some?
  }

  /** Where the right side leads. */
  function Leads(rhs: Operand): Option<Key> {
    match rhs
    case Nothing => None
    case Object(k) => Some(k)
    case LinkOf(_, target) => target
  }

  /** `==` is right exactly if the right side is no link, or leads to its own holder, or the left link
      leads to neither. */
  lemma LinkEqualMeaning(link: Option<Key>, rhs: Operand)
    ensures DirectLinkEqual(link, rhs) == (link == Leads(rhs)) <==>
              (rhs.LinkOf? ==> rhs.target == Some(rhs.holder) || (link != rhs.target && link != Some(rhs.holder)))
  {
  }

  /** `!=` is right exactly if the left link is set and leads elsewhere, or both are null. */
  lemma LinkNotEqualMeaning(link: Option<Key>, rhs: Operand)
    ensures DirectLinkNotEqual(link, rhs) == (link != Leads(rhs)) <==>
              if link.Some? then link != Leads(rhs) else Leads(rhs) == None
  {
  }
}
