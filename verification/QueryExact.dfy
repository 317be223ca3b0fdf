/** The guard is exact. */
module QueryExact {
  import opened Wrappers
  import opened Conditions
  import opened Predicates
  import opened QueryMeaning

  ghost function Atoms(t: Pred): iset<Atom> {
    match t
    case Is(l) => iset{Recorded(l)}
    case Not(p) => Atoms(p)
    case And(p, q) => Atoms(p) + Atoms(q)
    case Or(p, q) => Atoms(p) + Atoms(q)
    case _ => iset{}
  }

  /** No comparison occurs twice. */
  ghost predicate Distinct(t: Pred) {
    match t
    case Not(p) => Distinct(p)
    case And(p, q) => Distinct(p) && Distinct(q) && Atoms(p) !! Atoms(q)
    case Or(p, q) => Distinct(p) && Distinct(q) && Atoms(p) !! Atoms(q)
    case _ => true
  }

  lemma {:induction false} AtomsFacts(t: Pred)
    ensures FirstLeaf(t).Some? ==> Recorded(FirstLeaf(t).value) in Atoms(t)
    ensures LastLeaf(t).Some? ==> Recorded(LastLeaf(t).value) in Atoms(t)
  {
    match t
    case Not(p) => AtomsFacts(p);
    case And(p, q) => AtomsFacts(p); AtomsFacts(q);
    case Or(p, q) => AtomsFacts(p); AtomsFacts(q);
    case _ =>
  }

  /** Only the comparisons of the predicate matter. */
  lemma {:induction false} Local(s: Storage, t: Pred, b: bool, v: iset<Atom>, v': iset<Atom>)
    requires v * Atoms(t) == v' * Atoms(t)
    ensures Mean(t, v) == Mean(t, v') && Sem(s, t, b, v) == Sem(s, t, b, v')
    decreases t
  {
    match t
    case Is(l) => assert Recorded(l) in Atoms(t); assert Recorded(l) in v <==> Recorded(l) in v * Atoms(t);
    case Not(p) => Local(s, p, b, v, v');
    case And(p, q) => LocalOperands(s, t, p, q, b, v, v');
    case Or(p, q) => LocalOperands(s, t, p, q, b, v, v');
    case _ =>
  }

  lemma {:induction false} LocalOperands(s: Storage, t: Pred, p: Pred, q: Pred, b: bool, v: iset<Atom>, v': iset<Atom>)
    requires t == And(p, q) || t == Or(p, q)
    requires v * Atoms(t) == v' * Atoms(t)
    ensures Mean(p, v) == Mean(p, v') && Sem(s, p, b, v) == Sem(s, p, b, v')
    ensures var o := Sem(s, p, b, v).builder;
            Mean(q, v) == Mean(q, v') && Sem(s, q, o, v) == Sem(s, q, o, v')
    decreases t, 0
  {
    assert v * Atoms(p) == v * Atoms(t) * Atoms(p) == v' * Atoms(p);
    assert v * Atoms(q) == v * Atoms(t) * Atoms(q) == v' * Atoms(q);
    Local(s, p, b, v, v');
    Local(s, q, Sem(s, p, b, v).builder, v, v');
  }

  /** The assignment that is `vp` on the one operand and `vq` on the other. */
  ghost function Mix(p: Pred, q: Pred, vp: iset<Atom>, vq: iset<Atom>): iset<Atom> {
    vp * Atoms(p) + vq * Atoms(q)
  }

  lemma MixIs(s: Storage, p: Pred, q: Pred, b: bool, vp: iset<Atom>, vq: iset<Atom>)
    requires Atoms(p) !! Atoms(q)
    ensures var v := Mix(p, q, vp, vq);
            var o := Sem(s, p, b, vp).builder;
            && Mean(p, v) == Mean(p, vp) && Sem(s, p, b, v) == Sem(s, p, b, vp)
            && Mean(q, v) == Mean(q, vq) && Sem(s, q, o, v) == Sem(s, q, o, vq)
    ensures forall a :: a in Atoms(q) ==> (a in Mix(p, q, vp, vq) <==> a in vq)
    ensures forall a :: a in Atoms(p) ==> (a in Mix(p, q, vp, vq) <==> a in vp)
  {
    var v := Mix(p, q, vp, vq);
    assert v * Atoms(p) == vp * Atoms(p);
    assert v * Atoms(q) == vq * Atoms(q);
    Local(s, p, b, v, vp);
    Local(s, q, Sem(s, p, b, vp).builder, v, vq);
  }

  /** A predicate takes each truth value that its constants do not exclude. */
  lemma {:induction false} Takes(t: Pred, x: bool) returns (v: iset<Atom>)
    requires Distinct(t) && Const(t) != Some(!x)
    ensures Mean(t, v) == x
    decreases t, 1
  {
    match t
    case Is(l) => v := if x then iset{Recorded(l)} else iset{};
    case Not(p) => v := Takes(p, !x);
    case And(p, q) => v := TakesOperands(t, false, p, q, x);
    case Or(p, q) => v := TakesOperands(t, true, p, q, x);
    case _ => v := iset{};
  }

  lemma {:induction false} TakesOperands(t: Pred, decides: bool, p: Pred, q: Pred, x: bool) returns (v: iset<Atom>)
    requires Operands(t, decides, p, q) && Distinct(t) && Const(t) != Some(!x)
    ensures Mean(t, v) == x
    decreases t, 0
  {
    var vp, vq := iset{}, iset{};
    if Const(p) != Some(!x) { vp := Takes(p, x); }
    if Const(q) != Some(!x) { vq := Takes(q, x); }
    v := Mix(p, q, vp, vq);
    MixIs(Owned, p, q, true, vp, vq);
  }

  lemma {:induction false} FirstFalseFacts(t: Pred)
    requires Distinct(t) && FirstLeaf(t).Some?
    ensures Distinct(FirstFalse(t)) && Atoms(FirstFalse(t)) == Atoms(t) - iset{Recorded(FirstLeaf(t).value)}
    ensures forall v :: Recorded(FirstLeaf(t).value) !in v ==> Mean(FirstFalse(t), v) == Mean(t, v)
  {
    AtomsFacts(t);
    match t
    case Is(_) =>
    case Not(p) => FirstFalseFacts(p);
    case And(p, q) => AtomsFacts(p); AtomsFacts(q); if FirstLeaf(p).Some? { FirstFalseFacts(p); } else { FirstFalseFacts(q); }
    case Or(p, q) => AtomsFacts(p); AtomsFacts(q); if FirstLeaf(p).Some? { FirstFalseFacts(p); } else { FirstFalseFacts(q); }
  }

  lemma {:induction false} LastFalseFacts(t: Pred)
    requires Distinct(t) && LastLeaf(t).Some?
    ensures Distinct(LastFalse(t)) && Atoms(LastFalse(t)) == Atoms(t) - iset{Recorded(LastLeaf(t).value)}
    ensures forall v :: Recorded(LastLeaf(t).value) !in v ==> Mean(LastFalse(t), v) == Mean(t, v)
  {
    AtomsFacts(t);
    match t
    case Is(_) =>
    case Not(p) => LastFalseFacts(p);
    case And(p, q) => AtomsFacts(p); AtomsFacts(q); if LastLeaf(q).Some? { LastFalseFacts(q); } else { LastFalseFacts(p); }
    case Or(p, q) => AtomsFacts(p); AtomsFacts(q); if LastLeaf(q).Some? { LastFalseFacts(q); } else { LastFalseFacts(p); }
  }

  /** Unless a false first comparison excludes `x`, it is taken with that comparison false. */
  lemma TakesFirstFalse(t: Pred, x: bool) returns (v: iset<Atom>)
    requires Distinct(t) && FirstLeaf(t).Some? && Const(FirstFalse(t)) != Some(!x)
    ensures Mean(t, v) == x && Recorded(FirstLeaf(t).value) !in v
  {
    FirstFalseFacts(t);
    var w := Takes(FirstFalse(t), x);
    v := w - iset{Recorded(FirstLeaf(t).value)};
    assert v * Atoms(FirstFalse(t)) == w * Atoms(FirstFalse(t));
    Local(Owned, FirstFalse(t), true, v, w);
  }

  lemma TakesLastFalse(t: Pred, x: bool) returns (v: iset<Atom>)
    requires Distinct(t) && LastLeaf(t).Some? && Const(LastFalse(t)) != Some(!x)
    ensures Mean(t, v) == x && Recorded(LastLeaf(t).value) !in v
  {
    LastFalseFacts(t);
    var w := Takes(LastFalse(t), x);
    v := w - iset{Recorded(LastLeaf(t).value)};
    assert v * Atoms(LastFalse(t)) == w * Atoms(LastFalse(t));
    Local(Owned, LastFalse(t), true, v, w);
  }

  /** A false last comparison leaves the builder with a false query. */
  lemma {:induction false} BuilderNeedsLast(s: Storage, t: Pred, b: bool, v: iset<Atom>)
    requires LastLeaf(t).Some? && Recorded(LastLeaf(t).value) !in v
    ensures !Sem(s, t, b, v).builder
    decreases t
  {
    match t
    case Is(_) =>
    case Not(p) => BuilderNeedsLast(s, p, b, v);
    case And(p, q) => LastOfOperands(s, t, p, q, b, v);
      if LastLeaf(q).Some? { BuilderNeedsLast(s, q, Sem(s, p, b, v).builder, v); } else { BuilderNeedsLast(s, p, b, v); }
    case Or(p, q) => LastOfOperands(s, t, p, q, b, v);
      if LastLeaf(q).Some? { BuilderNeedsLast(s, q, Sem(s, p, b, v).builder, v); } else { BuilderNeedsLast(s, p, b, v); }
  }

  /** The builder is left as the operand with the last comparison leaves it, or emptier. */
  lemma LastOfOperands(s: Storage, t: Pred, p: Pred, q: Pred, b: bool, v: iset<Atom>)
    requires t == And(p, q) || t == Or(p, q)
    ensures var x := Sem(s, p, b, v);
            Sem(s, t, b, v).builder ==> if LastLeaf(q).Some? then Sem(s, q, x.builder, v).builder else x.builder
  {
    ShapeFacts(q);
    SemFacts(s, p, b, v);
    SemFacts(s, q, Sem(s, p, b, v).builder, v);
    LeftFacts(s, p, q, b, v, v);
  }

  /** The compiled query agrees with the Boolean meaning whatever the comparisons yield. */
  ghost predicate Agree(s: Storage, t: Pred, b: bool) {
    forall v :: Sem(s, t, b, v).result == Mean(t, v)
  }

  lemma {:induction false} AgreementIsSafe(s: Storage, t: Pred, b: bool)
    requires Distinct(t) && Agree(s, t, b)
    ensures Guard(s, t, b)
    decreases t, 2
  {
    match t
    case Is(l) =>
      var v := iset{Recorded(l)};
      assert Sem(s, t, b, v).result == Mean(t, v);
    case Not(p) =>
      forall v ensures Sem(s, p, b, v).result == Mean(p, v) {
        assert Sem(s, t, b, v).result == Mean(t, v);
      }
      AgreementIsSafe(s, p, b);
    case And(p, q) => OperandsSafe(s, t, false, p, q, b);
    case Or(p, q) => OperandsSafe(s, t, true, p, q, b);
    case _ =>
  }

  /** What agreement says about one choice of assignments for the operands. */
  lemma Split(s: Storage, t: Pred, decides: bool, p: Pred, q: Pred, b: bool, vp: iset<Atom>, vq: iset<Atom>)
    requires Operands(t, decides, p, q) && Distinct(t) && Agree(s, t, b)
    ensures var x := Sem(s, p, b, vp);
            var y := Sem(s, q, x.builder, vq);
            Operate(decides, Left(x, y), y.result) == Operate(decides, Mean(p, vp), Mean(q, vq))
  {
    MixIs(s, p, q, b, vp, vq);
    var v := Mix(p, q, vp, vq);
    assert Sem(s, t, b, v).result == Mean(t, v);
  }

  lemma {:induction false} OperandsSafe(s: Storage, t: Pred, decides: bool, p: Pred, q: Pred, b: bool)
    requires Operands(t, decides, p, q) && Distinct(t) && Agree(s, t, b)
    ensures GuardOperands(s, t, decides, p, q, b)
    decreases t, 1
  {
    if Const(p) != Some(decides) && Const(q) != Some(decides) {
      if Const(p).Some? {
        ConstOperand(s, t, decides, p, q, b);
      } else if s.Shared? && KeepsBuilder(p) && StartsExtending(q) {
        if decides { SharedDisjunct(s, t, p, q, b); } else { SharedConjunct(s, t, p, q, b); }
      } else {
        SeparateOperand(s, t, decides, p, q, b);
      }
    }
  }

  /** A left operand that never decides leaves it to the right one, at each query the builder may
      be left with. */
  lemma {:induction false} ConstOperand(s: Storage, t: Pred, decides: bool, p: Pred, q: Pred, b: bool)
    requires Operands(t, decides, p, q) && Distinct(t) && Agree(s, t, b)
    requires Const(p) == Some(!decides)
    ensures Guard(s, q, b && Leaves(p) == {})
    decreases t, 0
  {
    var vp := iset{};
    ShapeFacts(p);
    SemFacts(s, p, b, vp);
    if Leaves(p) != {} { BuilderNeedsLast(s, p, b, vp); }
    ConstSound(s, p, b, vp);
    forall vq ensures Sem(s, q, b && Leaves(p) == {}, vq).result == Mean(q, vq) {
      LeftFacts(s, p, q, b, vp, vq);
      Split(s, t, decides, p, q, b, vp, vq);
    }
    AgreementIsSafe(s, q, b && Leaves(p) == {});
  }

  /** Where the left operand does not decide, the right one agrees on its own. */
  lemma RightAgrees(s: Storage, t: Pred, decides: bool, p: Pred, q: Pred, b: bool, vp: iset<Atom>)
    requires Operands(t, decides, p, q) && Distinct(t) && Agree(s, t, b)
    requires !(s.Shared? && KeepsBuilder(p) && StartsExtending(q))
    requires Const(q) != Some(decides) && Mean(p, vp) != decides
    ensures Agree(s, q, Sem(s, p, b, vp).builder)
  {
    var o := Sem(s, p, b, vp).builder;
    var wq := Takes(q, !decides);
    LeftFacts(s, p, q, b, vp, wq);
    Split(s, t, decides, p, q, b, vp, wq);
    forall vq ensures Sem(s, q, o, vq).result == Mean(q, vq) {
      LeftFacts(s, p, q, b, vp, vq);
      Split(s, t, decides, p, q, b, vp, vq);
    }
  }

  lemma {:induction false} SeparateOperand(s: Storage, t: Pred, decides: bool, p: Pred, q: Pred, b: bool)
    requires Operands(t, decides, p, q) && Distinct(t) && Agree(s, t, b)
    requires !(s.Shared? && KeepsBuilder(p) && StartsExtending(q))
    requires Const(p).None? && Const(q) != Some(decides)
    ensures GuardOperands(s, t, decides, p, q, b)
    decreases t, 0
  {
    ShapeFacts(p);
    if Const(LastFalse(p)) == Some(decides) {
      var wp := Takes(p, !decides);
      RightAgrees(s, t, decides, p, q, b, wp);
      AgreementIsSafe(s, q, Sem(s, p, b, wp).builder);
      if Guard(s, q, false) { GuardGrows(s, q); }
    } else {
      var vp := TakesLastFalse(p, !decides);
      BuilderNeedsLast(s, p, b, vp);
      RightAgrees(s, t, decides, p, q, b, vp);
      AgreementIsSafe(s, q, false);
      GuardGrows(s, q);
    }
    LeftAgrees(s, t, decides, p, q, b);
    AgreementIsSafe(s, p, b);
  }

  /** Where the right operand does not decide, the left one agrees on its own. */
  lemma LeftAgrees(s: Storage, t: Pred, decides: bool, p: Pred, q: Pred, b: bool)
    requires Operands(t, decides, p, q) && Distinct(t) && Agree(s, t, b)
    requires !(s.Shared? && KeepsBuilder(p) && StartsExtending(q))
    requires Leaves(p) != {} && Const(q) != Some(decides)
    requires Guard(s, q, true) && (Guard(s, q, false) || Const(LastFalse(p)) == Some(decides))
    ensures Agree(s, p, b)
  {
    var wq := Takes(q, !decides);
    forall vp ensures Sem(s, p, b, vp).result == Mean(p, vp) {
      LeftFacts(s, p, q, b, vp, wq);
      assert Sem(s, p, b, vp).shares ==> Sem(s, p, b, vp).builder == Sem(s, p, b, vp).result by { SemFacts(s, p, b, vp); }
      Split(s, t, decides, p, q, b, vp, wq);
      RightOrLeft(s, decides, p, q, b, vp, wq);
    }
  }

  lemma RightOrLeft(s: Storage, decides: bool, p: Pred, q: Pred, b: bool, vp: iset<Atom>, vq: iset<Atom>)
    requires Leaves(p) != {} && Guard(s, q, true) && (Guard(s, q, false) || Const(LastFalse(p)) == Some(decides))
    ensures var x := Sem(s, p, b, vp);
            x.result == decides || Sem(s, q, x.builder, vq).result == Mean(q, vq)
  {
    ShapeFacts(p);
    var x := Sem(s, p, b, vp);
    if Guard(s, q, x.builder) { SafeIsSound(s, q, x.builder, vq); } else { LastFalseSound(s, p, b, vp); }
  }

  /** `&&` onto the query of a left operand that the right one has extended. */
  lemma {:induction false} SharedConjunct(s: Storage, t: Pred, p: Pred, q: Pred, b: bool)
    requires t == And(p, q) && Distinct(t) && Agree(s, t, b)
    requires s.Shared? && KeepsBuilder(p) && StartsExtending(q) && Const(p).None? && Const(q) != Some(false)
    ensures Const(FirstFalse(q)) == Some(false) && Guard(s, p, b) && Guard(s, q, true)
    decreases t, 0
  {
    var wp := Takes(p, true);
    var x := Sem(s, p, b, wp);
    SemFacts(s, p, b, wp);
    forall vq ensures (StillHolds(q, x.builder, vq) && Sem(s, q, x.builder, vq).result) == Mean(q, vq) {
      LeftFacts(s, p, q, b, wp, vq);
      Split(s, t, false, p, q, b, wp, vq);
    }
    var wq := Takes(q, true);
    assert x.builder;
    if Const(FirstFalse(q)) != Some(false) {
      var uq := TakesFirstFalse(q, true);
      assert false;
    }
    forall vq ensures Sem(s, q, true, vq).result == Mean(q, vq) {
      if !StillHolds(q, true, vq) { FirstFalseSound(s, q, true, vq); }
    }
    AgreementIsSafe(s, q, true);
    forall vp ensures Sem(s, p, b, vp).result == Mean(p, vp) {
      LeftFacts(s, p, q, b, vp, wq);
      SemFacts(s, p, b, vp);
      Split(s, t, false, p, q, b, vp, wq);
    }
    AgreementIsSafe(s, p, b);
  }

  /** `||` onto such a query never agrees. */
  lemma {:induction false} SharedDisjunct(s: Storage, t: Pred, p: Pred, q: Pred, b: bool)
    requires t == Or(p, q) && Distinct(t)
    requires s.Shared? && KeepsBuilder(p) && StartsExtending(q) && Const(p).None? && Const(q) != Some(true)
    ensures !Agree(s, t, b)
    decreases t, 0
  {
    if Agree(s, t, b) {
      RightAgreesFromNothing(s, t, p, q, b);
      AgreementIsSafe(s, q, false);
      var uq := FirstFalseTaken(s, q);
      var wp := Takes(p, true);
      SafeFrom(s, q, false, Sem(s, p, b, wp).builder, uq);
      LeftFacts(s, p, q, b, wp, uq);
      Split(s, t, true, p, q, b, wp, uq);
      assert false;
    }
  }

  lemma RightAgreesFromNothing(s: Storage, t: Pred, p: Pred, q: Pred, b: bool)
    requires t == Or(p, q) && Distinct(t) && Agree(s, t, b)
    requires s.Shared? && KeepsBuilder(p) && Const(p).None?
    ensures Agree(s, q, false)
  {
    ShapeFacts(p);
    var vp := TakesLastFalse(p, false);
    BuilderNeedsLast(s, p, b, vp);
    SemFacts(s, p, b, vp);
    forall vq ensures Sem(s, q, false, vq).result == Mean(q, vq) {
      LeftFacts(s, p, q, b, vp, vq);
      Split(s, t, true, p, q, b, vp, vq);
    }
  }

  /** The right operand is false for some outcome with its first comparison false. */
  lemma FirstFalseTaken(s: Storage, q: Pred) returns (v: iset<Atom>)
    requires Distinct(q) && Agree(s, q, false) && StartsExtending(q) && Const(q) != Some(true)
    ensures !Mean(q, v) && Recorded(FirstLeaf(q).value) !in v
  {
    if Const(FirstFalse(q)) == Some(true) {
      v := Takes(q, false);
      FirstFalseSound(s, q, false, v);
      assert false;
    } else {
      v := TakesFirstFalse(q, false);
    }
  }

  // ----- the main results

  /** The compiled query has the Boolean meaning for all outcomes of the comparisons. */
  ghost predicate CompilesToMeaning(s: Storage, t: Pred) {
    forall v :: Sat(Compile(s, t, True).result, v) == Mean(t, v)
  }

  lemma SafeCompiles(s: Storage, t: Pred)
    requires Safe(s, t)
    ensures CompilesToMeaning(s, t)
  {
    forall v ensures Sat(Compile(s, t, True).result, v) == Mean(t, v) {
      SatCompile(s, t, True, v);
      SafeIsSound(s, t, true, v);
    }
  }

  /** ... exactly when the predicate is safe for the storage mode. */
  lemma CompiledMeaning(s: Storage, t: Pred)
    requires Distinct(t)
    ensures CompilesToMeaning(s, t) <==> Safe(s, t)
  {
    if Safe(s, t) {
      SafeCompiles(s, t);
    } else if CompilesToMeaning(s, t) {
      forall v ensures Sem(s, t, true, v).result == Mean(t, v) {
        SatCompile(s, t, True, v);
        assert Sat(Compile(s, t, True).result, v) == Mean(t, v);
      }
      AgreementIsSafe(s, t, true);
    }
  }

  // ----- repeated comparisons: the guard is exact for the shape of a predicate

  /** The same operators, over comparisons that extend at the same places. */
  predicate SameShape(t: Pred, u: Pred) {
    match t
    case Is(l) => u.Is? && Extends(l) == Extends(u.leaf)
    case Not(p) => u.Not? && SameShape(p, u.p)
    case And(p, q) => u.And? && SameShape(p, u.left) && SameShape(q, u.right)
    case Or(p, q) => u.Or? && SameShape(p, u.left) && SameShape(q, u.right)
    case _ => t == u
  }

  /** The guard only looks at the shape. */
  lemma {:induction false} ShapeIsGuarded(s: Storage, t: Pred, u: Pred, b: bool)
    requires SameShape(t, u)
    ensures Guard(s, t, b) == Guard(s, u, b)
    decreases t, 1
  {
    match t
    case Not(p) => ShapeIsGuarded(s, p, u.p, b);
    case And(p, q) => ShapeOperandsGuarded(s, t, u, false, p, q, u.left, u.right, b);
    case Or(p, q) => ShapeOperandsGuarded(s, t, u, true, p, q, u.left, u.right, b);
    case _ =>
  }

  lemma {:induction false} ShapeOperandsGuarded(s: Storage, t: Pred, u: Pred, decides: bool, p: Pred, q: Pred, p': Pred, q': Pred, b: bool)
    requires p < t && q < t && p' < u && q' < u && SameShape(p, p') && SameShape(q, q')
    ensures GuardOperands(s, t, decides, p, q, b) == GuardOperands(s, u, decides, p', q', b)
    decreases t, 0
  {
    ShapeKeeps(p, p');
    ShapeKeeps(q, q');
    ShapeIsGuarded(s, p, p', b);
    ShapeIsGuarded(s, q, q', true);
    ShapeIsGuarded(s, q, q', false);
  }

  lemma {:induction false} ShapeKeeps(t: Pred, u: Pred)
    requires SameShape(t, u)
    ensures Const(t) == Const(u) && Const(FirstFalse(t)) == Const(FirstFalse(u)) && Const(LastFalse(t)) == Const(LastFalse(u))
    ensures StartsExtending(t) == StartsExtending(u) && KeepsBuilder(t) == KeepsBuilder(u)
    ensures FirstLeaf(t).Some? == FirstLeaf(u).Some? && LastLeaf(t).Some? == LastLeaf(u).Some?
    ensures Leaves(t) == {} <==> Leaves(u) == {}
  {
    match t
    case Not(p) => ShapeKeeps(p, u.p);
    case And(p, q) => ShapeKeeps(p, u.left); ShapeKeeps(q, u.right);
    case Or(p, q) => ShapeKeeps(p, u.left); ShapeKeeps(q, u.right);
    case _ =>
  }

  function Count(t: Pred): nat {
    match t
    case Is(_) => 1
    case Not(p) => Count(p)
    case And(p, q) => Count(p) + Count(q)
    case Or(p, q) => Count(p) + Count(q)
    case _ => 0
  }

  /** The predicate of this shape that compares columns `n`, `n + 1`, ... once each. */
  function Numbered(t: Pred, n: nat): Pred {
    match t
    case Is(l) => if Extends(l) then Is(MixedField(n, true, Null)) else Is(Field([], n, Eq, Null))
    case Not(p) => Not(Numbered(p, n))
    case And(p, q) => And(Numbered(p, n), Numbered(q, n + Count(p)))
    case Or(p, q) => Or(Numbered(p, n), Numbered(q, n + Count(p)))
    case _ => t
  }

  lemma {:induction false} NumberedFacts(t: Pred, n: nat)
    ensures SameShape(t, Numbered(t, n)) && Distinct(Numbered(t, n))
    ensures forall a :: a in Atoms(Numbered(t, n)) ==> n <= a.col < n + Count(t)
  {
    match t
    case Not(p) => NumberedFacts(p, n);
    case And(p, q) => NumberedFacts(p, n); NumberedFacts(q, n + Count(p));
    case Or(p, q) => NumberedFacts(p, n); NumberedFacts(q, n + Count(p));
    case _ =>
  }

  /** The compiled query has the Boolean meaning for every choice of comparisons of a shape, repeated
      or not, exactly when the shape is safe. */
  lemma ShapeMeaning(s: Storage, t: Pred)
    ensures (forall u :: SameShape(t, u) ==> CompilesToMeaning(s, u)) <==> Safe(s, t)
  {
    if Safe(s, t) {
      forall u | SameShape(t, u) ensures CompilesToMeaning(s, u) {
        ShapeIsGuarded(s, t, u, true);
        SafeCompiles(s, u);
      }
    } else {
      var u := Numbered(t, 0);
      NumberedFacts(t, 0);
      ShapeIsGuarded(s, t, u, true);
      CompiledMeaning(s, u);
    }
  }

  /** A safe predicate selects exactly the objects described by the comparisons it records, which are
      those it describes itself if its comparisons are faithful. */
  lemma CompiledSelects(s: Storage, t: Pred, db: Snapshot, o: Key)
    requires Safe(s, t)
    ensures Selects(Compile(s, t, True).result, db, o) == Means(InsteadAll(t), db, o)
    ensures AllFaithful(t) ==> Selects(Compile(s, t, True).result, db, o) == Means(t, db, o)
  {
    SelectsIsSat(Compile(s, t, True).result, db, o);
    SatCompile(s, t, True, TrueAt(db, o));
    SafeIsSound(s, t, true, TrueAt(db, o));
    MeanIsMeans(t, db, o);
    if AllFaithful(t) { FaithfulMeans(t, db, o); }
  }

  // ----- consequences

  predicate OnlyFresh(t: Pred) {
    forall l :: l in Leaves(t) ==> !Extends(l)
  }

  /** `&&` of comparisons, in any shape, fresh and extending ones mixed. */
  predicate Conjunction(t: Pred) {
    t.Is? || (t.And? && Conjunction(t.left) && Conjunction(t.right))
  }

  /** Every comparison but the first one evaluated starts from the table. */
  predicate OnlyFirstExtends(t: Pred) {
    match t
    case Not(p) => OnlyFirstExtends(p)
    case And(p, q) => if Leaves(p) == {} then OnlyFirstExtends(q) else OnlyFirstExtends(p) && OnlyFresh(q)
    case Or(p, q) => if Leaves(p) == {} then OnlyFirstExtends(q) else OnlyFirstExtends(p) && OnlyFresh(q)
    case _ => true
  }

  lemma {:induction false} FirstIsALeaf(t: Pred)
    ensures FirstLeaf(t).Some? ==> FirstLeaf(t).value in Leaves(t)
    ensures FirstLeaf(t).None? ==> Leaves(t) == {}
  {
    match t
    case Not(p) => FirstIsALeaf(p);
    case And(p, q) => FirstIsALeaf(p); FirstIsALeaf(q);
    case Or(p, q) => FirstIsALeaf(p); FirstIsALeaf(q);
    case _ =>
  }

  lemma {:induction false} FreshIsSafe(s: Storage, t: Pred, b: bool)
    requires OnlyFresh(t)
    ensures Guard(s, t, b) && !StartsExtending(t)
    decreases t
  {
    FirstIsALeaf(t);
    match t
    case Not(p) => FreshIsSafe(s, p, b);
    case And(p, q) => FreshIsSafe(s, p, b); FreshIsSafe(s, q, false); FreshIsSafe(s, q, b);
    case Or(p, q) => FreshIsSafe(s, p, b); FreshIsSafe(s, q, false); FreshIsSafe(s, q, b);
    case _ =>
  }

  lemma {:induction false} OnlyFirstExtendsIsSafe(s: Storage, t: Pred)
    requires OnlyFirstExtends(t)
    ensures Safe(s, t)
    decreases t, 1
  {
    match t
    case Not(p) => OnlyFirstExtendsIsSafe(s, p);
    case And(p, q) => FirstExtendsOperands(s, t, false, p, q);
    case Or(p, q) => FirstExtendsOperands(s, t, true, p, q);
    case _ =>
  }

  lemma {:induction false} FirstExtendsOperands(s: Storage, t: Pred, decides: bool, p: Pred, q: Pred)
    requires OnlyFirstExtends(t) && Operands(t, decides, p, q)
    ensures GuardOperands(s, t, decides, p, q, true)
    decreases t, 0
  {
    if Leaves(p) == {} {
      ShapeFacts(p);
      OnlyFirstExtendsIsSafe(s, q);
    } else {
      OnlyFirstExtendsIsSafe(s, p);
      FreshIsSafe(s, q, false);
    }
  }

  lemma {:induction false} ConjunctionIsSafe(s: Storage, t: Pred)
    requires Conjunction(t)
    ensures Safe(s, t) && Leaves(t) != {} && FirstLeaf(t).Some? && LastLeaf(t).Some?
    ensures Const(t).None? && Const(FirstFalse(t)) == Const(LastFalse(t)) == Some(false)
  {
    if t.And? {
      ConjunctionIsSafe(s, t.left);
      ConjunctionIsSafe(s, t.right);
    }
  }

  /** Fresh comparisons combined in any way, conjunctions of any comparisons, and predicates that only
      extend at their very beginning select what they describe in both storage modes. */
  lemma FragmentsSelect(s: Storage, t: Pred, db: Snapshot, o: Key)
    requires OnlyFresh(t) || Conjunction(t) || OnlyFirstExtends(t)
    ensures Selects(Compile(s, t, True).result, db, o) == Means(InsteadAll(t), db, o)
    ensures AllFaithful(t) ==> Selects(Compile(s, t, True).result, db, o) == Means(t, db, o)
  {
    if OnlyFresh(t) { FreshIsSafe(s, t, true); }
    if Conjunction(t) { ConjunctionIsSafe(s, t); }
    if OnlyFirstExtends(t) { OnlyFirstExtendsIsSafe(s, t); }
    CompiledSelects(s, t, db, o);
  }

  /** Sharing only narrows what is safe. */
  lemma {:induction false} SharedSafeIsOwnedSafe(t: Pred)
    requires Safe(Shared, t)
    ensures Safe(Owned, t)
  {
    SharedGuardIsOwnedGuard(t, true);
  }

  lemma {:induction false} SharedGuardIsOwnedGuard(t: Pred, b: bool)
    requires Guard(Shared, t, b)
    ensures Guard(Owned, t, b)
    decreases t, 1
  {
    match t
    case Not(p) => SharedGuardIsOwnedGuard(p, b);
    case And(p, q) => SharedOperandsAreOwned(t, false, p, q, b);
    case Or(p, q) => SharedOperandsAreOwned(t, true, p, q, b);
    case _ =>
  }

  lemma {:induction false} SharedOperandsAreOwned(t: Pred, decides: bool, p: Pred, q: Pred, b: bool)
    requires Operands(t, decides, p, q) && GuardOperands(Shared, t, decides, p, q, b)
    ensures GuardOperands(Owned, t, decides, p, q, b)
    decreases t, 0
  {
    ShapeFacts(p);
    var from := b && Leaves(p) == {};
    if Guard(Shared, p, b) { SharedGuardIsOwnedGuard(p, b); }
    if Guard(Shared, q, from) { SharedGuardIsOwnedGuard(q, from); }
    if Guard(Shared, q, false) { SharedGuardIsOwnedGuard(q, false); }
    if Guard(Shared, q, true) { SharedGuardIsOwnedGuard(q, true); }
  }

  /** One predicate that the two storage modes compile differently: a fresh comparison and a negated
      mixed one. Owned storage selects the objects it describes, shared storage selects nothing. */
  lemma ModesDiffer(n: int, x: Value, v: iset<Atom>)
    ensures var t := And(Is(Field([], 0, Eq, Number(n))), Not(Is(MixedField(1, true, x))));
            && Sat(Compile(Owned, t, True).result, v) == Mean(t, v)
            && !Sat(Compile(Shared, t, True).result, v)
            && Safe(Owned, t) && !Safe(Shared, t)
  {
    var p, m := Is(Field([], 0, Eq, Number(n))), Is(MixedField(1, true, x));
    var t := And(p, Not(m));
    GuardsDiffer(p, m);
    SatCompile(Owned, t, True, v);
    SatCompile(Shared, t, True, v);
    SafeIsSound(Owned, t, true, v);
    var y := Sem(Shared, m, Sem(Shared, p, true, v).builder, v);
    assert Sem(Shared, Not(m), Sem(Shared, p, true, v).builder, v) == y.(result := !y.result, shares := false);
  }

  lemma GuardsDiffer(p: Pred, m: Pred)
    requires p.Is? && m.Is? && !Extends(p.leaf) && Extends(m.leaf)
    ensures Safe(Owned, And(p, Not(m))) && !Safe(Shared, And(p, Not(m)))
  {
    var q := Not(m);
    assert FirstLeaf(m) == Some(m.leaf) && FirstLeaf(q) == Some(m.leaf);
    assert FirstFalse(m) == Pred.Nothing && Const(FirstFalse(m)) == Some(false) && Const(FirstFalse(q)) == Some(true);
    assert Const(p).None? && Const(m).None? && Const(q).None?;
    assert LastFalse(p) == Pred.Nothing && KeepsBuilder(p);
    assert Guard(Owned, p, true) && Guard(Owned, m, true) && Guard(Owned, q, true);
    assert GuardOperands(Owned, And(p, q), false, p, q, true) && !GuardOperands(Shared, And(p, q), false, p, q, true);
  }
}
