/** When a compiled query means what the predicate says. */
module QueryMeaning {
  import opened Wrappers
  import opened Conditions
  import opened Predicates

  // ----- the guard a caller can check on the predicate

  function FirstLeaf(t: Pred): Option<Leaf> {
    match t
    case Is(l) => Some(l)
    case Not(p) => FirstLeaf(p)
    case And(p, q) => if FirstLeaf(p).Some? then FirstLeaf(p) else FirstLeaf(q)
    case Or(p, q) => if FirstLeaf(p).Some? then FirstLeaf(p) else FirstLeaf(q)
    case _ => None
  }

  /** The first comparison evaluated extends whatever the builder holds. */
  predicate StartsExtending(t: Pred) {
    FirstLeaf(t).Some? && Extends(FirstLeaf(t).value)
  }

  function LastLeaf(t: Pred): Option<Leaf> {
    match t
    case Is(l) => Some(l)
    case Not(p) => LastLeaf(p)
    case And(p, q) => if LastLeaf(q).Some? then LastLeaf(q) else LastLeaf(p)
    case Or(p, q) => if LastLeaf(q).Some? then LastLeaf(q) else LastLeaf(p)
    case _ => None
  }

  /** `t` with its first comparison false. */
  function FirstFalse(t: Pred): Pred {
    match t
    case Is(_) => Pred.Nothing
    case Not(p) => Not(FirstFalse(p))
    case And(p, q) => if FirstLeaf(p).Some? then And(FirstFalse(p), q) else And(p, FirstFalse(q))
    case Or(p, q) => if FirstLeaf(p).Some? then Or(FirstFalse(p), q) else Or(p, FirstFalse(q))
    case _ => t
  }

  /** `t` with its last comparison false. */
  function LastFalse(t: Pred): Pred {
    match t
    case Is(_) => Pred.Nothing
    case Not(p) => Not(LastFalse(p))
    case And(p, q) => if LastLeaf(q).Some? then And(p, LastFalse(q)) else And(LastFalse(p), q)
    case Or(p, q) => if LastLeaf(q).Some? then Or(p, LastFalse(q)) else Or(LastFalse(p), q)
    case _ => t
  }

  /** Two folded operands, where the value `decides` on either side settles the result. */
  function Combine(decides: bool, x: Option<bool>, y: Option<bool>): Option<bool> {
    if x == Some(decides) || y == Some(decides) then Some(decides)
    else if x.Some? && y.Some? then Some(!decides)
    else None
  }

  /** The truth value `t` has by its constants alone, if they settle it. */
  function Const(t: Pred): Option<bool> {
    match t
    case Is(_) => None
    case Everything => Some(true)
    case Nothing => Some(false)
    case Not(p) => if Const(p).Some? then Some(!Const(p).value) else None
    case And(p, q) => Combine(false, Const(p), Const(q))
    case Or(p, q) => Combine(true, Const(p), Const(q))
  }

  /** Built from a query that selects everything, the predicate gets its meaning. */
  predicate Safe(s: Storage, t: Pred) {
    Guard(s, t, true)
  }

  /** ... from a query that selects all (`b`) or may select nothing. An extending comparison needs all
      selected. */
  predicate Guard(s: Storage, t: Pred, b: bool)
    decreases t, 1
  {
    match t
    case Is(l) => b || !Extends(l)
    case Not(p) => Guard(s, p, b)
    case And(p, q) => GuardOperands(s, t, false, p, q, b)
    case Or(p, q) => GuardOperands(s, t, true, p, q, b)
    case _ => true
  }

  /** Operands settled by constants drop out. A left operand that a shared builder still holds is
      extended by a right one that starts extending, which only `&&` with a right operand false
      without that comparison allows. Otherwise the right operand is built from what the left one
      leaves behind: its last comparison, which is harmless where its being false settles the result. */
  predicate GuardOperands(s: Storage, t: Pred, decides: bool, p: Pred, q: Pred, b: bool)
    requires p < t && q < t
    decreases t, 0
  {
    if Const(p) == Some(decides) || Const(q) == Some(decides) then true
    else if Const(p).Some? then Guard(s, q, b && Leaves(p) == {})
    else if s.Shared? && KeepsBuilder(p) && StartsExtending(q) then
      !decides && Const(FirstFalse(q)) == Some(false) && Guard(s, p, b) && Guard(s, q, true)
    else
      Guard(s, p, b) && (Guard(s, q, false) || (Const(LastFalse(p)) == Some(decides) && Guard(s, q, true)))
  }

  // ----- the truth value of everything `Compile` produces

  ghost function Sem(s: Storage, t: Pred, b: bool, v: iset<Atom>): Built<bool> {
    match t
    case Is(l) =>
      var holds := Recorded(l) in v;
      if Extends(l) then Built(b && holds, b && holds, b && holds, s.Shared?, s.Shared?)
      else Built(holds, holds, if s.Shared? then b else holds, s.Shared?, s.Shared?)
    case Everything => Built(true, b, b, false, false)
    case Nothing => Built(false, b, b, false, false)
    case Not(p) =>
      var x := Sem(s, p, b, v);
      x.(result := !x.result, shares := false)
    case And(p, q) =>
      var x := Sem(s, p, b, v);
      var y := Sem(s, q, x.builder, v);
      AfterAnd(x, y, Left(x, y) && y.result)
    case Or(p, q) =>
      var x := Sem(s, p, b, v);
      var y := Sem(s, q, x.builder, v);
      AfterOr(x, y, Left(x, y) || y.result)
  }

  ghost predicate Denotes(x: Built<Condition>, y: Built<bool>, v: iset<Atom>) {
    && Sat(x.result, v) == y.result && Sat(x.builder, v) == y.builder && Sat(x.first, v) == y.first
    && x.shares == y.shares && x.moved == y.moved
  }

  lemma DenotesAfter(x: Built<Condition>, x': Built<bool>, y: Built<Condition>, y': Built<bool>, v: iset<Atom>)
    requires Denotes(x, x', v) && Denotes(y, y', v)
    ensures Denotes(AfterAnd(x, y, Conj(Left(x, y), y.result)), AfterAnd(x', y', Left(x', y') && y'.result), v)
    ensures Denotes(AfterOr(x, y, Disj(Left(x, y), y.result)), AfterOr(x', y', Left(x', y') || y'.result), v)
  {
  }

  lemma {:induction false} SatCompile(s: Storage, t: Pred, b: Condition, v: iset<Atom>)
    ensures Denotes(Compile(s, t, b), Sem(s, t, Sat(b, v), v), v)
    decreases t, 1
  {
    match t
    case Not(p) => SatCompile(s, p, b, v);
    case And(p, q) => SatOperands(s, t, p, q, b, v);
    case Or(p, q) => SatOperands(s, t, p, q, b, v);
    case _ =>
  }

  lemma {:induction false} SatOperands(s: Storage, t: Pred, p: Pred, q: Pred, b: Condition, v: iset<Atom>)
    requires t == And(p, q) || t == Or(p, q)
    ensures Denotes(Compile(s, t, b), Sem(s, t, Sat(b, v), v), v)
    decreases t, 0
  {
    var x, x' := Compile(s, p, b), Sem(s, p, Sat(b, v), v);
    assert Denotes(x, x', v) by { SatCompile(s, p, b, v); }
    var y, y' := Compile(s, q, x.builder), Sem(s, q, x'.builder, v);
    assert Denotes(y, y', v) by { SatCompile(s, q, x.builder, v); }
    DenotesAfter(x, x', y, y', v);
  }

  lemma {:induction false} ShapeFacts(t: Pred)
    ensures FirstLeaf(t).Some? <==> Leaves(t) != {}
    ensures LastLeaf(t).Some? <==> Leaves(t) != {}
    ensures Leaves(t) == {} ==> Const(t).Some?
    ensures KeepsBuilder(t) ==> Leaves(t) != {} && Const(t) != Some(true)
    ensures KeepsBuilder(t) ==> Const(FirstFalse(t)) == Some(false) && Const(LastFalse(t)) == Some(false)
  {
    match t
    case Not(p) => ShapeFacts(p);
    case And(p, q) => ShapeFacts(p); ShapeFacts(q);
    case Or(p, q) => ShapeFacts(p); ShapeFacts(q);
    case _ =>
  }

  /** The comparison evaluated first, if it extends the builder's query, is still in it. */
  ghost predicate StillHolds(t: Pred, b: bool, v: iset<Atom>) {
    b && (StartsExtending(t) ==> Recorded(FirstLeaf(t).value) in v)
  }

  lemma {:induction false} SemFacts(s: Storage, t: Pred, b: bool, v: iset<Atom>)
    ensures var x := Sem(s, t, b, v);
            && (x.shares ==> x.moved && x.builder == x.result)
            && (x.shares <==> s.Shared? && KeepsBuilder(t))
            && (x.moved <==> s.Shared? && Leaves(t) != {})
            && (Leaves(t) == {} ==> x.builder == b)
            && (s.Shared? ==> x.first == StillHolds(t, b, v))
    decreases t
  {
    match t
    case Not(p) => SemFacts(s, p, b, v);
    case And(p, q) => ShapeFacts(p); SemFacts(s, p, b, v); SemFacts(s, q, Sem(s, p, b, v).builder, v);
    case Or(p, q) => ShapeFacts(p); SemFacts(s, p, b, v); SemFacts(s, q, Sem(s, p, b, v).builder, v);
    case _ =>
  }

  /** `x` operated with `y`, where the left value `decides` settles the result. */
  predicate Operate(decides: bool, x: bool, y: bool) {
    if x == decides then decides else y
  }

  predicate Operands(t: Pred, decides: bool, p: Pred, q: Pred) {
    t == if decides then Or(p, q) else And(p, q)
  }

  /** The result of the operation, the right operand built after the left one. */
  ghost predicate Evaluated(s: Storage, decides: bool, p: Pred, q: Pred, b: bool, v: iset<Atom>) {
    var x := Sem(s, p, b, v);
    var y := Sem(s, q, x.builder, v);
    Operate(decides, Left(x, y), y.result)
  }

  /** The left operand is what it evaluated to, unless a shared builder extended it behind its back. */
  lemma LeftFacts(s: Storage, p: Pred, q: Pred, b: bool, vp: iset<Atom>, vq: iset<Atom>)
    ensures var x := Sem(s, p, b, vp);
            Left(x, Sem(s, q, x.builder, vq)) ==
            if s.Shared? && KeepsBuilder(p) then StillHolds(q, x.result, vq) else x.result
  {
    SemFacts(s, p, b, vp);
    SemFacts(s, q, Sem(s, p, b, vp).builder, vq);
  }

  /** `x` is what it is folded to. */
  predicate Follows(x: bool, x': Option<bool>) {
    x'.Some? ==> x == x'.value
  }

  /** A left operand that is false stays false. */
  lemma LeftStays(s: Storage, p: Pred, q: Pred, b: bool, v: iset<Atom>)
    requires KeepsBuilder(p) ==> !Sem(s, p, b, v).result
    ensures var x := Sem(s, p, b, v);
            Left(x, Sem(s, q, x.builder, v)) == x.result
  {
    LeftFacts(s, p, q, b, v, v);
  }

  lemma {:induction false} ConstSound(s: Storage, t: Pred, b: bool, v: iset<Atom>)
    requires Const(t).Some?
    ensures Sem(s, t, b, v).result == Mean(t, v) == Const(t).value
    decreases t, 2
  {
    match t
    case Not(p) => ConstSound(s, p, b, v);
    case And(p, q) => ConstLeft(s, p, q, b, v); ConstRight(s, q, Sem(s, p, b, v).builder, v);
    case Or(p, q) => ConstLeft(s, p, q, b, v); ConstRight(s, q, Sem(s, p, b, v).builder, v);
    case _ =>
  }

  lemma {:induction false} ConstRight(s: Storage, q: Pred, b: bool, v: iset<Atom>)
    ensures Follows(Sem(s, q, b, v).result, Const(q)) && Follows(Mean(q, v), Const(q))
    decreases q, 3
  {
    if Const(q).Some? { ConstSound(s, q, b, v); }
  }

  lemma {:induction false} ConstLeft(s: Storage, p: Pred, q: Pred, b: bool, v: iset<Atom>)
    ensures var x := Sem(s, p, b, v);
            Follows(Left(x, Sem(s, q, x.builder, v)), Const(p)) && Follows(Mean(p, v), Const(p))
    decreases p, 3
  {
    if Const(p).Some? {
      ConstSound(s, p, b, v);
      assert KeepsBuilder(p) ==> Const(p) != Some(true) by { ShapeFacts(p); }
      LeftStays(s, p, q, b, v);
    }
  }

  /** If the builder is left with a false query, the last comparison may as well be false. */
  lemma {:induction false} LastFalseSound(s: Storage, t: Pred, b: bool, v: iset<Atom>)
    requires LastLeaf(t).Some? && Const(LastFalse(t)).Some? && !Sem(s, t, b, v).builder
    ensures Sem(s, t, b, v).result == Const(LastFalse(t)).value
    decreases t, 2
  {
    match t
    case Is(_) =>
    case Not(p) => LastFalseSound(s, p, b, v);
    case And(p, q) =>
      BuilderFacts(s, t, p, q, b, v);
      if LastLeaf(q).Some? { LastInRight(s, p, q, b, v); } else { LastInLeft(s, p, q, b, v); }
    case Or(p, q) =>
      BuilderFacts(s, t, p, q, b, v);
      if LastLeaf(q).Some? { LastInRight(s, p, q, b, v); } else { LastInLeft(s, p, q, b, v); }
  }

  /** Where an operation leaves the builder. */
  lemma BuilderFacts(s: Storage, t: Pred, p: Pred, q: Pred, b: bool, v: iset<Atom>)
    requires t == And(p, q) || t == Or(p, q)
    ensures var x, y := Sem(s, p, b, v), Sem(s, t, b, v);
            if LastLeaf(q).Some? then y.builder == Sem(s, q, x.builder, v).builder
            else y.builder == x.builder || (t.And? && s.Shared? && KeepsBuilder(p) && y.builder == y.result)
  {
    ShapeFacts(q);
    SemFacts(s, p, b, v);
    SemFacts(s, q, Sem(s, p, b, v).builder, v);
  }

  lemma {:induction false} LastInRight(s: Storage, p: Pred, q: Pred, b: bool, v: iset<Atom>)
    requires LastLeaf(q).Some? && !Sem(s, q, Sem(s, p, b, v).builder, v).builder
    ensures var x := Sem(s, p, b, v);
            var y := Sem(s, q, x.builder, v);
            Follows(Left(x, y), Const(p)) && Follows(y.result, Const(LastFalse(q)))
    decreases q, 3
  {
    ConstLeft(s, p, q, b, v);
    if Const(LastFalse(q)).Some? { LastFalseSound(s, q, Sem(s, p, b, v).builder, v); }
  }

  lemma {:induction false} LastInLeft(s: Storage, p: Pred, q: Pred, b: bool, v: iset<Atom>)
    requires LastLeaf(q).None? && LastLeaf(p).Some?
    ensures var x := Sem(s, p, b, v);
            var y := Sem(s, q, x.builder, v);
            && (!x.builder ==> Follows(Left(x, y), Const(LastFalse(p))))
            && (KeepsBuilder(p) ==> Const(LastFalse(p)) == Some(false))
            && Const(q) == Some(y.result)
    decreases p, 3
  {
    var x := Sem(s, p, b, v);
    assert Const(q).Some? && (KeepsBuilder(p) ==> Const(LastFalse(p)) == Some(false)) by { ShapeFacts(p); ShapeFacts(q); }
    ConstSound(s, q, x.builder, v);
    if !x.builder && Const(LastFalse(p)).Some? {
      LastFalseSound(s, p, b, v);
      LeftStays(s, p, q, b, v);
    }
  }

  /** If the first comparison, extending, yields a false query, it may as well be false. */
  lemma {:induction false} FirstFalseSound(s: Storage, t: Pred, b: bool, v: iset<Atom>)
    requires StartsExtending(t) && Const(FirstFalse(t)).Some? && !StillHolds(t, b, v)
    ensures Sem(s, t, b, v).result == Const(FirstFalse(t)).value
    decreases t, 2
  {
    match t
    case Is(_) =>
    case Not(p) => FirstFalseSound(s, p, b, v);
    case And(p, q) => if FirstLeaf(p).Some? { FirstInLeft(s, p, q, b, v); } else { FirstInRight(s, p, q, b, v); }
    case Or(p, q) => if FirstLeaf(p).Some? { FirstInLeft(s, p, q, b, v); } else { FirstInRight(s, p, q, b, v); }
  }

  lemma {:induction false} FirstInLeft(s: Storage, p: Pred, q: Pred, b: bool, v: iset<Atom>)
    requires StartsExtending(p) && !StillHolds(p, b, v)
    ensures var x := Sem(s, p, b, v);
            var y := Sem(s, q, x.builder, v);
            Follows(Left(x, y), Const(FirstFalse(p))) && Follows(y.result, Const(q))
    decreases p, 3
  {
    ConstRight(s, q, Sem(s, p, b, v).builder, v);
    if Const(FirstFalse(p)).Some? {
      FirstFalseSound(s, p, b, v);
      assert KeepsBuilder(p) ==> Const(FirstFalse(p)) == Some(false) by { ShapeFacts(p); }
      LeftStays(s, p, q, b, v);
    }
  }

  lemma {:induction false} FirstInRight(s: Storage, p: Pred, q: Pred, b: bool, v: iset<Atom>)
    requires FirstLeaf(p).None? && StartsExtending(q) && !StillHolds(q, b, v)
    ensures var x := Sem(s, p, b, v);
            var y := Sem(s, q, x.builder, v);
            Follows(Left(x, y), Const(p)) && Follows(y.result, Const(FirstFalse(q)))
    decreases q, 3
  {
    assert Sem(s, p, b, v).builder == b by { ShapeFacts(p); SemFacts(s, p, b, v); }
    ConstLeft(s, p, q, b, v);
    if Const(FirstFalse(q)).Some? { FirstFalseSound(s, q, b, v); }
  }

  /** A builder that selects all is no worse than one that may select nothing. */
  lemma {:induction false} GuardGrows(s: Storage, t: Pred)
    requires Guard(s, t, false)
    ensures Guard(s, t, true)
  {
    match t
    case Not(p) => GuardGrows(s, p);
    case And(p, q) => if Guard(s, p, false) { GuardGrows(s, p); } if Guard(s, q, false) { GuardGrows(s, q); }
    case Or(p, q) => if Guard(s, p, false) { GuardGrows(s, p); } if Guard(s, q, false) { GuardGrows(s, q); }
    case _ =>
  }

  /** Inside the guard, both storage modes compile to the Boolean meaning. */
  lemma {:induction false} SafeIsSound(s: Storage, t: Pred, b: bool, v: iset<Atom>)
    requires Guard(s, t, b)
    ensures Sem(s, t, b, v).result == Mean(t, v)
    decreases t, 2
  {
    match t
    case Not(p) => SafeIsSound(s, p, b, v);
    case And(p, q) => SafeOperands(s, t, false, p, q, b, v);
    case Or(p, q) => SafeOperands(s, t, true, p, q, b, v);
    case _ =>
  }

  lemma {:induction false} SafeOperands(s: Storage, t: Pred, decides: bool, p: Pred, q: Pred, b: bool, v: iset<Atom>)
    requires p < t && q < t && GuardOperands(s, t, decides, p, q, b)
    ensures Evaluated(s, decides, p, q, b, v) == Operate(decides, Mean(p, v), Mean(q, v))
    decreases t, 1
  {
    var x := Sem(s, p, b, v);
    if Const(p) == Some(decides) || Const(q) == Some(decides) {
      ConstLeft(s, p, q, b, v);
      ConstRight(s, q, x.builder, v);
    } else if Const(p).Some? {
      ConstLeft(s, p, q, b, v);
      assert b && Leaves(p) == {} ==> x.builder by { SemFacts(s, p, b, v); }
      SafeFrom(s, q, b && Leaves(p) == {}, x.builder, v);
    } else {
      SafeIsSound(s, p, b, v);
      SafeRight(s, t, decides, p, q, b, v);
    }
  }

  lemma {:induction false} SafeFrom(s: Storage, q: Pred, b: bool, b': bool, v: iset<Atom>)
    requires Guard(s, q, b) && (b ==> b')
    ensures Sem(s, q, b', v).result == Mean(q, v)
    decreases q, 3
  {
    if b' && !b { GuardGrows(s, q); }
    SafeIsSound(s, q, b', v);
  }

  /** Neither operand is settled, and the left one evaluates to its meaning. */
  lemma {:induction false} SafeRight(s: Storage, t: Pred, decides: bool, p: Pred, q: Pred, b: bool, v: iset<Atom>)
    requires p < t && q < t && GuardOperands(s, t, decides, p, q, b)
    requires Const(p).None? && Const(q) != Some(decides) && Sem(s, p, b, v).result == Mean(p, v)
    ensures Evaluated(s, decides, p, q, b, v) == Operate(decides, Mean(p, v), Mean(q, v))
    decreases t, 0
  {
    var x := Sem(s, p, b, v);
    ShapeFacts(p);
    SemFacts(s, p, b, v);
    LeftFacts(s, p, q, b, v, v);
    if Guard(s, q, false) {
      SafeFrom(s, q, false, x.builder, v);
    } else if x.builder {
      SafeIsSound(s, q, true, v);
    } else if Const(LastFalse(p)) == Some(decides) {
      LastFalseSound(s, p, b, v);
    }
    if s.Shared? && KeepsBuilder(p) && StartsExtending(q) && x.builder && !StillHolds(q, true, v) {
      FirstFalseSound(s, q, true, v);
    }
  }
}
