/** Predicate trees, and what building one leaves in every query. */
module Predicates {
  import opened Conditions

  /** The expression a `where` function evaluates, each intermediate result used once. */
  datatype Pred =
    | Is(leaf: Leaf)
    | Everything
    | Nothing
    | Not(p: Pred)
    | And(left: Pred, right: Pred)
    | Or(left: Pred, right: Pred)

  /** The Boolean meaning the user intends. */
  predicate Means(t: Pred, db: Snapshot, o: Key) {
    match t
    case Is(l) => Intended(l, db, o)
    case Everything => true
    case Nothing => false
    case Not(p) => !Means(p, db, o)
    case And(p, q) => Means(p, db, o) && Means(q, db, o)
    case Or(p, q) => Means(p, db, o) || Means(q, db, o)
  }

  /** The Boolean meaning over recorded comparisons, `v` being those that are true. */
  ghost predicate Mean(t: Pred, v: iset<Atom>) {
    match t
    case Is(l) => Recorded(l) in v
    case Everything => true
    case Nothing => false
    case Not(p) => !Mean(p, v)
    case And(p, q) => Mean(p, v) && Mean(q, v)
    case Or(p, q) => Mean(p, v) || Mean(q, v)
  }

  predicate AllFaithful(t: Pred) {
    match t
    case Is(l) => Faithful(l)
    case Not(p) => AllFaithful(p)
    case And(p, q) => AllFaithful(p) && AllFaithful(q)
    case Or(p, q) => AllFaithful(p) && AllFaithful(q)
    case _ => true
  }

  /** The predicate whose meaning is recorded. */
  function InsteadAll(t: Pred): Pred {
    match t
    case Is(l) => Is(Instead(l))
    case Not(p) => Not(InsteadAll(p))
    case And(p, q) => And(InsteadAll(p), InsteadAll(q))
    case Or(p, q) => Or(InsteadAll(p), InsteadAll(q))
    case _ => t
  }

  lemma {:induction false} MeanIsMeans(t: Pred, db: Snapshot, o: Key)
    ensures Mean(t, TrueAt(db, o)) == Means(InsteadAll(t), db, o)
  {
    match t
    case Is(l) => RecordedInstead(l, db, o);
    case Not(p) => MeanIsMeans(p, db, o);
    case And(p, q) => MeanIsMeans(p, db, o); MeanIsMeans(q, db, o);
    case Or(p, q) => MeanIsMeans(p, db, o); MeanIsMeans(q, db, o);
    case _ =>
  }

  /** Of faithful comparisons, that is the predicate itself. */
  lemma {:induction false} FaithfulMeans(t: Pred, db: Snapshot, o: Key)
    requires AllFaithful(t)
    ensures Means(InsteadAll(t), db, o) == Means(t, db, o)
  {
    match t
    case Is(l) =>
      RecordedInstead(l, db, o);
      RecordedMeaning(l);
      assert Matches(Recorded(l), db, o) == Intended(l, db, o);
    case Not(p) => FaithfulMeans(p, db, o);
    case And(p, q) => FaithfulMeans(p, db, o); FaithfulMeans(q, db, o);
    case Or(p, q) => FaithfulMeans(p, db, o); FaithfulMeans(q, db, o);
    case _ =>
  }

  // ----- what evaluating a predicate does to the queries involved

  /** How the bridge stores a core query: each bridge query owns its own, or copies share one. */
  datatype Storage = Owned | Shared

  /** After evaluating a predicate against a builder whose query held some condition:
      `result` is held by the returned query, `builder` by the builder's query, `first` by the
      core query the builder pointed to at the start; `shares` says that result and builder are
      one core query, `moved` that the builder points to another core query than at the start. */
  datatype Built<T> = Built(result: T, builder: T, first: T, shares: bool, moved: bool)

  /** What the left operand's query holds once the right operand is evaluated. */
  function Left<T>(x: Built<T>, y: Built<T>): T {
    if x.shares then y.first else x.result
  }

  /** `&&` writes `c` into the left operand's query, which may still be the builder's. */
  function AfterAnd<T>(x: Built<T>, y: Built<T>, c: T): Built<T> {
    var keeps := x.shares && !y.moved;
    Built(c, if keeps then c else y.builder, if x.moved then x.first else y.first, keeps, x.moved || y.moved)
  }

  /** `||` leaves `c` in a query of its own. */
  function AfterOr<T>(x: Built<T>, y: Built<T>, c: T): Built<T> {
    Built(c, y.builder, if x.moved then x.first else y.first, false, x.moved || y.moved)
  }

  function Compile(s: Storage, t: Pred, b: Condition): Built<Condition> {
    match t
    case Is(l) =>
      if Extends(l) then
        var c := Conj(b, Test(Recorded(l)));
        Built(c, c, c, s.Shared?, s.Shared?)
      else
        var c := Conj(True, Test(Recorded(l)));
        Built(c, c, if s.Shared? then b else c, s.Shared?, s.Shared?)
    case Everything => Built(True, b, b, false, false)
    case Nothing => Built(Conj(True, False), b, b, false, false)
    case Not(p) =>
      var x := Compile(s, p, b);
      x.(result := Neg(x.result), shares := false)
    case And(p, q) =>
      var x := Compile(s, p, b);
      var y := Compile(s, q, x.builder);
      AfterAnd(x, y, Conj(Left(x, y), y.result))
    case Or(p, q) =>
      var x := Compile(s, p, b);
      var y := Compile(s, q, x.builder);
      AfterOr(x, y, Disj(Left(x, y), y.result))
  }

  /** Only comparisons re-point the builder, and only a re-pointed builder is shared. */
  lemma {:induction false} SharingFacts(s: Storage, t: Pred, b: Condition)
    ensures var x := Compile(s, t, b);
            && (x.shares ==> x.moved && x.builder == x.result)
            && (x.moved <==> s.Shared? && Leaves(t) != {})
            && (!x.moved ==> x.first == x.builder)
            && (x.shares <==> s.Shared? && KeepsBuilder(t))
    decreases t
  {
    match t
    case Not(p) => SharingFacts(s, p, b);
    case And(p, q) => SharingFacts(s, p, b); SharingFacts(s, q, Compile(s, p, b).builder);
    case Or(p, q) => SharingFacts(s, p, b); SharingFacts(s, q, Compile(s, p, b).builder);
    case _ =>
  }

  function Leaves(t: Pred): set<Leaf> {
    match t
    case Is(l) => {l}
    case Not(p) => Leaves(p)
    case And(p, q) => Leaves(p) + Leaves(q)
    case Or(p, q) => Leaves(p) + Leaves(q)
    case _ => {}
  }

  /** The predicate's result is the very core query the builder still holds (shared storage). */
  predicate KeepsBuilder(t: Pred) {
    match t
    case Is(_) => true
    case And(p, q) => KeepsBuilder(p) && Leaves(q) == {}
    case _ => false
  }
}
