/** What a core query holds, and how one user comparison is recorded. */
module Conditions {
  import opened Wrappers

  type Column = nat
  type Key = nat

  datatype Value = Null | Number(n: int) | Text(s: string) | Target(key: Key)

  datatype Relation = Eq | Ne | Lt | Gt | Le | Ge

  /** The objects of one snapshot. A dictionary column is addressed by (column, key). */
  datatype Snapshot = Snapshot(rows: map<Key, map<Column, Value>>, dictionaries: map<(Key, Column, string), Value>)

  /** One comparison inside a core query. */
  datatype Atom =
    | Compare(path: seq<Column>, col: Column, rel: Relation, rhs: Value)
    | CompareEntry(col: Column, entry: string, rel: Relation, rhs: Value)

  /** The condition a core query selects by. */
  datatype Condition =
    | True
    | False
    | Test(atom: Atom)
    | Neg(c: Condition)
    | Conj(c1: Condition, c2: Condition)
    | Disj(c1: Condition, c2: Condition)

  predicate Related(rel: Relation, a: Value, b: Value) {
    match rel
    case Eq => a == b
    case Ne => a != b
    case Lt => a.Number? && b.Number? && a.n < b.n
    case Gt => a.Number? && b.Number? && a.n > b.n
    case Le => a.Number? && b.Number? && a.n <= b.n
    case Ge => a.Number? && b.Number? && a.n >= b.n
  }

  function Lookup(db: Snapshot, o: Key, col: Column): Value {
    if o in db.rows && col in db.rows[o] then db.rows[o][col] else Null
  }

  /** The value at the end of a path of to-one links; a null link on the way makes it null. */
  function ValueAt(db: Snapshot, o: Key, path: seq<Column>, col: Column): Value
    decreases |path|
  {
    if path == [] then Lookup(db, o, col)
    else match Lookup(db, o, path[0])
         case Target(k) => ValueAt(db, k, path[1..], col)
         case _ => Null
  }

  function EntryAt(db: Snapshot, o: Key, col: Column, entry: string): Value {
    if (o, col, entry) in db.dictionaries then db.dictionaries[(o, col, entry)] else Null
  }

  predicate Matches(a: Atom, db: Snapshot, o: Key) {
    match a
    case Compare(path, col, rel, rhs) => Related(rel, ValueAt(db, o, path, col), rhs)
    case CompareEntry(col, entry, rel, rhs) => Related(rel, EntryAt(db, o, col, entry), rhs)
  }

  /** `v` is the set of comparisons that are true. */
  ghost predicate Sat(c: Condition, v: iset<Atom>) {
    match c
    case True => true
    case False => false
    case Test(a) => a in v
    case Neg(c1) => !Sat(c1, v)
    case Conj(c1, c2) => Sat(c1, v) && Sat(c2, v)
    case Disj(c1, c2) => Sat(c1, v) || Sat(c2, v)
  }

  /** Whether a query holding `c` returns object `o`. */
  predicate Selects(c: Condition, db: Snapshot, o: Key) {
    match c
    case True => true
    case False => false
    case Test(a) => Matches(a, db, o)
    case Neg(c1) => !Selects(c1, db, o)
    case Conj(c1, c2) => Selects(c1, db, o) && Selects(c2, db, o)
    case Disj(c1, c2) => Selects(c1, db, o) || Selects(c2, db, o)
  }

  ghost function TrueAt(db: Snapshot, o: Key): iset<Atom> {
    iset a: Atom | Matches(a, db, o)
  }

  lemma {:induction false} SelectsIsSat(c: Condition, db: Snapshot, o: Key)
    ensures Selects(c, db, o) == Sat(c, TrueAt(db, o))
  {
    match c
    case Neg(c1) => SelectsIsSat(c1, db, o);
    case Conj(c1, c2) => SelectsIsSat(c1, db, o); SelectsIsSat(c2, db, o);
    case Disj(c1, c2) => SelectsIsSat(c1, db, o); SelectsIsSat(c2, db, o);
    case _ =>
  }

  // ----- user comparisons

  /** What a link is compared with: nothing, an object, or the link of some object, with the object
      that link leads to. */
  datatype Operand = Nothing | Object(key: Key) | LinkOf(holder: Key, target: Option<Key>)

  /** One comparison as the user writes it on the recording object. */
  datatype Leaf =
    | Field(path: seq<Column>, col: Column, rel: Relation, rhs: Value)
    | EnumField(path: seq<Column>, col: Column, rel: Relation, n: int)
    | MixedField(col: Column, equal: bool, rhs: Value)
    | LinkField(path: seq<Column>, col: Column, equal: bool, operand: Operand)
    | DictionaryEntry(col: Column, entry: string, rel: Relation, rhs: Value)
    | DictionaryLink(col: Column, entry: string, equal: bool, operand: Operand)

  /** Comparisons of a dictionary's entry. */
  predicate OnDictionary(l: Leaf) {
    l.DictionaryEntry? || l.DictionaryLink?
  }

  function LinkValue(target: Option<Key>): Value {
    if target.Some? then Target(target.value) else Null
  }

  /** The object the user means. */
  function Meant(operand: Operand): Value {
    match operand
    case Nothing => Null
    case Object(k) => Target(k)
    case LinkOf(_, target) => LinkValue(target)
  }

  /** The links navigated before the comparison. */
  function Path(l: Leaf): seq<Column> {
    match l
    case Field(path, _, _, _) => path
    case EnumField(path, _, _, _) => path
    case LinkField(path, _, _, _) => path
    case _ => []
  }

  /** What the comparison means to the user. */
  predicate Intended(l: Leaf, db: Snapshot, o: Key) {
    match l
    case Field(path, col, rel, rhs) => Related(rel, ValueAt(db, o, path, col), rhs)
    case EnumField(path, col, rel, n) => Related(rel, ValueAt(db, o, path, col), Number(n))
    case MixedField(col, equal, rhs) => (Lookup(db, o, col) == rhs) == equal
    case LinkField(path, col, equal, operand) => (ValueAt(db, o, path, col) == Meant(operand)) == equal
    case DictionaryEntry(col, entry, rel, rhs) => Related(rel, EntryAt(db, o, col, entry), rhs)
    case DictionaryLink(col, entry, equal, operand) => (EntryAt(db, o, col, entry) == Meant(operand)) == equal
  }

  /** What a link column is compared with: of another link, the object that holds it. */
  function Written(operand: Operand): Value {
    match operand
    case Nothing => Null
    case Object(k) => Target(k)
    case LinkOf(holder, _) => Target(holder)
  }

  /** The same for an entry of a dictionary, where a null link is told apart. */
  function WrittenEntry(operand: Operand): Value {
    if operand.LinkOf? && operand.target.None? then Null else Written(operand)
  }

  /** What the comparison records in the query, given the link columns pending in the builder. */
  function RecordedVia(chain: seq<Column>, l: Leaf): Atom {
    match l
    case Field(_, col, rel, rhs) => Compare(chain, col, rel, rhs)
    // `<` on an enum property calls `greater`
    case EnumField(_, col, rel, n) => Compare(chain, col, if rel == Lt then Gt else rel, Number(n))
    case MixedField(col, equal, rhs) => Compare(chain, col, if equal then Eq else Ne, rhs)
    // behind a link chain, both null comparisons build `!= null`
    case LinkField(_, col, equal, operand) =>
      if chain != [] && operand.Nothing? then Compare(chain, col, Ne, Null)
      else Compare(chain, col, if equal then Eq else Ne, Written(operand))
    // dictionary comparisons look at neither the chain nor the builder's query
    case DictionaryEntry(col, entry, rel, rhs) => CompareEntry(col, entry, rel, rhs)
    case DictionaryLink(col, entry, equal, operand) => CompareEntry(col, entry, if equal then Eq else Ne, WrittenEntry(operand))
  }

  function Recorded(l: Leaf): Atom {
    RecordedVia(Path(l), l)
  }

  /** Comparisons that extend the query the builder last held instead of starting from the table. */
  predicate Extends(l: Leaf) {
    l.MixedField? || (l.LinkField? && l.path == [])
  }

  /** The comparisons that record something else than what they say: `<` on an enum, `== nullptr`
      behind a link chain, and with a link that does not lead to its own holder. */
  predicate Faithful(l: Leaf) {
    && !(l.EnumField? && l.rel == Lt)
    && !(l.LinkField? && l.path != [] && l.equal && l.operand.Nothing?)
    && !(l.LinkField? && l.operand.LinkOf? && l.operand.target != Some(l.operand.holder))
    && !(l.DictionaryLink? && l.operand.LinkOf? && l.operand.target.Some? && l.operand.target != Some(l.operand.holder))
  }

  // ----- what each comparison selects, on all objects of all databases

  /** Behind any pending links, a comparison selects by the value at their end, dictionary comparisons by
      the object's own entry: with the written relation but for `<` on an enum, which is `>`; with the
      written object but for another link, of which it is the holder; and null comparisons behind
      links are all `!= null`. */
  lemma RecordedSelects(chain: seq<Column>, l: Leaf, db: Snapshot, o: Key)
    ensures var x, selected := ValueAt(db, o, chain, l.col), Matches(RecordedVia(chain, l), db, o);
            && (l.Field? ==> selected == Related(l.rel, x, l.rhs))
            && (l.EnumField? ==> selected == Related(if l.rel == Lt then Gt else l.rel, x, Number(l.n)))
            && (l.MixedField? ==> selected == ((x == l.rhs) == l.equal))
            && (l.LinkField? && l.operand.Nothing? ==> selected == ((x == Null) == (l.equal && chain == [])))
            && (l.LinkField? && l.operand.Object? ==> selected == ((x == Target(l.operand.key)) == l.equal))
            && (l.LinkField? && l.operand.LinkOf? ==> selected == ((x == Target(l.operand.holder)) == l.equal))
    ensures OnDictionary(l) ==>
              var x, selected := EntryAt(db, o, l.col, l.entry), Matches(RecordedVia(chain, l), db, o);
              && (l.DictionaryEntry? ==> selected == Related(l.rel, x, l.rhs))
              && (l.DictionaryLink? && l.operand.Nothing? ==> selected == ((x == Null) == l.equal))
              && (l.DictionaryLink? && l.operand.Object? ==> selected == ((x == Target(l.operand.key)) == l.equal))
              && (l.DictionaryLink? && l.operand.LinkOf? ==>
                    selected == ((x == if l.operand.target.None? then Null else Target(l.operand.holder)) == l.equal))
  {
  }

  /** Where it is recorded: on the end of the pending links, or on the object's own dictionary. */
  lemma RecordedOn(chain: seq<Column>, l: Leaf)
    ensures var a := RecordedVia(chain, l);
            if OnDictionary(l) then a.CompareEntry? && a.col == l.col && a.entry == l.entry
            else a.Compare? && a.path == chain && a.col == l.col
  {
  }

  /** `<` on an enum selects the objects with greater values. */
  lemma LessIsGreater(path: seq<Column>, col: Column, n: int, db: Snapshot, o: Key)
    ensures Matches(Recorded(EnumField(path, col, Lt, n)), db, o) <==> Intended(EnumField(path, col, Gt, n), db, o)
  {
    RecordedSelects(path, EnumField(path, col, Lt, n), db, o);
  }

  /** Behind links, both null comparisons select the objects whose link is set. */
  lemma NullBehindLinks(path: seq<Column>, col: Column, equal: bool, db: Snapshot, o: Key)
    requires path != []
    ensures Matches(Recorded(LinkField(path, col, equal, Nothing)), db, o) <==> Intended(LinkField(path, col, false, Nothing), db, o)
  {
    RecordedSelects(path, LinkField(path, col, equal, Nothing), db, o);
  }

  /** Another link stands for the object that holds it; among dictionary entries, for nothing if it is
      null. */
  lemma OtherLinkIsItsHolder(path: seq<Column>, col: Column, entry: string, equal: bool, h: Key, t: Option<Key>, db: Snapshot, o: Key)
    ensures Matches(Recorded(LinkField(path, col, equal, LinkOf(h, t))), db, o) <==> Intended(LinkField(path, col, equal, Object(h)), db, o)
    ensures Matches(Recorded(DictionaryLink(col, entry, equal, LinkOf(h, t))), db, o) <==>
            Intended(DictionaryLink(col, entry, equal, if t.Some? then Object(h) else Nothing), db, o)
  {
    RecordedSelects(path, LinkField(path, col, equal, LinkOf(h, t)), db, o);
    RecordedSelects([], DictionaryLink(col, entry, equal, LinkOf(h, t)), db, o);
  }

  /** The comparison whose meaning is recorded. */
  function Instead(l: Leaf): Leaf {
    match l
    case EnumField(path, col, Lt, n) => EnumField(path, col, Gt, n)
    case LinkField(path, col, equal, Nothing) => LinkField(path, col, equal && path == [], Nothing)
    case LinkField(path, col, equal, LinkOf(h, _)) => LinkField(path, col, equal, Object(h))
    case DictionaryLink(col, entry, equal, LinkOf(h, t)) => DictionaryLink(col, entry, equal, if t.Some? then Object(h) else Nothing)
    case _ => l
  }

  lemma RecordedInstead(l: Leaf, db: Snapshot, o: Key)
    ensures Matches(Recorded(l), db, o) == Intended(Instead(l), db, o)
  {
    match l
    case EnumField(path, col, Lt, n) => LessIsGreater(path, col, n, db, o);
    case LinkField(path, col, equal, Nothing) => if path != [] { NullBehindLinks(path, col, equal, db, o); }
    case LinkField(path, col, equal, LinkOf(h, t)) => OtherLinkIsItsHolder(path, col, "", equal, h, t, db, o);
    case DictionaryLink(col, entry, equal, LinkOf(h, t)) => OtherLinkIsItsHolder([], col, entry, equal, h, t, db, o);
    case _ =>
  }

  /** A comparison is recorded with its own meaning exactly when it is none of those. */
  lemma RecordedMeaning(l: Leaf)
    ensures Faithful(l) <==> forall db, o :: Matches(Recorded(l), db, o) == Intended(l, db, o)
  {
    if Faithful(l) {
      forall db, o ensures Matches(Recorded(l), db, o) == Intended(l, db, o) {
      }
    } else {
      var db := Telling(l);
      assert Matches(Recorded(l), db, 0) != Intended(l, db, 0);
    }
  }

  /** A snapshot in which a comparison that is not faithful goes wrong for object 0. */
  lemma Telling(l: Leaf) returns (db: Snapshot)
    requires !Faithful(l)
    ensures Matches(Recorded(l), db, 0) != Intended(l, db, 0)
  {
    match l
    case EnumField(path, col, _, n) =>
      db := ChainOf(path, col, Number(n - 1));
      ChainOfEndsAt(path, col, Number(n - 1), 0);
      assert path[0..] == path;
    case LinkField(path, col, _, operand) =>
      db := ChainOf(path, col, Meant(operand));
      ChainOfEndsAt(path, col, Meant(operand), 0);
      assert path[0..] == path;
    case DictionaryLink(col, entry, _, operand) =>
      db := Snapshot(map[], map[(0, col, entry) := Meant(operand)]);
  }

  /** Comparing with the link of another object selects by that object: those linked to it, and none of
      those linked to what its link leads to. */
  lemma ComparedWithHolder(col: Column, holder: Key, target: Key, db: Snapshot, o: Key)
    requires target != holder
    ensures var l := LinkField([], col, true, LinkOf(holder, Some(target)));
            && (Lookup(db, o, col) == Target(target) ==> Intended(l, db, o) && !Matches(Recorded(l), db, o))
            && (Lookup(db, o, col) == Target(holder) ==> !Intended(l, db, o) && Matches(Recorded(l), db, o))
  {
    assert ValueAt(db, o, [], col) == Lookup(db, o, col);
  }

  /** A snapshot in which object `i` of a chain links to object `i + 1` and the last one holds `x`. */
  function ChainOf(path: seq<Column>, col: Column, x: Value): Snapshot {
    Snapshot(map i: nat | 0 <= i <= |path| ::
               map[(if i < |path| then path[i] else col) := if i < |path| then Target(i + 1) else x], map[])
  }

  lemma {:induction false} ChainOfEndsAt(path: seq<Column>, col: Column, x: Value, i: nat)
    requires i <= |path|
    ensures ValueAt(ChainOf(path, col, x), i, path[i..], col) == x
    decreases |path| - i
  {
    if i < |path| {
      ChainOfEndsAt(path, col, x, i + 1);
      assert path[i..][1..] == path[i + 1..];
    }
  }
}
