/** Assignments to a stored link. */
module LinkAssign {
  import opened Wrappers
  import opened Store
  import opened StoreInvariant
  import opened Graph
  import opened GraphInvariant
  import opened GraphFrame
  import opened RoundTrip
  import opened Cells
  import opened Sharing
  import opened Upsert
  import opened Holds
  import opened Success

  /** `ToLink`: the link in column `lcol` of row `from`. What is written of it is the object key of
      `from`; `hit` is the row that has this key in the table that is linked to. */
  datatype Assigned =
    | ToNull
    | ToRow(t: Ref)
    | ToLink(from: Ref, lcol: nat, hit: Option<Ref>)
    | ToObject(o: Option<Obj>)

  /** Setting a link to a row that exists; refused for embedded rows. */
  function LinkRow(sch: Schema, st: Tables, ref: Ref, col: nat, t: Ref): Out {
    if EmbeddedClass(sch, t.cls) then Out(st, false) else SetCell(st, ref, col, CLink(Some(t)))
  }

  /** `link = nullptr`, `link = managed`, `link = other link`, `link = pointer`; unlike writing a null
      pointer property, assigning a null pointer clears the link. */
  function Assign(sch: Schema, st: Tables, ref: Ref, col: nat, a: Assigned): Out {
    match a
    case ToNull => ClearLink(sch, st, ref, col)
    case ToRow(t) => LinkRow(sch, st, ref, col, t)
    case ToLink(_, _, Some(t)) => LinkRow(sch, st, ref, col, t)
    case ToLink(_, _, None) => Out(st, false)
    case ToObject(None) => ClearLink(sch, st, ref, col)
    case ToObject(Some(o)) =>
      var m := PlaceLink(sch, st, ref, col, o);
      if !m.ok then Out(m.st, false) else WriteProps(sch, m.st, m.ref, o.vals, 0)
  }

  /** A link of some row to class `c`; in the table of `c` the key of that row is its own. */
  ghost predicate LinkTo(sch: Schema, st: Tables, c: Class, from: Ref, lcol: nat, hit: Option<Ref>) {
    && Live(st, from, lcol) && from.cls in sch && lcol < |sch[from.cls].props| && sch[from.cls].props[lcol] == KLink(c)
    && st.rows[from][lcol].CLink?
    && (hit.Some? ==> hit.value in st.rows && hit.value.cls == c)
    && (from.cls == c ==> hit == Some(from))
  }

  ghost predicate Assignable(sch: Schema, st: Tables, c: Class, a: Assigned) {
    match a
    case ToNull => true
    case ToRow(t) => t in st.rows && t.cls == c
    case ToLink(from, lcol, hit) => LinkTo(sch, st, c, from, lcol, hit)
    case ToObject(o) => o.Some? ==> Typed(sch, o.value) && o.value.cls == c
  }

  /** Every link assignment keeps the tables well formed; only embedded rows disappear. */
  lemma AssignKeeps(sch: Schema, st: Tables, ref: Ref, col: nat, a: Assigned)
    requires ValidSchema(sch) && WellFormed(sch, st) && ref in st.rows
    requires ref.cls in sch && col < |sch[ref.cls].props| && sch[ref.cls].props[col].KLink?
    requires Assignable(sch, st, sch[ref.cls].props[col].target, a)
    ensures Keeps(sch, st, Assign(sch, st, ref, col, a).st)
  {
    assert RowFits(sch, ref, st.rows[ref]) && ValidClass(sch, sch[ref.cls]);
    match a
    case ToRow(t) => if !EmbeddedClass(sch, t.cls) { SetCellKeeps(sch, st, ref, col, CLink(Some(t))); }
    case ToLink(_, _, hit) => if hit.Some? && !EmbeddedClass(sch, hit.value.cls) { SetCellKeeps(sch, st, ref, col, CLink(hit)); }
    case ToObject(Some(o)) => WriteValKeeps(sch, st, ref, col, Link(Some(o)));
    case _ =>
      ReplaceEmbeddedKeeps(sch, st, ref, col, None);
      VictimsFacts(sch, st, ref, col);
  }

  /** A null pointer leaves the link when it is written by `add` and clears it when it is assigned. */
  lemma NullWrittenNullAssigned(sch: Schema, st: Tables, ref: Ref, col: nat)
    requires Live(st, ref, col)
    ensures WriteVal(sch, st, ref, col, Link(None)) == Out(st, true)
    ensures var w := Assign(sch, st, ref, col, ToObject(None));
            w.ok && Live(w.st, ref, col) && w.st.rows[ref][col] == CLink(None)
  {
  }

  /** An assignment succeeds, on any row, unless it names an embedded row or a key that no row has, or the
      object cannot be written. */
  lemma AssignSucceedsIff(sch: Schema, st: Tables, ref: Ref, col: nat, a: Assigned)
    requires ValidSchema(sch) && WellFormed(sch, st) && ref in st.rows
    requires ref.cls in sch && col < |sch[ref.cls].props| && sch[ref.cls].props[col].KLink?
    requires Assignable(sch, st, sch[ref.cls].props[col].target, a)
    ensures var embedded := EmbeddedClass(sch, sch[ref.cls].props[col].target);
            Assign(sch, st, ref, col, a).ok <==>
              match a
              case ToNull => true
              case ToRow(_) => !embedded
              case ToLink(_, _, hit) => hit.Some? && !embedded
              case ToObject(o) => o.Some? ==> RunsVal(sch, Stored(sch, st), true, Role(ref), HoldOf(sch, st, ref), col, Link(o))
  {
    assert RowFits(sch, ref, st.rows[ref]);
    if a.ToObject? && a.o.Some? {
      ValRuns(sch, st, Stored(sch, st), ref, HoldOf(sch, st, ref), col, Link(a.o), WriteVal(sch, st, ref, col, Link(a.o)));
    }
  }

  ghost function AssignedKeys(sch: Schema, a: Assigned): set<Ref> {
    if a.ToObject? then ElemKeys(sch, a.o) else {}
  }

  /** What an assignment that succeeds does to the row: the link leads to the assigned row, to the row
      of the assigned object, or nowhere; no other column changes. */
  lemma AssignEffect(sch: Schema, st: Tables, ref: Ref, col: nat, a: Assigned, up: set<Ref>)
    requires Outside(sch, st, ref, AssignedKeys(sch, a), up)
    requires ref.cls in sch && col < |sch[ref.cls].props| && sch[ref.cls].props[col].KLink?
    requires Assignable(sch, st, sch[ref.cls].props[col].target, a) && Assign(sch, st, ref, col, a).ok
    ensures var w := Assign(sch, st, ref, col, a);
            && ref in w.st.rows && |w.st.rows[ref]| == |st.rows[ref]| == |sch[ref.cls].props| && w.st.rows[ref][col].CLink?
            && (forall j :: 0 <= j < |st.rows[ref]| && j != col ==> w.st.rows[ref][j] == st.rows[ref][j])
            && var t := w.st.rows[ref][col].link;
            match a
            case ToNull => t == None
            case ToRow(r) => t == Some(r)
            case ToLink(_, _, hit) => t == hit
            case ToObject(None) => t == None
            case ToObject(Some(o)) => t.Some? && RowOf(sch, st.next, t.value, o)
  {
    assert RowFits(sch, ref, st.rows[ref]);
    VictimsFacts(sch, st, ref, col);
    if a.ToObject? && a.o.Some? {
      WriteValEffect(sch, st, ref, col, Link(a.o), up);
    }
  }

  /** An assignment leaves every other row alone that it does not name, for any set of rows that is
      closed under ownership; also when it throws. */
  lemma AssignFrame(sch: Schema, st: Tables, ref: Ref, col: nat, a: Assigned, u: set<Ref>)
    requires ValidSchema(sch) && WellFormed(sch, st) && ref in st.rows
    requires ref.cls in sch && col < |sch[ref.cls].props| && sch[ref.cls].props[col].KLink?
    requires Assignable(sch, st, sch[ref.cls].props[col].target, a)
    requires Apart(sch, st, ref, u) && u !! AssignedKeys(sch, a)
    ensures Unchanged(st, Assign(sch, st, ref, col, a).st, u)
  {
    assert RowFits(sch, ref, st.rows[ref]) && ValidClass(sch, sch[ref.cls]);
    if a.ToObject? && a.o.Some? {
      WriteValFrame(sch, st, ref, col, Link(a.o), u);
    } else {
      VictimsApart(sch, st, ref, col, u);
    }
  }

  /** Assigned from another link, a link leads where that link leads exactly if that link leads to the
      row with the key of its own holder: in a class that links to itself, to the holder. */
  lemma AssignedLinkLeads(sch: Schema, st: Tables, ref: Ref, col: nat, from: Ref, lcol: nat, hit: Option<Ref>)
    requires ValidSchema(sch) && WellFormed(sch, st) && ref in st.rows
    requires ref.cls in sch && col < |sch[ref.cls].props| && sch[ref.cls].props[col].KLink?
    requires LinkTo(sch, st, sch[ref.cls].props[col].target, from, lcol, hit) && Assign(sch, st, ref, col, ToLink(from, lcol, hit)).ok
    ensures var w := Assign(sch, st, ref, col, ToLink(from, lcol, hit));
            && ref in w.st.rows && col < |w.st.rows[ref]|
            && (w.st.rows[ref][col] == st.rows[from][lcol] <==> st.rows[from][lcol].link == hit)
            && (from.cls == sch[ref.cls].props[col].target ==>
                  (w.st.rows[ref][col] == st.rows[from][lcol] <==> st.rows[from][lcol].link == Some(from)))
  {
    assert RowFits(sch, ref, st.rows[ref]);
  }

  const PERSON := ClassDef(["id", "friend"], [KScalar("int"), KLink("Person")], Some(0), false)

  function Person(id: int): Ref {
    Keyed("Person", Int(id))
  }

  /** A person made a friend of another one's friend becomes a friend of that other one. */
  lemma FriendOfFriend(friend: Option<Ref>)
    requires friend.Some? ==> friend.value != Person(2)
    ensures var sch := map["Person" := PERSON];
            var st := Tables(map[Person(1) := [CPrim(Int(1)), CLink(None)], Person(2) := [CPrim(Int(2)), CLink(friend)]], 0);
            var w := Assign(sch, st, Person(1), 1, ToLink(Person(2), 1, Some(Person(2))));
            w.ok && w.st.rows[Person(1)][1] == CLink(Some(Person(2))) != st.rows[Person(2)][1]
  {
    var st := Tables(map[Person(1) := [CPrim(Int(1)), CLink(None)], Person(2) := [CPrim(Int(2)), CLink(friend)]], 0);
    assert Live(st, Person(1), 1);
  }

  // ----- pushing to a list of links

  /** `list.push_back(pointer)`. */
  function PushBack(sch: Schema, st: Tables, ref: Ref, col: nat, o: Obj): Out {
    if Live(st, ref, col) && st.rows[ref][col].CLinks? then WriteElem(sch, st, ref, col, |st.rows[ref][col].links|, Some(o))
    else Out(st, false)
  }

  /** Pushing keeps the tables well formed and appends the one row of the object. */
  lemma PushBackEffect(sch: Schema, st: Tables, ref: Ref, col: nat, o: Obj, up: set<Ref>)
    requires Outside(sch, st, ref, Keys(sch, o), up) && Typed(sch, o)
    requires ref.cls in sch && col < |sch[ref.cls].props| && sch[ref.cls].props[col] == KLinks(o.cls)
    ensures var w := PushBack(sch, st, ref, col, o);
            && Keeps(sch, st, w.st)
            && (w.ok ==> ref in w.st.rows && exists t ::
                  RowOf(sch, st.next, t, o) && w.st.rows[ref] == st.rows[ref][col := CLinks(st.rows[ref][col].links + [t])])
  {
    assert RowFits(sch, ref, st.rows[ref]);
    var ts := st.rows[ref][col].links;
    WriteElemKeeps(sch, st, ref, col, |ts|, Some(o));
    if PushBack(sch, st, ref, col, o).ok {
      WriteElemEffect(sch, st, ref, col, |ts|, Some(o), up);
      var t := PlaceElem(sch, st, ref, col, |ts|, o).ref;
      assert ts[..|ts|] + [t] + ts[|ts|..] == ts + [t];
      assert RowOf(sch, st.next, t, o);
    }
  }

  /** Pushing succeeds, whatever the list holds, exactly if the object can be written and, unless it is
      embedded, does not write again what the list's own row hangs on. */
  lemma PushBackSucceedsIff(sch: Schema, st: Tables, ref: Ref, col: nat, o: Obj)
    requires ValidSchema(sch) && WellFormed(sch, st) && ref in st.rows && Typed(sch, o)
    requires ref.cls in sch && col < |sch[ref.cls].props| && sch[ref.cls].props[col] == KLinks(o.cls)
    ensures var g := HoldOf(sch, st, ref);
            PushBack(sch, st, ref, col, o).ok <==>
              if EmbeddedClass(sch, o.cls) then RunsObj(sch, OneMore(Stored(sch, st), Role(ref), col), HoldFor(sch, ref, g, col), o)
              else RunsObj(sch, Stored(sch, st), None, o) && !Cuts(sch, g, Link(Some(o)))
  {
    assert RowFits(sch, ref, st.rows[ref]);
    var n := |st.rows[ref][col].links|;
    ElemRuns(sch, st, Stored(sch, st), ref, HoldOf(sch, st, ref), col, n, Some(o), true, WriteElem(sch, st, ref, col, n, Some(o)));
  }

  /** So an object without nulls and nested keys is always pushed, if it does not name the rows that the
      list's row is embedded in. */
  lemma SolidIsPushed(sch: Schema, st: Tables, ref: Ref, col: nat, o: Obj, up: set<Ref>)
    requires Outside(sch, st, ref, Keys(sch, o), up) && Typed(sch, o) && Solid(o) && Unnested(sch, o)
    requires ref.cls in sch && col < |sch[ref.cls].props| && sch[ref.cls].props[col] == KLinks(o.cls)
    ensures PushBack(sch, st, ref, col, o).ok
  {
    var g := HoldOf(sch, st, ref);
    HoldIsHolder(sch, st, ref, ref, up);
    NothingNamed(sch, st, ref, g, o, up);
    SolidElemRuns(sch, Stored(sch, st), Role(ref), g, col, Some(o), true);
    PushBackSucceedsIff(sch, st, ref, col, o);
  }

  lemma NothingNamed(sch: Schema, st: Tables, ref: Ref, g: Hold, o: Obj, up: set<Ref>)
    requires (up + {ref}) !! Keys(sch, o) && (g.Some? ==> g.value.0 in up)
    ensures Free(g, r => OptOccurrences(sch, r, Some(o))) && OptOccurrences(sch, ref, Some(o)) == []
  {
    NotNamed(sch, ref, o);
    if g.Some? { NotNamed(sch, g.value.0, o); }
  }

  /** What a row hangs on is a property of a row it is embedded in. */
  lemma {:induction false} HoldIsHolder(sch: Schema, st: Tables, ref: Ref, r: Ref, up: set<Ref>)
    requires WellFormed(sch, st) && Inside(sch, st, ref, up) && r in up + {ref}
    ensures HoldOf(sch, st, r).Some? ==> HoldOf(sch, st, r).value.0 in up
    decreases if r.Auto? then r.n + 1 else 0
  {
    if IsEmbedded(sch, r) {
      var s :| Owns(sch, st.rows, s, r);
      HoldOfOwned(sch, st, s, r);
      assert Older(s.owner, r) && s.owner in up + {ref};
      HoldIsHolder(sch, st, ref, s.owner, up);
    }
  }

  /** Pushing leaves every other row alone that the object does not name. */
  lemma PushBackFrame(sch: Schema, st: Tables, ref: Ref, col: nat, o: Obj, u: set<Ref>)
    requires ValidSchema(sch) && WellFormed(sch, st) && Typed(sch, o)
    requires ref.cls in sch && col < |sch[ref.cls].props| && sch[ref.cls].props[col] == KLinks(o.cls)
    requires Apart(sch, st, ref, u) && u !! Keys(sch, o)
    ensures Unchanged(st, PushBack(sch, st, ref, col, o).st, u)
  {
    if Live(st, ref, col) && st.rows[ref][col].CLinks? {
      WriteElemFrame(sch, st, ref, col, |st.rows[ref][col].links|, Some(o), u);
    }
  }

  /** `list.push_back(managed)` and `list.push_back(other link)`: of a link, again, the object key of its
      holder; `t` is the row that has the key. Refused for embedded rows. */
  function PushRow(sch: Schema, st: Tables, ref: Ref, col: nat, t: Option<Ref>): Out {
    if t.None? || EmbeddedClass(sch, t.value.cls) then Out(st, false) else AppendLink(st, ref, col, t.value)
  }

  /** Pushing a row keeps the tables well formed and appends it, and changes nothing else. */
  lemma PushRowEffect(sch: Schema, st: Tables, ref: Ref, col: nat, t: Option<Ref>)
    requires ValidSchema(sch) && WellFormed(sch, st) && ref in st.rows
    requires ref.cls in sch && col < |sch[ref.cls].props| && sch[ref.cls].props[col].KLinks?
    requires t.Some? ==> t.value in st.rows && t.value.cls == sch[ref.cls].props[col].target
    ensures var w := PushRow(sch, st, ref, col, t);
            && Keeps(sch, st, w.st) && (w.ok <==> t.Some? && !EmbeddedClass(sch, t.value.cls))
            && |st.rows[ref]| == |sch[ref.cls].props| && st.rows[ref][col].CLinks?
            && w.st == if w.ok then st.(rows := st.rows[ref := st.rows[ref][col := CLinks(st.rows[ref][col].links + [t.value])]]) else st
  {
    assert RowFits(sch, ref, st.rows[ref]);
    if t.Some? && !EmbeddedClass(sch, t.value.cls) { AppendLinkKeeps(sch, st, ref, col, t.value); }
  }

  /** On a row that is deleted nothing succeeds, unless the object brings the row back, and every row that
      is there stays as it is. */
  lemma DeletedRefuses(sch: Schema, st: Tables, ref: Ref, col: nat, a: Assigned, o: Obj, t: Option<Ref>)
    requires WellFormed(sch, st) && ref !in st.rows && (a.ToObject? && a.o.Some? ==> RefOf(sch, st.next, a.o.value) != ref)
    ensures !Assign(sch, st, ref, col, a).ok && !PushBack(sch, st, ref, col, o).ok && !PushRow(sch, st, ref, col, t).ok
    ensures forall r :: r in st.rows ==> r in Assign(sch, st, ref, col, a).st.rows && Assign(sch, st, ref, col, a).st.rows[r] == st.rows[r]
  {
  }

  /** Pushing another link appends the row that link leads to exactly if it leads to the row with the
      key of its own holder. */
  lemma PushedLinkLeads(sch: Schema, st: Tables, ref: Ref, col: nat, from: Ref, lcol: nat, hit: Option<Ref>)
    requires ValidSchema(sch) && WellFormed(sch, st) && ref in st.rows
    requires ref.cls in sch && col < |sch[ref.cls].props| && sch[ref.cls].props[col].KLinks?
    requires LinkTo(sch, st, sch[ref.cls].props[col].target, from, lcol, hit) && PushRow(sch, st, ref, col, hit).ok
    ensures var w := PushRow(sch, st, ref, col, hit);
            && ref in w.st.rows && col < |w.st.rows[ref]| && w.st.rows[ref][col].CLinks? && w.st.rows[ref][col].links != []
            && var ts := w.st.rows[ref][col].links;
            (Some(ts[|ts| - 1]) == st.rows[from][lcol].link <==> st.rows[from][lcol].link == hit)
  {
    PushRowEffect(sch, st, ref, col, hit);
  }
}
