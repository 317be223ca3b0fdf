/** Every store operation keeps the tables well formed: keys, live links, and one owner for each embedded row. */
module StoreInvariant {
  import opened Wrappers
  import opened Store

  predicate SameEmbedded(sch: Schema, rows: Rows, rows': Rows) {
    forall e :: e in rows.Keys + rows'.Keys && IsEmbedded(sch, e) ==> (e in rows <==> e in rows')
  }

  /** Ownership only depends on who links to embedded rows. */
  lemma OwnersKept(sch: Schema, rows: Rows, rows': Rows)
    requires OneOwner(sch, rows) && SameEmbedded(sch, rows, rows')
    requires forall s, e :: Owns(sch, rows', s, e) <==> Owns(sch, rows, s, e)
    ensures OneOwner(sch, rows')
  {
    forall e | e in rows' && IsEmbedded(sch, e) ensures exists s :: Owns(sch, rows', s, e) {
      assert e in rows;
      var s :| Owns(sch, rows, s, e);
    }
  }

  /** What may be written to a column: a cell of its kind, and its own key to a primary key. */
  predicate Writable(sch: Schema, ref: Ref, col: nat, c: Cell) {
    && ref.cls in sch && col < |sch[ref.cls].props| && CellFits(sch[ref.cls].props[col], c)
    && (ref.Keyed? && sch[ref.cls].pk == Some(col) ==> c == CPrim(ref.pk))
  }

  /** A cell without links to embedded rows replaces another such cell. */
  lemma SetCellKeeps(sch: Schema, st: Tables, ref: Ref, col: nat, c: Cell)
    requires WellFormed(sch, st) && Live(st, ref, col) && Writable(sch, ref, col, c)
    requires forall t :: t in Targets(c) ==> t in st.rows && !IsEmbedded(sch, t)
    requires forall t :: t in Targets(st.rows[ref][col]) ==> !IsEmbedded(sch, t)
    ensures WellFormed(sch, SetCell(st, ref, col, c).st)
  {
    var st' := SetCell(st, ref, col, c).st;
    assert RowFits(sch, ref, st.rows[ref]);
    forall s: Slot ensures At(st'.rows, s) == At(st.rows, s) || (s.owner == ref && s.col == col) {
    }
    forall s: Slot | At(st'.rows, s).Some? ensures At(st'.rows, s).value in st'.rows {
      if s.owner == ref && s.col == col {
        assert At(st'.rows, s).value in Targets(c);
      } else {
        assert At(st'.rows, s) == At(st.rows, s);
      }
    }
    forall s: Slot | s.owner == ref && s.col == col
      ensures At(st.rows, s).Some? ==> At(st.rows, s).value in Targets(st.rows[ref][col])
      ensures At(st'.rows, s).Some? ==> At(st'.rows, s).value in Targets(c)
    {
    }
    forall s, e ensures Owns(sch, st'.rows, s, e) <==> Owns(sch, st.rows, s, e) {
      if !(s.owner == ref && s.col == col) {
        assert At(st'.rows, s) == At(st.rows, s);
      }
    }
    OwnersKept(sch, st.rows, st'.rows);
  }

  lemma DefaultFits(sch: Schema, r: Ref)
    requires ValidSchema(sch) && r.cls in sch
    ensures var d := sch[r.cls];
            && (d.pk.None? && r.Auto? ==> RowFits(sch, r, DefaultRow(d)))
            && (d.pk.Some? && r.Keyed? ==> d.pk.value < |d.props| && RowFits(sch, r, DefaultRow(d)[d.pk.value := CPrim(r.pk)]))
  {
    assert ValidClass(sch, sch[r.cls]);
  }

  lemma AddRowKeeps(sch: Schema, st: Tables, ref: Ref, row: Row, next: nat)
    requires WellFormed(sch, st) && ref !in st.rows && !IsEmbedded(sch, ref)
    requires RowFits(sch, ref, row) && next >= st.next && (ref.Auto? ==> ref.n < next)
    requires forall i :: 0 <= i < |row| ==> Targets(row[i]) == []
    ensures WellFormed(sch, Tables(st.rows[ref := row], next))
  {
    var rows' := st.rows[ref := row];
    forall s: Slot ensures At(rows', s) == At(st.rows, s) {
    }
    forall s: Slot | At(rows', s).Some? ensures At(rows', s).value in rows' {
      assert At(rows', s) == At(st.rows, s);
    }
    forall s, e ensures Owns(sch, rows', s, e) <==> Owns(sch, st.rows, s, e) {
      assert At(rows', s) == At(st.rows, s);
    }
    OwnersKept(sch, st.rows, rows');
  }

  lemma NumbersAreNew(sch: Schema, st: Tables, c: Class)
    requires RowsFit(sch, st)
    ensures Auto(c, st.next) !in st.rows
  {
  }

  lemma CreateObjectKeeps(sch: Schema, st: Tables, c: Class)
    requires ValidSchema(sch) && WellFormed(sch, st) && c in sch && sch[c].pk.None?
    ensures var m := CreateObject(sch, st, c);
            WellFormed(sch, m.st) && (m.ok ==> m.ref in m.st.rows && m.ref !in st.rows)
  {
    var m := CreateObject(sch, st, c);
    NumbersAreNew(sch, st, c);
    DefaultFits(sch, m.ref);
    if m.ok { AddRowKeeps(sch, st, m.ref, DefaultRow(sch[c]), st.next + 1); }
  }

  lemma CreateWithKeyKeeps(sch: Schema, st: Tables, c: Class, pk: Prim)
    requires ValidSchema(sch) && WellFormed(sch, st) && c in sch
    requires sch[c].pk.Some?
    ensures var m := CreateWithKey(sch, st, c, pk); m.ok && WellFormed(sch, m.st) && m.ref in m.st.rows
  {
    var ref := Keyed(c, pk);
    DefaultFits(sch, ref);
    assert ValidClass(sch, sch[c]);
    if ref !in st.rows {
      AddRowKeeps(sch, st, ref, DefaultRow(sch[c])[sch[c].pk.value := CPrim(pk)], st.next);
    }
  }

  /** What holds of the rows that go away when an embedded link is overwritten: they are all newer
      than the row holding the link, and the rows that stay do not link to them. */
  lemma VictimsFacts(sch: Schema, st: Tables, ref: Ref, col: nat)
    requires WellFormed(sch, st) && Live(st, ref, col)
    ensures var v := Victims(sch, st, ref, col);
            && v <= st.rows.Keys && ref !in v && Owned(sch, st.rows, v) <= v
            && (forall r :: r in v ==> IsEmbedded(sch, r))
            && (forall s, e :: Owns(sch, st.rows, s, e) && e in v ==> s.owner in v || s == Slot(ref, col, 0))
            && (forall s, e :: Owns(sch, st.rows, s, e) && s.owner in v ==> e in v)
  {
    var v := Victims(sch, st, ref, col);
    if v != {} {
      var t := st.rows[ref][col].link.value;
      var top := Slot(ref, col, 0);
      assert At(st.rows, top) == Some(t);
      assert Owns(sch, st.rows, top, t);
      var u := set r | r in st.rows && (!IsEmbedded(sch, r) || !Older(ref, r));
      forall s, e | Owns(sch, st.rows, s, e) && e in u ensures s.owner in u {
        assert Older(s.owner, e);
      }
      CascadeAvoids(sch, st.rows, {t}, u);
      assert ref in u;
      forall s, e | Owns(sch, st.rows, s, e) && e in v ensures s.owner in v || s == top {
        if e == t {
          assert s == top;
        } else {
          CascadeOwned(sch, st.rows, {t}, e);
        }
      }
      forall s, e | Owns(sch, st.rows, s, e) && s.owner in v ensures e in v {
        assert e in st.rows;
        SlotIsOwned(sch, st.rows, v, s, e);
      }
    }
  }

  /** The rows after dropping what a link cell owns and writing a new embedded row, or null, to it. */
  function Replaced(sch: Schema, st: Tables, ref: Ref, col: nat, created: Option<Ref>): Rows
    requires Live(st, ref, col) && (created.Some? ==> created.value.cls in sch)
  {
    var rows := st.rows - Victims(sch, st, ref, col);
    (if created.Some? then rows[created.value := DefaultRow(sch[created.value.cls])] else rows)[ref := st.rows[ref][col := CLink(created)]]
  }

  ghost predicate Replacing(sch: Schema, st: Tables, ref: Ref, col: nat, created: Option<Ref>) {
    && ValidSchema(sch) && WellFormed(sch, st) && Live(st, ref, col)
    && Writable(sch, ref, col, CLink(created)) && st.rows[ref][col].CLink?
    && (created.Some? ==> created.value == Auto(created.value.cls, st.next) && IsEmbedded(sch, created.value) && sch[created.value.cls].pk.None?)
  }

  /** Where a slot leads afterwards. */
  function ReplacedAt(sch: Schema, st: Tables, ref: Ref, col: nat, created: Option<Ref>, s: Slot): Option<Ref>
    requires Live(st, ref, col)
  {
    if s == Slot(ref, col, 0) then created
    else if s.owner in Victims(sch, st, ref, col) || (s.owner == ref && s.col == col) then None
    else At(st.rows, s)
  }

  lemma DefaultHasNoLinks(rows: Rows, d: ClassDef, s: Slot)
    requires s.owner in rows && rows[s.owner] == DefaultRow(d)
    ensures At(rows, s) == None
  {
  }

  lemma ReplacedSlot(sch: Schema, st: Tables, ref: Ref, col: nat, created: Option<Ref>, s: Slot)
    requires Live(st, ref, col) && (created.Some? ==> created.value.cls in sch && created.value !in st.rows)
    requires ref !in Victims(sch, st, ref, col)
    ensures At(Replaced(sch, st, ref, col, created), s) == ReplacedAt(sch, st, ref, col, created, s)
  {
    var rows' := Replaced(sch, st, ref, col, created);
    if s.owner == ref {
      assert rows'[ref] == st.rows[ref][col := CLink(created)];
    } else if Some(s.owner) == created {
      DefaultHasNoLinks(rows', sch[created.value.cls], s);
    } else {
      assert s.owner in rows' <==> s.owner in st.rows && s.owner !in Victims(sch, st, ref, col);
    }
  }

  lemma ReplacedSlots(sch: Schema, st: Tables, ref: Ref, col: nat, created: Option<Ref>)
    requires Replacing(sch, st, ref, col, created)
    ensures forall s: Slot :: At(Replaced(sch, st, ref, col, created), s) == ReplacedAt(sch, st, ref, col, created, s)
    ensures Replaced(sch, st, ref, col, created).Keys ==
            st.rows.Keys - Victims(sch, st, ref, col) + (if created.Some? then {created.value} else {})
    ensures created.Some? ==> created.value !in st.rows
  {
    VictimsFacts(sch, st, ref, col);
    assert RowFits(sch, ref, st.rows[ref]);
    if created.Some? {
      NumbersAreNew(sch, st, created.value.cls);
      DefaultFits(sch, created.value);
    }
    forall s: Slot ensures At(Replaced(sch, st, ref, col, created), s) == ReplacedAt(sch, st, ref, col, created, s) {
      ReplacedSlot(sch, st, ref, col, created, s);
    }
  }

  lemma ReplacedRowsFit(sch: Schema, st: Tables, ref: Ref, col: nat, created: Option<Ref>)
    requires Replacing(sch, st, ref, col, created)
    ensures RowsFit(sch, Tables(Replaced(sch, st, ref, col, created), if created.Some? then st.next + 1 else st.next))
  {
    assert RowFits(sch, ref, st.rows[ref]);
    if created.Some? { DefaultFits(sch, created.value); }
    var rows' := Replaced(sch, st, ref, col, created);
    forall r | r in rows' ensures RowFits(sch, r, rows'[r]) && (r.Auto? ==> r.n < st.next || (created == Some(r))) {
      if r in st.rows { assert RowFits(sch, r, st.rows[r]); }
    }
  }

  lemma ReplacedLinks(sch: Schema, st: Tables, ref: Ref, col: nat, created: Option<Ref>)
    requires Replacing(sch, st, ref, col, created)
    ensures LinksLive(Replaced(sch, st, ref, col, created))
  {
    ReplacedSlots(sch, st, ref, col, created);
    VictimsFacts(sch, st, ref, col);
    var rows' := Replaced(sch, st, ref, col, created);
    forall s: Slot | At(rows', s).Some? ensures At(rows', s).value in rows' {
      if s != Slot(ref, col, 0) {
        var t := At(st.rows, s).value;
        assert t in st.rows;
        if IsEmbedded(sch, t) { assert Owns(sch, st.rows, s, t); }
      }
    }
  }

  lemma ReplacedOwners(sch: Schema, st: Tables, ref: Ref, col: nat, created: Option<Ref>)
    requires Replacing(sch, st, ref, col, created)
    ensures OneOwner(sch, Replaced(sch, st, ref, col, created))
  {
    var rows' := Replaced(sch, st, ref, col, created);
    var v := Victims(sch, st, ref, col);
    var top := Slot(ref, col, 0);
    VictimsFacts(sch, st, ref, col);
    ReplacedSlots(sch, st, ref, col, created);
    assert RowFits(sch, ref, st.rows[ref]);
    assert ref.Auto? ==> ref.n < st.next;
    forall e | e in rows' && IsEmbedded(sch, e) ensures exists s :: Owns(sch, rows', s, e) {
      if Some(e) == created {
        assert Owns(sch, rows', top, e);
      } else {
        var s :| Owns(sch, st.rows, s, e);
        SlotVictim(sch, st, ref, col, s, e);
        assert Owns(sch, rows', s, e);
      }
    }
    forall s, e | Owns(sch, rows', s, e)
      ensures Older(s.owner, e) && (e in st.rows ==> Owns(sch, st.rows, s, e)) && (e !in st.rows ==> s == top)
    {
      if s != top { assert Owns(sch, st.rows, s, e); assert e in st.rows; }
    }
  }

  lemma SlotVictim(sch: Schema, st: Tables, ref: Ref, col: nat, s: Slot, e: Ref)
    requires WellFormed(sch, st) && Live(st, ref, col) && st.rows[ref][col].CLink?
    requires Owns(sch, st.rows, s, e)
    ensures s.owner == ref && s.col == col ==> e in Victims(sch, st, ref, col)
  {
    assert e in st.rows;
  }

  lemma ReplaceEmbeddedKeeps(sch: Schema, st: Tables, ref: Ref, col: nat, created: Option<Ref>)
    requires Replacing(sch, st, ref, col, created)
    ensures WellFormed(sch, Tables(Replaced(sch, st, ref, col, created), if created.Some? then st.next + 1 else st.next))
  {
    ReplacedRowsFit(sch, st, ref, col, created);
    ReplacedLinks(sch, st, ref, col, created);
    ReplacedOwners(sch, st, ref, col, created);
  }

  lemma InsertEmbeddedKeeps(sch: Schema, st: Tables, ref: Ref, col: nat, i: nat, c: Class)
    requires ValidSchema(sch) && WellFormed(sch, st) && c in sch && sch[c].embedded && sch[c].pk.None?
    requires Live(st, ref, col) ==> ref.cls in sch && col < |sch[ref.cls].props| && sch[ref.cls].props[col] == KLinks(c)
    ensures var m := InsertEmbedded(sch, st, ref, col, i, c);
            WellFormed(sch, m.st) && (m.ok ==> m.ref in m.st.rows && m.ref !in st.rows)
  {
    var m := InsertEmbedded(sch, st, ref, col, i, c);
    if m.ok {
      var created, rows, rows' := m.ref, st.rows, m.st.rows;
      NumbersAreNew(sch, st, c);
      InsertedRowsFit(sch, st, ref, col, i, c);
      forall s: Slot ensures At(rows', s) == InsertedAt(rows, ref, col, i, created, s) {
        InsertedSlot(sch, st, ref, col, i, c, s);
      }
      forall s: Slot | At(rows', s).Some? ensures At(rows', s).value in rows' {
        assert At(rows, Before(ref, col, i, s)).Some? ==> At(rows, Before(ref, col, i, s)).value in rows;
      }
      InsertedOwners(sch, st, ref, col, i, created, rows');
    }
  }

  lemma InsertedRowsFit(sch: Schema, st: Tables, ref: Ref, col: nat, i: nat, c: Class)
    requires ValidSchema(sch) && RowsFit(sch, st) && c in sch && sch[c].pk.None?
    requires ref.cls in sch && col < |sch[ref.cls].props| && sch[ref.cls].props[col] == KLinks(c)
    requires InsertEmbedded(sch, st, ref, col, i, c).ok
    ensures RowsFit(sch, InsertEmbedded(sch, st, ref, col, i, c).st)
  {
    var m := InsertEmbedded(sch, st, ref, col, i, c);
    DefaultFits(sch, m.ref);
    NumbersAreNew(sch, st, c);
    assert RowFits(sch, ref, st.rows[ref]);
    forall r | r in m.st.rows ensures RowFits(sch, r, m.st.rows[r]) && (r.Auto? ==> r.n < m.st.next) {
      if r in st.rows { assert RowFits(sch, r, st.rows[r]); }
    }
  }

  lemma InsertedSlot(sch: Schema, st: Tables, ref: Ref, col: nat, i: nat, c: Class, s: Slot)
    requires c in sch && InsertEmbedded(sch, st, ref, col, i, c).ok && Auto(c, st.next) !in st.rows
    ensures At(InsertEmbedded(sch, st, ref, col, i, c).st.rows, s) == InsertedAt(st.rows, ref, col, i, Auto(c, st.next), s)
  {
    var rows' := InsertEmbedded(sch, st, ref, col, i, c).st.rows;
    if s.owner == Auto(c, st.next) {
      DefaultHasNoLinks(rows', sch[c], s);
    } else if s.owner == ref && s.col == col {
      var ts := st.rows[ref][col].links;
      assert Targets(rows'[ref][col]) == ts[..i] + [Auto(c, st.next)] + ts[i..];
    }
  }

  ghost predicate Inserted(sch: Schema, st: Tables, ref: Ref, col: nat, i: nat, created: Ref, rows': Rows) {
    && WellFormed(sch, st) && Live(st, ref, col)
    && created.Auto? && created.n == st.next && IsEmbedded(sch, created) && created !in st.rows
    && rows'.Keys == st.rows.Keys + {created}
    && forall s: Slot :: At(rows', s) == InsertedAt(st.rows, ref, col, i, created, s)
  }

  lemma InsertedHaveOwner(sch: Schema, st: Tables, ref: Ref, col: nat, i: nat, created: Ref, rows': Rows, e: Ref)
    requires Inserted(sch, st, ref, col, i, created, rows') && e in rows' && IsEmbedded(sch, e)
    ensures exists s :: Owns(sch, rows', s, e)
  {
    if e == created {
      assert Owns(sch, rows', Slot(ref, col, i), e);
    } else {
      var s :| Owns(sch, st.rows, s, e);
      var s' := if s.owner == ref && s.col == col && s.idx >= i then s.(idx := s.idx + 1) else s;
      assert Before(ref, col, i, s') == s;
      assert Owns(sch, rows', s', e);
    }
  }

  lemma InsertedOwner(sch: Schema, st: Tables, ref: Ref, col: nat, i: nat, created: Ref, rows': Rows, s: Slot, e: Ref)
    requires Inserted(sch, st, ref, col, i, created, rows') && Owns(sch, rows', s, e)
    ensures Older(s.owner, e)
    ensures if s == Slot(ref, col, i) then e == created else Owns(sch, st.rows, Before(ref, col, i, s), e) && e in st.rows
  {
    if s == Slot(ref, col, i) {
      assert RowFits(sch, ref, st.rows[ref]);
    } else {
      assert Owns(sch, st.rows, Before(ref, col, i, s), e);
    }
  }

  lemma InsertedOwners(sch: Schema, st: Tables, ref: Ref, col: nat, i: nat, created: Ref, rows': Rows)
    requires Inserted(sch, st, ref, col, i, created, rows')
    ensures OneOwner(sch, rows')
  {
    forall e | e in rows' && IsEmbedded(sch, e) ensures exists s :: Owns(sch, rows', s, e) {
      InsertedHaveOwner(sch, st, ref, col, i, created, rows', e);
    }
    forall s, e | Owns(sch, rows', s, e) ensures Older(s.owner, e) {
      InsertedOwner(sch, st, ref, col, i, created, rows', s, e);
    }
    forall s, s', e | Owns(sch, rows', s, e) && Owns(sch, rows', s', e) ensures s == s' {
      InsertedOwner(sch, st, ref, col, i, created, rows', s, e);
      InsertedOwner(sch, st, ref, col, i, created, rows', s', e);
    }
  }

  /** Where a slot leads after inserting `created` at index `i`. */
  function InsertedAt(rows: Rows, ref: Ref, col: nat, i: nat, created: Ref, s: Slot): Option<Ref> {
    if s == Slot(ref, col, i) then Some(created) else At(rows, Before(ref, col, i, s))
  }

  /** Where a slot of the list was before an insertion at `i`. */
  function Before(ref: Ref, col: nat, i: nat, s: Slot): Slot {
    if s.owner == ref && s.col == col && s.idx > i then s.(idx := s.idx - 1) else s
  }
}
