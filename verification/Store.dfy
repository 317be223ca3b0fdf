/** The tables objects are written to: rows, links and embedded ownership. */
module Store {
  import opened Wrappers

  // The operations are the contract assumed of the core store.

  type Class = string
  type Name = string

  /** The type of a property's values or elements, `optional` included. */
  type Type = string

  datatype Prim = Null | Int(i: int) | Text(s: string)

  /** How a list of primitives is written: `obj::set_list_values` differs by element type. */
  datatype ListWrite = Replace | Append | InsertAtIndex

  datatype Kind =
    | KScalar(ty: Type)
    | KLink(target: Class)
    | KLinks(target: Class)
    | KList(write: ListWrite, ty: Type)
    | KSet(ty: Type)
    | KMap(ty: Type)
    | KBacklinks

  datatype ClassDef = ClassDef(names: seq<Name>, props: seq<Kind>, pk: Option<nat>, embedded: bool)

  type Schema = map<Class, ClassDef>

  ghost predicate ValidSchema(sch: Schema) {
    forall c :: c in sch ==> ValidClass(sch, sch[c])
  }

  ghost predicate ValidClass(sch: Schema, d: ClassDef) {
    && |d.names| == |d.props| && (forall i, j :: 0 <= i < j < |d.names| ==> d.names[i] != d.names[j])
    && (d.pk.Some? ==> d.pk.value < |d.props| && d.props[d.pk.value].KScalar? && !d.embedded)
    && forall i :: 0 <= i < |d.props| ==> TargetKnown(sch, d.props[i])
  }

  predicate TargetKnown(sch: Schema, k: Kind) {
    k.KLink? || k.KLinks? ==> k.target in sch
  }

  /** A row is addressed by its primary key, or by a number handed out once. */
  datatype Ref = Keyed(cls: Class, pk: Prim) | Auto(cls: Class, n: nat)

  datatype Cell =
    | CPrim(p: Prim)
    | CLink(link: Option<Ref>)
    | CLinks(links: seq<Ref>)
    | CList(items: seq<Prim>)
    | CSet(elems: set<Prim>)
    | CMap(entries: map<string, Prim>)
    | CNone

  type Row = seq<Cell>
  type Rows = map<Ref, Row>

  datatype Tables = Tables(rows: Rows, next: nat)

  /** The tables after an operation; not `ok` stands for an exception. */
  datatype Out = Out(st: Tables, ok: bool)

  /** The tables and the object an operation created or found. */
  datatype Made = Made(st: Tables, ref: Ref, ok: bool)

  function DefaultCell(k: Kind): Cell {
    match k
    case KScalar(_) => CPrim(Null)
    case KLink(_) => CLink(None)
    case KLinks(_) => CLinks([])
    case KList(_, _) => CList([])
    case KSet(_) => CSet({})
    case KMap(_) => CMap(map[])
    case KBacklinks => CNone
  }

  function DefaultRow(d: ClassDef): (row: Row)
    ensures |row| == |d.props|
    ensures forall i :: 0 <= i < |row| ==> row[i] == DefaultCell(d.props[i])
  {
    seq(|d.props|, i requires 0 <= i < |d.props| => DefaultCell(d.props[i]))
  }

  predicate Live(st: Tables, ref: Ref, col: nat) {
    ref in st.rows && col < |st.rows[ref]|
  }

  function SetCell(st: Tables, ref: Ref, col: nat, c: Cell): Out {
    if Live(st, ref, col) then Out(st.(rows := st.rows[ref := st.rows[ref][col := c]]), true)
    else Out(st, false)
  }

  function AppendLink(st: Tables, ref: Ref, col: nat, t: Ref): Out {
    if Live(st, ref, col) && st.rows[ref][col].CLinks? then SetCell(st, ref, col, CLinks(st.rows[ref][col].links + [t]))
    else Out(st, false)
  }

  /** `table.create_object()`; refused on the table of an embedded class. */
  function CreateObject(sch: Schema, st: Tables, c: Class): Made {
    var ref := Auto(c, st.next);
    if c in sch && !sch[c].embedded then Made(Tables(st.rows[ref := DefaultRow(sch[c])], st.next + 1), ref, true)
    else Made(st, ref, false)
  }

  /** `table.create_object_with_primary_key(pk)`: the existing row if there is one. */
  function CreateWithKey(sch: Schema, st: Tables, c: Class, pk: Prim): Made {
    var ref := Keyed(c, pk);
    if c !in sch || sch[c].pk.None? || sch[c].pk.value >= |sch[c].props| then Made(st, ref, false)
    else if ref in st.rows then Made(st, ref, true)
    else Made(st.(rows := st.rows[ref := DefaultRow(sch[c])[sch[c].pk.value := CPrim(pk)]]), ref, true)
  }

  // ----- links and ownership

  datatype Slot = Slot(owner: Ref, col: nat, idx: nat)

  function Targets(c: Cell): seq<Ref> {
    match c
    case CLink(Some(t)) => [t]
    case CLinks(ts) => ts
    case _ => []
  }

  /** The row a slot links to. */
  function At(rows: Rows, s: Slot): Option<Ref> {
    if s.owner in rows && s.col < |rows[s.owner]| && s.idx < |Targets(rows[s.owner][s.col])|
    then Some(Targets(rows[s.owner][s.col])[s.idx])
    else None
  }

  predicate IsEmbedded(sch: Schema, r: Ref) {
    r.cls in sch && sch[r.cls].embedded
  }

  predicate LinksTo(row: Row, t: Ref) {
    exists c :: 0 <= c < |row| && t in Targets(row[c])
  }

  /** The embedded rows owned by rows of `s`. */
  function Owned(sch: Schema, rows: Rows, s: set<Ref>): set<Ref> {
    set t | t in rows && IsEmbedded(sch, t) && exists r :: r in s && r in rows && LinksTo(rows[r], t)
  }

  lemma OwnedHasSlot(sch: Schema, rows: Rows, s: set<Ref>, t: Ref) returns (slot: Slot)
    requires t in Owned(sch, rows, s)
    ensures slot.owner in s && Owns(sch, rows, slot, t)
  {
    var r :| r in s && r in rows && LinksTo(rows[r], t);
    var c :| 0 <= c < |rows[r]| && t in Targets(rows[r][c]);
    var i :| 0 <= i < |Targets(rows[r][c])| && Targets(rows[r][c])[i] == t;
    slot := Slot(r, c, i);
  }

  lemma SlotIsOwned(sch: Schema, rows: Rows, s: set<Ref>, slot: Slot, t: Ref)
    requires slot.owner in s && Owns(sch, rows, slot, t) && t in rows
    ensures t in Owned(sch, rows, s)
  {
    assert t in Targets(rows[slot.owner][slot.col]);
    assert LinksTo(rows[slot.owner], t);
  }

  /** The rows that disappear with those of `s`: everything they own, at any depth. */
  function Cascade(sch: Schema, rows: Rows, s: set<Ref>): (v: set<Ref>)
    requires s <= rows.Keys
    ensures s <= v <= rows.Keys && Owned(sch, rows, v) <= v
    decreases rows.Keys - s
  {
    var more := Owned(sch, rows, s) - s;
    if more == {} then s
    else
      assert rows.Keys - (s + more) < rows.Keys - s by {
        var t :| t in more;
        assert t in rows.Keys - s;
      }
      Cascade(sch, rows, s + more)
  }

  /** A cell's embedded row, which goes away when the link is overwritten. */
  function Victims(sch: Schema, st: Tables, ref: Ref, col: nat): set<Ref>
    requires Live(st, ref, col)
  {
    match st.rows[ref][col]
    case CLink(Some(t)) => if IsEmbedded(sch, t) && t in st.rows then Cascade(sch, st.rows, {t}) else {}
    case _ => {}
  }

  /** `create_and_set_linked_object`: the embedded row linked before goes away with all it owns. */
  function AttachEmbedded(sch: Schema, st: Tables, ref: Ref, col: nat, c: Class): Made {
    var created := Auto(c, st.next);
    if Live(st, ref, col) && c in sch then
      var rows := st.rows - Victims(sch, st, ref, col);
      Made(Tables(rows[created := DefaultRow(sch[c])][ref := st.rows[ref][col := CLink(Some(created))]], st.next + 1), created, true)
    else Made(st, created, false)
  }

  /** `set_null` on a link. */
  function ClearLink(sch: Schema, st: Tables, ref: Ref, col: nat): Out {
    if Live(st, ref, col) then
      var rows := st.rows - Victims(sch, st, ref, col);
      Out(st.(rows := rows[ref := st.rows[ref][col := CLink(None)]]), true)
    else Out(st, false)
  }

  /** `create_and_insert_linked_object(i)`: out of range behind the end of the list. */
  function InsertEmbedded(sch: Schema, st: Tables, ref: Ref, col: nat, i: nat, c: Class): Made {
    var created := Auto(c, st.next);
    if Live(st, ref, col) && c in sch && st.rows[ref][col].CLinks? && i <= |st.rows[ref][col].links| then
      var ts := st.rows[ref][col].links;
      Made(Tables(st.rows[created := DefaultRow(sch[c])][ref := st.rows[ref][col := CLinks(ts[..i] + [created] + ts[i..])]],
                  st.next + 1), created, true)
    else Made(st, created, false)
  }

  // ----- well-formed tables

  predicate CellFits(k: Kind, c: Cell) {
    match k
    case KScalar(_) => c.CPrim?
    case KLink(t) => c.CLink? && (c.link.Some? ==> c.link.value.cls == t)
    case KLinks(t) => c.CLinks? && forall i :: 0 <= i < |c.links| ==> c.links[i].cls == t
    case KList(_, _) => c.CList?
    case KSet(_) => c.CSet?
    case KMap(_) => c.CMap?
    case KBacklinks => c.CNone?
  }

  /** A row has its class's columns, and a keyed one stores the key it is found by. */
  predicate RowFits(sch: Schema, r: Ref, row: Row) {
    && r.cls in sch
    && (r.Keyed? <==> sch[r.cls].pk.Some?)
    && |row| == |sch[r.cls].props|
    && (forall i :: 0 <= i < |row| ==> CellFits(sch[r.cls].props[i], row[i]))
    && (r.Keyed? ==> sch[r.cls].pk.value < |row| && row[sch[r.cls].pk.value] == CPrim(r.pk))
  }

  ghost predicate RowsFit(sch: Schema, st: Tables) {
    forall r :: r in st.rows ==> RowFits(sch, r, st.rows[r]) && (r.Auto? ==> r.n < st.next)
  }

  ghost predicate LinksLive(rows: Rows) {
    forall s: Slot :: At(rows, s).Some? ==> At(rows, s).value in rows
  }

  predicate Older(r: Ref, e: Ref) {
    e.Auto? && (r.Auto? ==> r.n < e.n)
  }

  ghost predicate Owns(sch: Schema, rows: Rows, s: Slot, e: Ref) {
    At(rows, s) == Some(e) && IsEmbedded(sch, e)
  }

  ghost predicate OneOwner(sch: Schema, rows: Rows) {
    && (forall e :: e in rows && IsEmbedded(sch, e) ==> exists s :: Owns(sch, rows, s, e))
    && (forall s, s', e :: Owns(sch, rows, s, e) && Owns(sch, rows, s', e) ==> s == s')
    && (forall s, e :: Owns(sch, rows, s, e) ==> Older(s.owner, e))
  }

  /** Primary keys identify rows, links name live rows of their target class, and every embedded
      row is linked to from exactly one place, in a row older than itself. */
  ghost predicate WellFormed(sch: Schema, st: Tables) {
    RowsFit(sch, st) && LinksLive(st.rows) && OneOwner(sch, st.rows)
  }

  /** The rows are of one class and store the same primary key. */
  predicate SamePrimaryKey(sch: Schema, st: Tables, r: Ref, r': Ref)
    requires r in st.rows && r' in st.rows
  {
    && r.cls == r'.cls && r.cls in sch && sch[r.cls].pk.Some?
    && sch[r.cls].pk.value < |st.rows[r]| && sch[r.cls].pk.value < |st.rows[r']|
    && st.rows[r][sch[r.cls].pk.value] == st.rows[r'][sch[r.cls].pk.value]
  }

  ghost predicate UniqueKeys(sch: Schema, st: Tables) {
    forall r, r' :: r in st.rows && r' in st.rows && SamePrimaryKey(sch, st, r, r') ==> r == r'
  }

  lemma KeysUnique(sch: Schema, st: Tables)
    requires ValidSchema(sch) && WellFormed(sch, st)
    ensures UniqueKeys(sch, st)
  {
    forall r, r' | r in st.rows && r' in st.rows && SamePrimaryKey(sch, st, r, r') ensures r == r' {
      assert RowFits(sch, r, st.rows[r]) && RowFits(sch, r', st.rows[r']);
    }
  }

  // ----- cascades stay inside what is owned

  /** With an embedded row, `u` holds the row that owns it. */
  ghost predicate OwnerClosed(sch: Schema, rows: Rows, u: set<Ref>) {
    forall s, e :: Owns(sch, rows, s, e) && e in u ==> s.owner in u
  }

  lemma {:induction false} CascadeAvoids(sch: Schema, rows: Rows, s: set<Ref>, u: set<Ref>)
    requires s <= rows.Keys && s !! u && OwnerClosed(sch, rows, u)
    ensures Cascade(sch, rows, s) !! u
    decreases rows.Keys - s
  {
    var more := Owned(sch, rows, s) - s;
    if more != {} {
      forall t | t in more ensures t !in u {
        var slot := OwnedHasSlot(sch, rows, s, t);
      }
      assert rows.Keys - (s + more) < rows.Keys - s by {
        var t :| t in more;
        assert t in rows.Keys - s;
      }
      CascadeAvoids(sch, rows, s + more, u);
    }
  }

  lemma {:induction false} CascadeOwned(sch: Schema, rows: Rows, s: set<Ref>, t: Ref)
    requires s <= rows.Keys && t in Cascade(sch, rows, s) && t !in s
    ensures exists slot :: Owns(sch, rows, slot, t) && slot.owner in Cascade(sch, rows, s)
    decreases rows.Keys - s
  {
    var more := Owned(sch, rows, s) - s;
    if more != {} {
      assert rows.Keys - (s + more) < rows.Keys - s by {
        var t :| t in more;
        assert t in rows.Keys - s;
      }
      if t in more {
        var slot := OwnedHasSlot(sch, rows, s, t);
      } else {
        CascadeOwned(sch, rows, s + more, t);
      }
    }
  }
}
