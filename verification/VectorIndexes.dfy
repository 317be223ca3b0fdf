/** Reconciling the persisted vector indexes with the declared ones. */
module VectorIndexes {
  import opened Wrappers

  type Name = string
  type Col = string

  /** `buildThreads` is passed on but never compared. */
  datatype Config = Config(metric: nat, encoding: nat, dimensions: nat, m: nat, efConstruction: nat,
                           efSearch: nat, buildThreads: nat)

  /** The graph-shaping settings: an index that differs in one of them cannot be adapted. */
  predicate SameIdentity(a: Config, b: Config) {
    a.metric == b.metric && a.encoding == b.encoding && a.dimensions == b.dimensions && a.m == b.m
    && a.efConstruction == b.efConstruction
  }

  datatype Prop = Plain(col: Col) | Indexed(col: Col, cfg: Config)

  datatype TypeDecl = TypeDecl(name: Name, props: seq<Prop>)

  predicate ValidDecl(d: TypeDecl) {
    forall i, j :: 0 <= i < j < |d.props| ==> d.props[i].col != d.props[j].col
  }

  /** A table: its rows, which reconciliation must not touch, and its vector indexes. */
  datatype Table = Table(rows: map<int, map<Col, int>>, indexes: map<Col, Config>)

  type File = map<Name, Table>

  // ----- transactions

  datatype Stmt = SetRows(name: Name, rows: map<int, map<Col, int>>) | AddIndex(name: Name, col: Col, cfg: Config) | Throw

  /** Core's `add_vector_index`: builds a missing index, adopts a new `efSearch`, refuses the rest. */
  function AddVectorIndex(t: Table, col: Col, cfg: Config): Option<Table> {
    if col !in t.indexes then Some(t.(indexes := t.indexes[col := cfg]))
    else if SameIdentity(t.indexes[col], cfg) then Some(t.(indexes := t.indexes[col := t.indexes[col].(efSearch := cfg.efSearch)]))
    else None
  }

  /** It is refused exactly on a difference in identity; otherwise the configuration is in force, and no
      other index, nor the identity of this one, changes. */
  lemma AddVectorIndexFacts(t: Table, col: Col, cfg: Config)
    ensures var r := AddVectorIndex(t, col, cfg);
            && (r.None? <==> Conflicts(t, Indexed(col, cfg)))
            && (r.Some? ==> InForce(r.value, Indexed(col, cfg)) && Tuned(t, r.value))
            && (r.Some? ==> forall c :: c != col ==> SameIndex(t, r.value, c))
  {
  }

  function Exec1(f: File, s: Stmt): Option<File> {
    match s
    case SetRows(n, rows) => if n in f then Some(f[n := f[n].(rows := rows)]) else None
    case AddIndex(n, col, cfg) =>
      if n !in f then None
      else (match AddVectorIndex(f[n], col, cfg) case Some(t) => Some(f[n := t]) case None => None)
    case Throw => None
  }

  /** The statements of a write block; `None` if one throws. */
  function Exec(f: File, body: seq<Stmt>): Option<File> {
    if body == [] then Some(f)
    else match Exec1(f, body[0])
         case Some(f1) => Exec(f1, body[1..])
         case None => None
  }

  // ----- one type

  /** The index entries a declaration asks to write, from the `i`-th property on; `None` if an index
      differs in identity. */
  function Missing(t: Table, props: seq<Prop>): Option<seq<(Col, Config)>> {
    if props == [] then Some([])
    else match Missing(t, props[..|props| - 1])
         case None => None
         case Some(out) =>
           var p := props[|props| - 1];
           if p.Plain? then Some(out)
           else if p.col !in t.indexes then Some(out + [(p.col, p.cfg)])
           else if !SameIdentity(t.indexes[p.col], p.cfg) then None
           else if t.indexes[p.col].efSearch != p.cfg.efSearch then Some(out + [(p.col, p.cfg)])
           else Some(out)
  }

  function Statements(n: Name, entries: seq<(Col, Config)>): seq<Stmt> {
    seq(|entries|, i requires 0 <= i < |entries| => AddIndex(n, entries[i].0, entries[i].1))
  }

  /** File, success, and number of write transactions opened. */
  datatype Result = Result(file: File, ok: bool, writes: nat)

  function ReconcileType(f: File, d: TypeDecl): Result {
    if d.name !in f then Result(f, true, 0)
    else match Missing(f[d.name], d.props)
      case None => Result(f, false, 0)
      case Some(entries) =>
        if entries == [] then Result(f, true, 0)
        else match Exec(f, Statements(d.name, entries))
          case Some(f1) => Result(f1, true, 1)
          case None => Result(f, false, 1)
  }

  function ReconcileAll(f: File, types: seq<TypeDecl>): Result
    decreases |types|
  {
    if types == [] then Result(f, true, 0)
    else
      var r := ReconcileType(f, types[0]);
      if !r.ok then r
      else
        var rest := ReconcileAll(r.file, types[1..]);
        Result(rest.file, rest.ok, r.writes + rest.writes)
  }

  // ----- what a successful reconciliation of one type does

  /** The declared configuration is in force, up to `buildThreads`. */
  predicate InForce(t: Table, p: Prop) {
    p.Indexed? ==> p.col in t.indexes && SameIdentity(t.indexes[p.col], p.cfg) && t.indexes[p.col].efSearch == p.cfg.efSearch
  }

  predicate Conflicts(t: Table, p: Prop) {
    p.Indexed? && p.col in t.indexes && !SameIdentity(t.indexes[p.col], p.cfg)
  }

  /** Same rows; indexes may be added, an existing one changes in `efSearch` only. */
  predicate Tuned(t: Table, t': Table) {
    && t'.rows == t.rows
    && forall c :: c in t.indexes ==> c in t'.indexes && t'.indexes[c] == t.indexes[c].(efSearch := t'.indexes[c].efSearch)
  }

  predicate FileTuned(f: File, f': File) {
    f'.Keys == f.Keys && forall n :: n in f ==> Tuned(f[n], f'[n])
  }

  /** An entry the declarations ask for and the table does not have in force. */
  predicate Wanted(t: Table, props: seq<Prop>, e: (Col, Config)) {
    exists i :: 0 <= i < |props| && props[i] == Indexed(e.0, e.1) && !InForce(t, props[i])
  }

  lemma {:induction false} MissingFacts(t: Table, props: seq<Prop>)
    ensures Missing(t, props).None? <==> exists i :: 0 <= i < |props| && Conflicts(t, props[i])
    ensures Missing(t, props).Some? ==>
              && (Missing(t, props).value == [] <==> forall i :: 0 <= i < |props| ==> InForce(t, props[i]))
              && (forall e :: e in Missing(t, props).value <==> Wanted(t, props, e))
  {
    if props != [] {
      var init, p := props[..|props| - 1], props[|props| - 1];
      MissingFacts(t, init);
      assert forall i :: 0 <= i < |init| ==> init[i] == props[i];
      if Missing(t, props).Some? {
        forall e ensures e in Missing(t, props).value <==> Wanted(t, props, e) {
          WantedSnoc(t, props, e);
        }
      }
    }
  }

  lemma WantedSnoc(t: Table, props: seq<Prop>, e: (Col, Config))
    requires props != []
    ensures var p := props[|props| - 1];
            Wanted(t, props, e) <==> Wanted(t, props[..|props| - 1], e) || (p == Indexed(e.0, e.1) && !InForce(t, p))
  {
    var init := props[..|props| - 1];
    if Wanted(t, init, e) {
      var i :| 0 <= i < |init| && init[i] == Indexed(e.0, e.1) && !InForce(t, init[i]);
      assert props[i] == init[i];
    }
    if Wanted(t, props, e) {
      var i :| 0 <= i < |props| && props[i] == Indexed(e.0, e.1) && !InForce(t, props[i]);
      assert i < |init| ==> init[i] == props[i];
    }
  }

  predicate DistinctCols(entries: seq<(Col, Config)>) {
    forall i, j :: 0 <= i < j < |entries| ==> entries[i].0 != entries[j].0
  }

  lemma {:induction false} MissingDistinct(t: Table, props: seq<Prop>)
    requires Missing(t, props).Some? && forall i, j :: 0 <= i < j < |props| ==> props[i].col != props[j].col
    ensures DistinctCols(Missing(t, props).value)
  {
    if props != [] {
      var init := props[..|props| - 1];
      MissingDistinct(t, init);
      MissingFacts(t, init);
      var out := Missing(t, init).value;
      forall k | 0 <= k < |out| ensures out[k].0 != props[|props| - 1].col {
        assert out[k] in out;
        var i :| 0 <= i < |init| && init[i] == Indexed(out[k].0, out[k].1) && !InForce(t, init[i]);
      }
    }
  }

  function AddAll(t: Table, entries: seq<(Col, Config)>): Option<Table>
    decreases |entries|
  {
    if entries == [] then Some(t)
    else match AddVectorIndex(t, entries[0].0, entries[0].1)
         case Some(t1) => AddAll(t1, entries[1..])
         case None => None
  }

  lemma {:induction false} ExecIsAddAll(f: File, n: Name, entries: seq<(Col, Config)>)
    requires n in f
    ensures Exec(f, Statements(n, entries)) ==
            match AddAll(f[n], entries) case Some(t) => Some(f[n := t]) case None => None
    decreases |entries|
  {
    if entries == [] {
      assert f[n := f[n]] == f;
    } else {
      assert Statements(n, entries)[1..] == Statements(n, entries[1..]);
      match AddVectorIndex(f[n], entries[0].0, entries[0].1)
      case Some(t1) =>
        ExecIsAddAll(f[n := t1], n, entries[1..]);
        var r := AddAll(t1, entries[1..]);
        assert r.Some? ==> f[n := t1][n := r.value] == f[n := r.value];
      case None =>
    }
  }

  /** Writing the entry cannot fail. */
  predicate Fits(t: Table, e: (Col, Config)) {
    e.0 in t.indexes ==> SameIdentity(t.indexes[e.0], e.1)
  }

  predicate SameIndex(t: Table, t': Table, c: Col) {
    (c in t'.indexes <==> c in t.indexes) && (c in t.indexes ==> t'.indexes[c] == t.indexes[c])
  }

  predicate Touches(entries: seq<(Col, Config)>, c: Col) {
    exists i :: 0 <= i < |entries| && entries[i].0 == c
  }

  lemma TouchesHead(entries: seq<(Col, Config)>, c: Col)
    requires entries != []
    ensures Touches(entries, c) <==> entries[0].0 == c || Touches(entries[1..], c)
  {
    if Touches(entries[1..], c) {
      var i :| 0 <= i < |entries[1..]| && entries[1..][i].0 == c;
      assert entries[i + 1].0 == c;
    }
    if Touches(entries, c) {
      var i :| 0 <= i < |entries| && entries[i].0 == c;
      assert i > 0 ==> entries[1..][i - 1] == entries[i];
    }
  }

  /** Writing entries that conflict with nothing puts each in force and only tunes the table. */
  lemma {:induction false} AddAllSucceeds(t: Table, entries: seq<(Col, Config)>)
    requires DistinctCols(entries) && forall i :: 0 <= i < |entries| ==> Fits(t, entries[i])
    ensures var r := AddAll(t, entries);
            && r.Some? && Tuned(t, r.value)
            && (forall i :: 0 <= i < |entries| ==> InForce(r.value, Indexed(entries[i].0, entries[i].1)))
            && (forall c :: !Touches(entries, c) ==> SameIndex(t, r.value, c))
    decreases |entries|
  {
    if entries != [] {
      var e0, tail := entries[0], entries[1..];
      var t1 := AddVectorIndex(t, e0.0, e0.1).value;
      forall i | 0 <= i < |tail| ensures Fits(t1, tail[i]) { assert tail[i] == entries[i + 1]; }
      AddAllSucceeds(t1, tail);
      var t2 := AddAll(t1, tail).value;
      assert Tuned(t, t1);
      assert !Touches(tail, e0.0);
      forall i | 0 <= i < |entries| ensures InForce(t2, Indexed(entries[i].0, entries[i].1)) {
        if i == 0 { assert SameIndex(t1, t2, e0.0); } else { assert entries[i] == tail[i - 1]; }
      }
      forall c | !Touches(entries, c) ensures SameIndex(t, t2, c) {
        TouchesHead(entries, c);
        assert SameIndex(t1, t2, c);
      }
    }
  }

  predicate AllInForce(f: File, d: TypeDecl) {
    d.name in f ==> forall i :: 0 <= i < |d.props| ==> InForce(f[d.name], d.props[i])
  }

  predicate AnyConflict(f: File, d: TypeDecl) {
    d.name in f && exists i :: 0 <= i < |d.props| && Conflicts(f[d.name], d.props[i])
  }

  /** One type: it fails, before opening a transaction, exactly on an identity conflict; otherwise all
      its declarations end up in force, in one transaction if any was not, in none if all were. */
  lemma ReconcileTypeFacts(f: File, d: TypeDecl)
    requires ValidDecl(d)
    ensures var r := ReconcileType(f, d);
            && (r.ok <==> !AnyConflict(f, d))
            && (!r.ok ==> r.file == f && r.writes == 0)
            && (r.ok ==> AllInForce(r.file, d) && r.writes == if AllInForce(f, d) then 0 else 1)
            && (AllInForce(f, d) ==> r.file == f)
            && FileTuned(f, r.file) && SameElsewhere(f, r.file, d.name)
  {
    if d.name in f {
      var t := f[d.name];
      MissingFacts(t, d.props);
      if Missing(t, d.props).Some? {
        var entries := Missing(t, d.props).value;
        if entries != [] {
          WritesEntries(t, d, entries);
          ExecIsAddAll(f, d.name, entries);
        }
      }
    }
  }

  /** Only the named table changes. */
  predicate SameElsewhere(f: File, f': File, n: Name) {
    forall k :: k in f && k != n ==> k in f' && f'[k] == f[k]
  }

  lemma WritesEntries(t: Table, d: TypeDecl, entries: seq<(Col, Config)>)
    requires ValidDecl(d) && Missing(t, d.props) == Some(entries)
    ensures var r := AddAll(t, entries);
            r.Some? && Tuned(t, r.value) && forall i :: 0 <= i < |d.props| ==> InForce(r.value, d.props[i])
  {
    MissingFacts(t, d.props);
    MissingDistinct(t, d.props);
    forall k | 0 <= k < |entries| ensures Fits(t, entries[k]) {
      assert Wanted(t, d.props, entries[k]);
      var i :| 0 <= i < |d.props| && d.props[i] == Indexed(entries[k].0, entries[k].1) && !InForce(t, d.props[i]);
      assert !Conflicts(t, d.props[i]);
    }
    AddAllSucceeds(t, entries);
    forall i | 0 <= i < |d.props| ensures InForce(AddAll(t, entries).value, d.props[i]) {
      EndsInForce(t, AddAll(t, entries).value, d, entries, i);
    }
  }

  lemma EndsInForce(t: Table, t1: Table, d: TypeDecl, entries: seq<(Col, Config)>, i: nat)
    requires ValidDecl(d) && i < |d.props|
    requires forall e :: e in entries <==> Wanted(t, d.props, e)
    requires forall k :: 0 <= k < |entries| ==> InForce(t1, Indexed(entries[k].0, entries[k].1))
    requires forall c :: !Touches(entries, c) ==> SameIndex(t, t1, c)
    ensures InForce(t1, d.props[i])
  {
    var p := d.props[i];
    if p.Indexed? {
      if InForce(t, p) {
        forall k | 0 <= k < |entries| ensures entries[k].0 != p.col {
          assert Wanted(t, d.props, entries[k]);
          var j :| 0 <= j < |d.props| && d.props[j] == Indexed(entries[k].0, entries[k].1) && !InForce(t, d.props[j]);
          assert j != i;
        }
        assert SameIndex(t, t1, p.col);
      } else {
        assert Wanted(t, d.props, (p.col, p.cfg));
        var k :| 0 <= k < |entries| && entries[k] == (p.col, p.cfg);
      }
    }
  }

  // ----- all registered types

  predicate ValidTypes(types: seq<TypeDecl>) {
    && (forall i :: 0 <= i < |types| ==> ValidDecl(types[i]))
    && (forall i, j :: 0 <= i < j < |types| ==> types[i].name != types[j].name)
  }

  lemma TunedOn(f: File, f1: File, f2: File)
    requires FileTuned(f, f1) && FileTuned(f1, f2)
    ensures FileTuned(f, f2)
  {
    forall n | n in f ensures Tuned(f[n], f2[n]) {
      assert Tuned(f[n], f1[n]) && Tuned(f1[n], f2[n]);
    }
  }

  predicate NoConflicts(f: File, types: seq<TypeDecl>) {
    forall i :: 0 <= i < |types| ==> !AnyConflict(f, types[i])
  }

  predicate EverythingInForce(f: File, types: seq<TypeDecl>) {
    forall i :: 0 <= i < |types| ==> AllInForce(f, types[i])
  }

  predicate Declared(types: seq<TypeDecl>, n: Name) {
    exists i :: 0 <= i < |types| && types[i].name == n
  }

  lemma DeclaredHead(types: seq<TypeDecl>, n: Name)
    requires types != []
    ensures Declared(types, n) <==> types[0].name == n || Declared(types[1..], n)
  {
    if Declared(types[1..], n) {
      var i :| 0 <= i < |types[1..]| && types[1..][i].name == n;
      assert types[i + 1].name == n;
    }
    if Declared(types, n) {
      var i :| 0 <= i < |types| && types[i].name == n;
      assert i > 0 ==> types[1..][i - 1] == types[i];
    }
  }

  lemma HeadAndTail(f: File, types: seq<TypeDecl>)
    requires types != []
    ensures NoConflicts(f, types) <==> !AnyConflict(f, types[0]) && NoConflicts(f, types[1..])
    ensures EverythingInForce(f, types) <==> AllInForce(f, types[0]) && EverythingInForce(f, types[1..])
  {
    assert forall i :: 0 < i < |types| ==> types[i] == types[1..][i - 1];
  }

  lemma TailIsValid(types: seq<TypeDecl>)
    requires ValidTypes(types) && types != []
    ensures ValidTypes(types[1..]) && !Declared(types[1..], types[0].name)
  {
  }

  /** A change to one table concerns no declaration of another. */
  lemma OthersAreUnaffected(f: File, f': File, n: Name, types: seq<TypeDecl>)
    requires f'.Keys == f.Keys && SameElsewhere(f, f', n) && !Declared(types, n)
    ensures NoConflicts(f', types) <==> NoConflicts(f, types)
    ensures EverythingInForce(f', types) <==> EverythingInForce(f, types)
  {
    forall i | 0 <= i < |types|
      ensures (AnyConflict(f', types[i]) <==> AnyConflict(f, types[i])) && (AllInForce(f', types[i]) <==> AllInForce(f, types[i]))
    {
      assert types[i].name in f ==> f'[types[i].name] == f[types[i].name];
    }
  }

  /** The types that have something to be written. */
  function Unsettled(f: File, types: seq<TypeDecl>): nat {
    if types == [] then 0 else (if AllInForce(f, types[0]) then 0 else 1) + Unsettled(f, types[1..])
  }

  lemma {:induction false} UnsettledKept(f: File, f': File, n: Name, types: seq<TypeDecl>)
    requires f'.Keys == f.Keys && SameElsewhere(f, f', n) && !Declared(types, n)
    ensures Unsettled(f', types) == Unsettled(f, types)
    decreases |types|
  {
    if types != [] {
      DeclaredHead(types, n);
      assert types[0].name in f ==> f'[types[0].name] == f[types[0].name];
      UnsettledKept(f, f', n, types[1..]);
    }
  }

  /** All types: it succeeds exactly if no present type conflicts, and then everything declared is in
      force, with one transaction for each type that was not; rows, and the identity and `buildThreads` of existing indexes, never change. */
  lemma {:induction false} ReconcileAllFacts(f: File, types: seq<TypeDecl>)
    requires ValidTypes(types)
    ensures var r := ReconcileAll(f, types);
            && (r.ok <==> NoConflicts(f, types))
            && (r.ok ==> EverythingInForce(r.file, types) && r.writes == Unsettled(f, types))
            && (EverythingInForce(f, types) ==> r == Result(f, true, 0))
            && FileTuned(f, r.file)
            && (forall n :: n in f && !Declared(types, n) ==> r.file[n] == f[n])
    decreases |types|
  {
    if types != [] {
      var d, tail := types[0], types[1..];
      var r := ReconcileType(f, d);
      ReconcileTypeFacts(f, d);
      TailIsValid(types);
      HeadAndTail(f, types);
      if r.ok {
        ReconcileAllFacts(r.file, tail);
        var rest := ReconcileAll(r.file, tail);
        OthersAreUnaffected(f, r.file, d.name, tail);
        UnsettledKept(f, r.file, d.name, tail);
        TunedOn(f, r.file, rest.file);
        HeadAndTail(rest.file, types);
        assert d.name in r.file ==> rest.file[d.name] == r.file[d.name];
      }
      forall n | n in f && !Declared(types, n) ensures ReconcileAll(f, types).file[n] == f[n] {
        DeclaredHead(types, n);
      }
    }
  }

  /** After a success, reconciling again opens no write transaction and changes nothing. */
  lemma ReconcileTwice(f: File, types: seq<TypeDecl>)
    requires ValidTypes(types) && ReconcileAll(f, types).ok
    ensures ReconcileAll(ReconcileAll(f, types).file, types) == Result(ReconcileAll(f, types).file, true, 0)
  {
    ReconcileAllFacts(f, types);
    ReconcileAllFacts(ReconcileAll(f, types).file, types);
  }

  /** On a failure, the types before the first conflicting one keep their indexes, that type and all
      later ones are untouched. */
  lemma {:induction false} ReconcileFails(f: File, types: seq<TypeDecl>) returns (k: nat)
    requires ValidTypes(types) && !ReconcileAll(f, types).ok
    ensures k < |types| && AnyConflict(f, types[k]) && NoConflicts(f, types[..k])
    ensures var r := ReconcileAll(f, types);
            var done := ReconcileAll(f, types[..k]);
            && done.ok && r.file == done.file && r.writes == done.writes
            && EverythingInForce(r.file, types[..k])
            && forall i :: k <= i < |types| && types[i].name in f ==> types[i].name in r.file && r.file[types[i].name] == f[types[i].name]
    decreases |types|
  {
    var d, tail := types[0], types[1..];
    var r := ReconcileType(f, d);
    ReconcileTypeFacts(f, d);
    if !r.ok {
      k := 0;
    } else {
      TailIsValid(types);
      var k' := ReconcileFails(r.file, tail);
      k := k' + 1;
      assert types[..k][0] == d && types[..k][1..] == tail[..k'];
      SameConflict(f, r.file, d.name, tail, k');
      ReconcileAllFacts(f, types[..k]);
      LaterUntouched(f, r.file, ReconcileAll(r.file, tail).file, types, k);
    }
  }

  lemma LaterUntouched(f: File, f1: File, f2: File, types: seq<TypeDecl>, k: nat)
    requires ValidTypes(types) && 0 < k <= |types| && SameElsewhere(f, f1, types[0].name)
    requires forall i :: k - 1 <= i < |types[1..]| && types[1..][i].name in f1 ==>
               types[1..][i].name in f2 && f2[types[1..][i].name] == f1[types[1..][i].name]
    ensures forall i :: k <= i < |types| && types[i].name in f ==> types[i].name in f2 && f2[types[i].name] == f[types[i].name]
  {
    forall i | k <= i < |types| && types[i].name in f ensures types[i].name in f2 && f2[types[i].name] == f[types[i].name] {
      assert types[i] == types[1..][i - 1] && types[i].name != types[0].name;
    }
  }

  lemma SameConflict(f: File, f': File, n: Name, types: seq<TypeDecl>, k: nat)
    requires f'.Keys == f.Keys && SameElsewhere(f, f', n) && !Declared(types, n) && k < |types| && AnyConflict(f', types[k])
    ensures AnyConflict(f, types[k])
  {
    assert types[k].name != n;
  }
}
