/** Opening a database, writing to it, and client resets. */
module DbSession {
  import opened Wrappers
  import opened VectorIndexes

  datatype Mode = Automatic | Immutable | ReadOnly

  /** The registered types, and one reconciler per type. */
  class Registry {
    var schemas: seq<TypeDecl>
    var reconcilers: seq<TypeDecl>

    constructor ()
      ensures schemas == [] && reconcilers == []
    {
      schemas := [];
      reconcilers := [];
    }

    /** Runs once per declared type and translation unit; schemas are compared by name. */
    method Register(d: TypeDecl)
      modifies this
      ensures schemas == Registered(old(schemas), d)
      ensures old(reconcilers) == old(schemas) ==> reconcilers == schemas
    {
      var i := 0;
      while i < |schemas| && schemas[i].name != d.name
        invariant 0 <= i <= |schemas|
        invariant forall j :: 0 <= j < i ==> schemas[j].name != d.name
      {
        i := i + 1;
      }
      if i == |schemas| {
        schemas := schemas + [d];
        reconcilers := reconcilers + [d];
      }
    }

    /** All registrations of a program, in any order. */
    method RegisterAll(ds: seq<TypeDecl>)
      requires schemas == [] && reconcilers == []
      modifies this
      ensures schemas == reconcilers == FirstOccurrences(ds)
    {
      for i := 0 to |ds|
        invariant schemas == reconcilers == FirstOccurrences(ds[..i])
      {
        Register(ds[i]);
        assert ds[..i + 1][..i] == ds[..i];
      }
      assert ds[..|ds|] == ds;
    }
  }

  predicate HasName(ds: seq<TypeDecl>, n: Name) {
    exists i :: 0 <= i < |ds| && ds[i].name == n
  }

  function Registered(ds: seq<TypeDecl>, d: TypeDecl): seq<TypeDecl> {
    if HasName(ds, d.name) then ds else ds + [d]
  }

  function FirstOccurrences(ds: seq<TypeDecl>): seq<TypeDecl> {
    if ds == [] then [] else Registered(FirstOccurrences(ds[..|ds| - 1]), ds[|ds| - 1])
  }

  /** `r` is declared at `i`, and its name no earlier. */
  predicate FirstAt(ds: seq<TypeDecl>, i: int, r: TypeDecl) {
    0 <= i < |ds| && ds[i] == r && !HasName(ds[..i], r.name)
  }

  /** The registered types stand in the order of the declarations they come from. */
  ghost predicate InOrder(ds: seq<TypeDecl>, rs: seq<TypeDecl>) {
    forall i, j, a, b :: 0 <= i < j < |rs| && FirstAt(ds, a, rs[i]) && FirstAt(ds, b, rs[j]) ==> a < b
  }

  lemma {:induction false} FirstOccurrencesOrder(ds: seq<TypeDecl>)
    ensures InOrder(ds, FirstOccurrences(ds))
  {
    if ds != [] {
      var init, d := ds[..|ds| - 1], ds[|ds| - 1];
      FirstOccurrencesOrder(init);
      FirstOccurrencesFacts(init);
      var rs, rs' := FirstOccurrences(init), FirstOccurrences(ds);
      assert init + [d] == ds;
      forall i, j, a, b | 0 <= i < j < |rs'| && FirstAt(ds, a, rs'[i]) && FirstAt(ds, b, rs'[j]) ensures a < b {
        assert rs'[i] == rs[i] && rs[i] in rs && FirstDeclared(init, rs[i]);
        var a' :| 0 <= a' < |init| && FirstAt(init, a', rs[i]);
        FirstOnce(ds, a, a', rs[i]);
        if j < |rs| {
          assert rs[j] in rs && FirstDeclared(init, rs[j]);
          var b' :| 0 <= b' < |init| && FirstAt(init, b', rs[j]);
          FirstOnce(ds, b, b', rs[j]);
        }
      }
    }
  }

  lemma FirstOnce(ds: seq<TypeDecl>, a: int, a': int, r: TypeDecl)
    requires FirstAt(ds, a, r) && ds != [] && FirstAt(ds[..|ds| - 1], a', r)
    ensures a == a'
  {
    assert ds[..|ds| - 1][..a'] == ds[..a'] && ds[..|ds| - 1][a'] == ds[a'];
  }

  /** `r` is declared, and no earlier declaration has its name. */
  predicate FirstDeclared(ds: seq<TypeDecl>, r: TypeDecl) {
    exists i :: 0 <= i < |ds| && FirstAt(ds, i, r)
  }

  /** Every declared name is registered, once, by the first declaration that has it, in the order of
      these. */
  lemma {:induction false} FirstOccurrencesFacts(ds: seq<TypeDecl>)
    ensures var rs := FirstOccurrences(ds);
            && (forall n :: HasName(ds, n) <==> HasName(rs, n))
            && (forall i, j :: 0 <= i < j < |rs| ==> rs[i].name != rs[j].name)
            && (forall r :: r in rs <==> FirstDeclared(ds, r))
  {
    if ds != [] {
      var init, d := ds[..|ds| - 1], ds[|ds| - 1];
      FirstOccurrencesFacts(init);
      var rs, rs' := FirstOccurrences(init), FirstOccurrences(ds);
      assert init + [d] == ds;
      assert HasName(init, d.name) <==> HasName(rs, d.name);
      forall n ensures HasName(ds, n) <==> HasName(rs', n) {
        SnocName(init, d, n);
        SnocName(rs, d, n);
        assert HasName(init, n) <==> HasName(rs, n);
      }
      forall r ensures r in rs' <==> FirstDeclared(ds, r) {
        SnocFirst(init, d, r);
        assert r in rs <==> FirstDeclared(init, r);
      }
    }
  }

  lemma SnocFirst(ds: seq<TypeDecl>, d: TypeDecl, r: TypeDecl)
    ensures FirstDeclared(ds + [d], r) <==> FirstDeclared(ds, r) || (r == d && !HasName(ds, d.name))
  {
    var all := ds + [d];
    assert all[..|ds|] == ds;
    if FirstDeclared(ds, r) {
      var i :| 0 <= i < |ds| && FirstAt(ds, i, r);
      assert all[..i] == ds[..i];
      assert FirstAt(all, i, r);
    }
    if r == d && !HasName(ds, d.name) { assert FirstAt(all, |ds|, r); }
    if FirstDeclared(all, r) {
      var i :| 0 <= i < |all| && FirstAt(all, i, r);
      if i < |ds| {
        assert all[..i] == ds[..i];
        assert FirstAt(ds, i, r);
      }
    }
  }

  lemma SnocName(ds: seq<TypeDecl>, d: TypeDecl, n: Name)
    ensures HasName(ds + [d], n) <==> HasName(ds, n) || n == d.name
  {
    if HasName(ds, n) {
      var i :| 0 <= i < |ds| && ds[i].name == n;
      assert (ds + [d])[i].name == n;
    }
    if n == d.name { assert (ds + [d])[|ds|].name == n; }
  }

  // ----- what a write block leaves

  predicate Sets(s: Stmt, n: Name) {
    s.SetRows? && s.name == n
  }

  /** The rows of table `n` are those of the last statement that sets them, or the old ones. */
  ghost predicate LastWritten(body: seq<Stmt>, n: Name, before: map<int, map<Col, int>>, rows: map<int, map<Col, int>>) {
    && ((forall i :: 0 <= i < |body| ==> !Sets(body[i], n)) ==> rows == before)
    && forall i :: 0 <= i < |body| && Sets(body[i], n) && (forall j :: i < j < |body| ==> !Sets(body[j], n)) ==> rows == body[i].rows
  }

  lemma {:induction false} ExecFacts(f: File, body: seq<Stmt>)
    ensures Throw in body ==> Exec(f, body) == None
    ensures Exec(f, body).Some? ==>
              forall n :: n in f ==> n in Exec(f, body).value && LastWritten(body, n, f[n].rows, Exec(f, body).value[n].rows)
    decreases |body|
  {
    if body != [] {
      var r, tail := Exec1(f, body[0]), body[1..];
      assert body == [body[0]] + tail;
      if r.Some? {
        ExecFacts(r.value, tail);
        if Exec(f, body).Some? {
          var f' := Exec(f, body).value;
          forall n | n in f ensures n in f' && LastWritten(body, n, f[n].rows, f'[n].rows) {
            LastWrittenCons(body, n, f[n].rows, r.value[n].rows, f'[n].rows);
          }
        }
      }
    }
  }

  lemma LastWrittenCons(body: seq<Stmt>, n: Name, before: map<int, map<Col, int>>, mid: map<int, map<Col, int>>, rows: map<int, map<Col, int>>)
    requires body != [] && mid == (if Sets(body[0], n) then body[0].rows else before) && LastWritten(body[1..], n, mid, rows)
    ensures LastWritten(body, n, before, rows)
  {
    var tail := body[1..];
    assert forall i :: 0 <= i < |tail| ==> tail[i] == body[i + 1];
    if forall i :: 0 <= i < |body| ==> !Sets(body[i], n) { assert forall i :: 0 <= i < |tail| ==> !Sets(tail[i], n); }
    forall i | 0 <= i < |body| && Sets(body[i], n) && (forall j :: i < j < |body| ==> !Sets(body[j], n)) ensures rows == body[i].rows {
      if i == 0 {
        assert forall k :: 0 <= k < |tail| ==> !Sets(tail[k], n);
      } else {
        assert Sets(tail[i - 1], n) && forall k :: i - 1 < k < |tail| ==> !Sets(tail[k], n);
      }
    }
  }

  // ----- one open database

  class Session {
    var file: File
    var saved: File          // what cancelling a transaction goes back to
    var writing: bool
    var writes: nat          // transactions opened so far
    const frozen: bool

    /** Wraps a database that is open already; nothing is reconciled. */
    constructor Wrap(f: File, isFrozen: bool)
      ensures file == f && frozen == isFrozen && !writing && writes == 0
    {
      file, saved, writing, writes, frozen := f, f, false, 0, isFrozen;
    }

    method BeginWrite()
      requires !writing
      modifies this
      ensures writing && file == old(file) && saved == old(file) && writes == old(writes) + 1
    {
      saved, writing, writes := file, true, writes + 1;
    }

    /** `commits`: whether core's commit goes through; if it throws, the transaction stays open. */
    method CommitWrite(commits: bool) returns (ok: bool)
      requires writing
      modifies this
      ensures ok == commits && writing == !commits && file == old(file) && saved == old(saved) && writes == old(writes)
    {
      ok := commits;
      writing := !commits;
    }

    method CancelWrite()
      requires writing
      modifies this
      ensures !writing && file == old(saved) && writes == old(writes)
    {
      file, writing := saved, false;
    }

    /** `write(fn)`: if the body or the commit throws, the transaction is rolled back before the
        exception goes on. */
    method Write(body: seq<Stmt>, commits: bool) returns (ok: bool)
      requires !writing
      modifies this
      ensures !writing && writes == old(writes) + 1
      ensures match Exec(old(file), body)
              case Some(f) => ok == commits && file == (if commits then f else old(file))
              case None => !ok && file == old(file)
      ensures commits ==> file == Written(old(file), body)
      ensures Throw in body || !commits ==> !ok
      ensures !ok ==> file == old(file)
      ensures ok ==> forall n :: n in old(file) ==> n in file && LastWritten(body, n, old(file)[n].rows, file[n].rows)
    {
      ExecFacts(file, body);
      BeginWrite();
      for i := 0 to |body|
        invariant writing && saved == old(file) && writes == old(writes) + 1
        invariant Exec(file, body[i..]) == Exec(old(file), body)
      {
        var f := Exec1(file, body[i]);
        assert body[i..][1..] == body[i + 1..];
        if f.None? {
          CancelWrite();
          return false;
        }
        file := f.value;
      }
      ok := CommitWrite(commits);
      if !ok { CancelWrite(); }
    }

    /** `collect_missing_vector_index` over the properties of a type. */
    method CollectMissing(t: Table, props: seq<Prop>) returns (out: Option<seq<(Col, Config)>>)
      ensures out == Missing(t, props)
    {
      var entries := [];
      for i := 0 to |props|
        invariant Missing(t, props[..i]) == Some(entries)
      {
        var p := props[i];
        assert props[..i + 1][..i] == props[..i];
        if p.Indexed? {
          if p.col in t.indexes {
            if !SameIdentity(t.indexes[p.col], p.cfg) {
              MissingPrefix(t, props, i + 1);
              return None;
            }
            if t.indexes[p.col].efSearch != p.cfg.efSearch {
              entries := entries + [(p.col, p.cfg)];
            }
          } else {
            entries := entries + [(p.col, p.cfg)];
          }
        }
      }
      assert props[..|props|] == props;
      out := Some(entries);
    }

    /** `reconcile_vector_indexes_for`. */
    method ReconcileOne(d: TypeDecl) returns (ok: bool)
      requires !writing
      modifies this
      ensures !writing && writes >= old(writes)
      ensures Result(file, ok, writes - old(writes)) == ReconcileType(old(file), d)
    {
      if d.name !in file {
        return true;
      }
      var toCreate := CollectMissing(file[d.name], d.props);
      if toCreate.None? {
        return false;
      }
      if toCreate.value == [] {
        return true;
      }
      ok := Write(Statements(d.name, toCreate.value), true);
    }

    /** `reconcile_vector_indexes`; an exception stops it. */
    method Reconcile(types: seq<TypeDecl>) returns (ok: bool)
      requires !writing
      modifies this
      ensures !writing && writes >= old(writes)
      ensures Result(file, ok, writes - old(writes)) == if frozen then Result(old(file), true, 0) else ReconcileAll(old(file), types)
    {
      if frozen {
        return true;
      }
      for i := 0 to |types|
        invariant !writing && writes >= old(writes)
        invariant ReconcileAll(old(file), types) ==
                  (var r := ReconcileAll(file, types[i..]); r.(writes := r.writes + (writes - old(writes))))
      {
        assert types[i..][1..] == types[i + 1..];
        ok := ReconcileOne(types[i]);
        if !ok { return; }
      }
      ok := true;
    }
  }

  lemma {:induction false} MissingPrefix(t: Table, props: seq<Prop>, n: nat)
    requires n <= |props| && Missing(t, props[..n]).None?
    ensures Missing(t, props).None?
    decreases |props| - n
  {
    if n < |props| {
      assert props[..n + 1][..n] == props[..n];
      MissingPrefix(t, props, n + 1);
    } else {
      assert props[..n] == props;
    }
  }

  predicate Writable(mode: Mode, frozen: bool) {
    mode != Immutable && mode != ReadOnly && !frozen
  }

  /** The constructor of `db`: nothing is written if it is opened immutable, read-only or frozen;
      otherwise it opens exactly if nothing conflicts, and then all is in force. */
  method Open(f: File, mode: Mode, frozen: bool, types: seq<TypeDecl>) returns (s: Session, ok: bool)
    ensures fresh(s) && s.frozen == frozen && !s.writing
    ensures Result(s.file, ok, s.writes) == if Writable(mode, frozen) then ReconcileAll(f, types) else Result(f, true, 0)
    ensures mode == Immutable || mode == ReadOnly || frozen ==> ok && s.file == f && s.writes == 0
    ensures mode == Automatic && !frozen && ValidTypes(types) ==>
              (ok <==> NoConflicts(f, types)) && (ok ==> EverythingInForce(s.file, types))
  {
    if ValidTypes(types) { ReconcileAllFacts(f, types); }
    s := new Session.Wrap(f, frozen);
    ok := true;
    if Writable(mode, s.frozen) {
      ok := s.Reconcile(types);
    }
  }

  /** The callback run after a client reset: the remote database is reconciled and then handed over;
      if that throws, it is not handed over. */
  method AfterClientReset(remote: File, types: seq<TypeDecl>) returns (handed: Option<Session>)
    requires ValidTypes(types)
    ensures handed.None? <==> !NoConflicts(remote, types)
    ensures handed.Some? ==> fresh(handed.value) && !handed.value.writing && FileTuned(remote, handed.value.file)
    ensures handed.Some? ==> EverythingInForce(handed.value.file, types) && handed.value.file == ReconcileAll(remote, types).file
  {
    var s := new Session.Wrap(remote, false);
    var ok := s.Reconcile(types);
    ReconcileAllFacts(remote, types);
    handed := if ok then Some(s) else None;
  }

  // ----- runs

  /** What happens to one database file over time; a client reset replaces it by the remote one. */
  datatype Step = Opened(mode: Mode, frozen: bool) | Wrote(body: seq<Stmt>) | Reset(remote: File)

  predicate OnlyRows(body: seq<Stmt>) {
    forall i :: 0 <= i < |body| ==> !body[i].AddIndex?
  }

  /** The program writes rows only; indexes are left to reconciliation. */
  predicate RowRun(steps: seq<Step>) {
    forall i :: 0 <= i < |steps| && steps[i].Wrote? ==> OnlyRows(steps[i].body)
  }

  function Written(f: File, body: seq<Stmt>): File {
    if Exec(f, body).Some? then Exec(f, body).value else f
  }

  function AfterStep(f: File, types: seq<TypeDecl>, step: Step): File {
    match step
    case Opened(mode, frozen) => if Writable(mode, frozen) then ReconcileAll(f, types).file else f
    case Wrote(body) => Written(f, body)
    case Reset(remote) => ReconcileAll(remote, types).file
  }

  function After(f: File, types: seq<TypeDecl>, steps: seq<Step>): File {
    if steps == [] then f
    else AfterStep(After(f, types, steps[..|steps| - 1]), types, steps[|steps| - 1])
  }

  /** An open that may not write. */
  predicate Idle(step: Step) {
    step.Opened? && (step.mode == Immutable || step.mode == ReadOnly || step.frozen)
  }

  function WithoutIdle(steps: seq<Step>): seq<Step> {
    if steps == [] then []
    else
      var last := steps[|steps| - 1];
      WithoutIdle(steps[..|steps| - 1]) + if Idle(last) then [] else [last]
  }

  /** Immutable, read-only and frozen opens leave no trace in a run. */
  lemma {:induction false} IdleOpensDoNothing(f: File, types: seq<TypeDecl>, steps: seq<Step>)
    ensures After(f, types, steps) == After(f, types, WithoutIdle(steps))
    ensures forall s :: s in WithoutIdle(steps) <==> s in steps && !Idle(s)
    decreases |steps|
  {
    if steps != [] {
      assert steps == steps[..|steps| - 1] + [steps[|steps| - 1]];
      var init, last := steps[..|steps| - 1], steps[|steps| - 1];
      IdleOpensDoNothing(f, types, init);
      var rest := WithoutIdle(init) + [last];
      assert rest[..|rest| - 1] == WithoutIdle(init);
      assert WithoutIdle(init) + [] == WithoutIdle(init);
    }
  }

  /** The file as the last reset brought it, or the first one. */
  function Base(f: File, steps: seq<Step>): File {
    if steps == [] then f
    else if steps[|steps| - 1].Reset? then steps[|steps| - 1].remote
    else Base(f, steps[..|steps| - 1])
  }

  /** The same run if nothing was ever reconciled. */
  function Unreconciled(f: File, steps: seq<Step>): File {
    if steps == [] then f
    else
      var f0 := Unreconciled(f, steps[..|steps| - 1]);
      match steps[|steps| - 1]
      case Opened(_, _) => f0
      case Wrote(body) => Written(f0, body)
      case Reset(remote) => remote
  }

  /** Existing indexes keep everything but `efSearch`. */
  predicate IdentityKept(f: File, f': File) {
    f.Keys == f'.Keys && forall n :: n in f ==> TableIdentityKept(f[n], f'[n])
  }

  predicate TableIdentityKept(t: Table, t': Table) {
    forall c :: c in t.indexes ==> c in t'.indexes && t'.indexes[c] == t.indexes[c].(efSearch := t'.indexes[c].efSearch)
  }

  lemma IdentityKeptOn(f: File, f1: File, f2: File)
    requires IdentityKept(f, f1) && IdentityKept(f1, f2)
    ensures IdentityKept(f, f2)
  {
    forall n | n in f ensures TableIdentityKept(f[n], f2[n]) {
      assert TableIdentityKept(f[n], f1[n]) && TableIdentityKept(f1[n], f2[n]);
    }
  }

  lemma {:induction false} RowWritesKeepIndexes(f: File, body: seq<Stmt>)
    requires OnlyRows(body) && Exec(f, body).Some?
    ensures IdentityKept(f, Exec(f, body).value)
    decreases |body|
  {
    if body != [] {
      var f1 := Exec1(f, body[0]).value;
      assert OnlyRows(body[1..]);
      RowWritesKeepIndexes(f1, body[1..]);
      IdentityKeptOn(f, f1, Exec(f1, body[1..]).value);
    }
  }

  predicate SameRows(f: File, f': File) {
    f.Keys == f'.Keys && forall n :: n in f ==> f'[n].rows == f[n].rows
  }

  lemma {:induction false} RowWritesAgree(f: File, f': File, body: seq<Stmt>)
    requires OnlyRows(body) && SameRows(f, f')
    ensures SameRows(Written(f, body), Written(f', body)) && (Exec(f, body).Some? <==> Exec(f', body).Some?)
    decreases |body|
  {
    if body != [] {
      var r, r' := Exec1(f, body[0]), Exec1(f', body[0]);
      assert OnlyRows(body[1..]);
      if r.Some? { RowWritesAgree(r.value, r'.value, body[1..]); }
    }
  }

  /** Over any run of opens of every kind, writes of rows and client resets: since the last reset an
      index once built keeps its identity and `buildThreads`. */
  lemma {:induction false} RunsKeepIdentity(f: File, types: seq<TypeDecl>, steps: seq<Step>)
    requires ValidTypes(types) && RowRun(steps)
    ensures IdentityKept(Base(f, steps), After(f, types, steps))
    decreases |steps|
  {
    if steps != [] {
      var init, last := steps[..|steps| - 1], steps[|steps| - 1];
      RunsKeepIdentity(f, types, init);
      StepKeepsIdentity(After(f, types, init), types, last);
      if !last.Reset? { IdentityKeptOn(Base(f, steps), After(f, types, init), After(f, types, steps)); }
    }
  }

  lemma StepKeepsIdentity(f: File, types: seq<TypeDecl>, step: Step)
    requires ValidTypes(types) && (step.Wrote? ==> OnlyRows(step.body))
    ensures IdentityKept(if step.Reset? then step.remote else f, AfterStep(f, types, step))
  {
    ReconcileAllFacts(if step.Reset? then step.remote else f, types);
    if step.Wrote? && Exec(f, step.body).Some? { RowWritesKeepIndexes(f, step.body); }
  }

  /** Reconciling, on opens or after resets, never shows in the rows. */
  lemma {:induction false} RunsKeepRows(f: File, types: seq<TypeDecl>, steps: seq<Step>)
    requires ValidTypes(types) && RowRun(steps)
    ensures SameRows(Unreconciled(f, steps), After(f, types, steps))
    decreases |steps|
  {
    if steps != [] {
      var init, last := steps[..|steps| - 1], steps[|steps| - 1];
      RunsKeepRows(f, types, init);
      ReconcileAllFacts(if last.Reset? then last.remote else After(f, types, init), types);
      if last.Wrote? { RowWritesAgree(Unreconciled(f, init), After(f, types, init), last.body); }
    }
  }

  /** Whatever happened before, everything declared is in force after a writable open or a reset whose
      reconciliation goes through, and stays so over further opens and row writes. */
  lemma {:induction false} RunsEndInForce(f: File, types: seq<TypeDecl>, before: seq<Step>, step: Step, later: seq<Step>)
    requires ValidTypes(types)
    requires match step
             case Opened(mode, frozen) => mode == Automatic && !frozen && NoConflicts(After(f, types, before), types)
             case Wrote(_) => false
             case Reset(remote) => NoConflicts(remote, types)
    requires RowRun(later) && forall i :: 0 <= i < |later| ==> !later[i].Reset?
    ensures EverythingInForce(After(f, types, before + [step] + later), types)
    decreases |later|
  {
    var run := before + [step] + later;
    if later == [] {
      assert run[..|run| - 1] == before;
      ReconcileAllFacts(if step.Reset? then step.remote else After(f, types, before), types);
    } else {
      var init := later[..|later| - 1];
      assert run[..|run| - 1] == before + [step] + init;
      RunsEndInForce(f, types, before, step, init);
      var f0 := After(f, types, before + [step] + init);
      ReconcileAllFacts(f0, types);
      if later[|init|].Wrote? { RowWritesKeepForce(f0, later[|init|].body, types); }
    }
  }

  lemma {:induction false} RowWritesKeepForce(f: File, body: seq<Stmt>, types: seq<TypeDecl>)
    requires OnlyRows(body) && EverythingInForce(f, types)
    ensures EverythingInForce(Written(f, body), types)
    decreases |body|
  {
    if body != [] && Exec(f, body).Some? {
      var f1 := Exec1(f, body[0]).value;
      assert OnlyRows(body[1..]);
      forall i | 0 <= i < |types| ensures AllInForce(f1, types[i]) { assert AllInForce(f, types[i]); }
      RowWritesKeepForce(f1, body[1..], types);
    }
  }

  /** So a declared type that conflicts once conflicts on every later writable open, and one that does
      not, and has all its indexes, never will, until a reset. */
  lemma ConflictsStay(f: File, types: seq<TypeDecl>, steps: seq<Step>, d: TypeDecl)
    requires ValidTypes(types) && RowRun(steps)
    ensures AnyConflict(Base(f, steps), d) ==> AnyConflict(After(f, types, steps), d)
    ensures AllInForce(Base(f, steps), d) ==> !AnyConflict(After(f, types, steps), d)
  {
    RunsKeepIdentity(f, types, steps);
    var f0, f' := Base(f, steps), After(f, types, steps);
    if d.name in f0 {
      assert TableIdentityKept(f0[d.name], f'[d.name]);
      forall i | 0 <= i < |d.props|
        ensures Conflicts(f0[d.name], d.props[i]) ==> Conflicts(f'[d.name], d.props[i])
        ensures InForce(f0[d.name], d.props[i]) ==> !Conflicts(f'[d.name], d.props[i])
      {
      }
    }
  }
}
