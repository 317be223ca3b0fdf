/** Notifications and lookup by name. */
module Observation {
  import opened Wrappers

  type Name = string
  type Column = nat

  /** A property of the schema, in declaration order; `collection`: a list, set or dictionary;
      `link`: a pointer to another object. */
  datatype Prop = Prop(name: Name, column: Column, collection: bool, link: bool)

  ghost predicate ValidSchema(props: seq<Prop>) {
    forall i, j :: 0 <= i < j < |props| ==> props[i].name != props[j].name && props[i].column != props[j].column
  }

  /** A property value in a notification; `Nothing` is the variant's empty alternative. A pointer
      property is not detached: the variant holds an accessor of the `k`-th property, which reads the
      stored link whenever it is asked. */
  datatype Variant<V> = Nothing | Of(v: V) | Live(k: nat)

  /** What the user's block finds in a variant while the object's values are `now`. */
  function SeenAt<V>(x: Variant<V>, now: seq<V>): Variant<V> {
    match x
    case Live(k) => if k < |now| then Of(now[k]) else Nothing
    case _ => x
  }

  /** `property_value_for_name`, from the `i`-th property on; `values` are the object's. */
  function ValueForName<V>(props: seq<Prop>, values: seq<V>, i: nat, name: Name, excludingCollections: bool): Variant<V>
    requires |values| == |props| && i < |props|
    decreases |props| - i
  {
    if excludingCollections && props[i].collection then Nothing
    else if name == props[i].name then Stored(props, values, i)
    else if i + 1 == |props| then Nothing
    else ValueForName(props, values, i + 1, name, excludingCollections)
  }

  function Stored<V>(props: seq<Prop>, values: seq<V>, k: nat): Variant<V>
    requires |values| == |props| && k < |props|
  {
    if props[k].link then Live(k) else Of(values[k])
  }

  /** The lookup finds the value of the named property exactly if no collection is declared before
      it, nor is it one itself; any other lookup yields nothing. */
  lemma {:induction false} ValueForNameFinds<V>(props: seq<Prop>, values: seq<V>, i: nat, k: nat)
    requires ValidSchema(props) && |values| == |props| && i <= k < |props|
    ensures ValueForName(props, values, i, props[k].name, true) ==
            if forall j :: i <= j <= k ==> !props[j].collection then Stored(props, values, k) else Nothing
    ensures ValueForName(props, values, i, props[k].name, false) == Stored(props, values, k)
    decreases k - i
  {
    if i < k { ValueForNameFinds(props, values, i + 1, k); }
  }

  lemma {:induction false} ValueForUnknownName<V>(props: seq<Prop>, values: seq<V>, i: nat, name: Name, excluding: bool)
    requires |values| == |props| && i < |props| && forall j :: i <= j < |props| ==> props[j].name != name
    ensures ValueForName(props, values, i, name, excluding) == Nothing
    decreases |props| - i
  {
    if i + 1 < |props| { ValueForUnknownName(props, values, i + 1, name, excluding); }
  }

  /** What core reports: deleted, inserted and modified indices, and the changed columns. */
  datatype ChangeSet = ChangeSet(deletions: set<nat>, insertions: set<nat>, modifications: set<nat>, columns: set<Column>)

  predicate Empty(c: ChangeSet) {
    c.deletions == {} && c.insertions == {} && c.modifications == {}
  }

  datatype PropertyChange<V> = PropertyChange(name: Name, oldValue: Option<Variant<V>>, newValue: Option<Variant<V>>)

  datatype Delivery<V> = Deleted | Failed | Changed(changes: seq<PropertyChange<V>>)

  /** The names of the changed columns, in schema order. */
  function ChangedNames(props: seq<Prop>, columns: set<Column>): seq<Name> {
    if props == [] then []
    else ChangedNames(props[..|props| - 1], columns) +
         (if props[|props| - 1].column in columns then [props[|props| - 1].name] else [])
  }

  function ValuesFor<V>(props: seq<Prop>, values: seq<V>, names: seq<Name>): (vs: seq<Variant<V>>)
    requires |values| == |props| > 0
    ensures |vs| == |names|
  {
    seq(|names|, i requires 0 <= i < |names| => ValueForName(props, values, 0, names[i], true))
  }

  predicate ChangedAt(props: seq<Prop>, columns: set<Column>, i: nat, n: Name)
    requires i < |props|
  {
    props[i].name == n && props[i].column in columns
  }

  predicate IsChanged(props: seq<Prop>, columns: set<Column>, n: Name) {
    exists i :: 0 <= i < |props| && ChangedAt(props, columns, i, n)
  }

  predicate NamedAt(props: seq<Prop>, n: Name, a: int) {
    0 <= a < |props| && props[a].name == n
  }

  /** Names stand in the order of their declarations. */
  ghost predicate InSchemaOrder(props: seq<Prop>, names: seq<Name>) {
    forall i, j, a, b :: 0 <= i < j < |names| && NamedAt(props, names[i], a) && NamedAt(props, names[j], b) ==> a < b
  }

  /** Exactly the properties whose columns changed are named, each once, in schema order. */
  lemma {:induction false} ChangedNamesFacts(props: seq<Prop>, columns: set<Column>)
    requires ValidSchema(props)
    ensures forall n :: n in ChangedNames(props, columns) <==> IsChanged(props, columns, n)
    ensures forall i, j :: 0 <= i < j < |ChangedNames(props, columns)| ==>
              ChangedNames(props, columns)[i] != ChangedNames(props, columns)[j]
    ensures InSchemaOrder(props, ChangedNames(props, columns))
  {
    if props != [] {
      var init, p := props[..|props| - 1], props[|props| - 1];
      ChangedNamesFacts(init, columns);
      var ns, ns0 := ChangedNames(props, columns), ChangedNames(init, columns);
      forall n ensures n in ns <==> IsChanged(props, columns, n) {
        ChangedSnoc(props, columns, n);
        assert n in ns <==> n in ns0 || (p.column in columns && n == p.name);
      }
      if p.column in columns {
        assert !IsChanged(init, columns, p.name);
        assert p.name !in ns0;
      }
      forall i, j, a, b | 0 <= i < j < |ns| && NamedAt(props, ns[i], a) && NamedAt(props, ns[j], b) ensures a < b {
        assert ns[i] == ns0[i] && IsChanged(init, columns, ns0[i]);
        assert NamedAt(init, ns0[i], a);
        if b < |init| { assert NamedAt(init, ns0[j], b); }
      }
    }
  }

  lemma ChangedSnoc(props: seq<Prop>, columns: set<Column>, n: Name)
    requires props != []
    ensures IsChanged(props, columns, n) <==>
            IsChanged(props[..|props| - 1], columns, n) || ChangedAt(props, columns, |props| - 1, n)
  {
    var init := props[..|props| - 1];
    if IsChanged(init, columns, n) {
      var i :| 0 <= i < |init| && ChangedAt(init, columns, i, n);
      assert ChangedAt(props, columns, i, n);
    }
    if IsChanged(props, columns, n) {
      var i :| 0 <= i < |props| && ChangedAt(props, columns, i, n);
      if i < |init| { assert ChangedAt(init, columns, i, n); }
    }
  }

  class Observer<V(0)> {
    const props: seq<Prop>
    var propertyNames: Option<seq<Name>>
    var oldValues: Option<seq<Variant<V>>>
    var deleted: bool
    var delivered: seq<Delivery<V>>   // the calls of the user's block

    /** Kept by every call in any order: it makes the indexing of the old values safe. */
    ghost predicate Valid()
      reads this
    {
      |props| > 0 && (oldValues.Some? ==> propertyNames.Some? && |oldValues.value| == |propertyNames.value|)
    }

    constructor (schema: seq<Prop>)
      requires |schema| > 0
      ensures Valid() && props == schema && propertyNames == None && oldValues == None && !deleted && delivered == []
    {
      props, propertyNames, oldValues, deleted, delivered := schema, None, None, false, [];
    }

    method PopulateProperties(c: ChangeSet)
      modifies this`propertyNames, this`deleted
      ensures deleted == (old(deleted) || (old(propertyNames).None? && c.deletions != {}))
      ensures propertyNames ==
              if old(propertyNames).Some? || c.deletions != {} || ChangedNames(props, c.columns) == [] then old(propertyNames)
              else Some(ChangedNames(props, c.columns))
    {
      if propertyNames.Some? { return; }
      if c.deletions != {} {
        deleted := true;
        return;
      }
      if c.columns == {} {
        NoColumnChanged(props, {});
        return;
      }
      var names := [];
      for i := 0 to |props|
        invariant names == ChangedNames(props[..i], c.columns)
      {
        assert props[..i + 1][..i] == props[..i];
        if props[i].column in c.columns { names := names + [props[i].name]; }
      }
      assert props[..|props|] == props;
      if names != [] { propertyNames := Some(names); }
    }

    /** `values` are the object's at the time of the call. */
    method ReadValues(c: ChangeSet, values: seq<V>) returns (vs: Option<seq<Variant<V>>>)
      requires |values| == |props| > 0
      modifies this`propertyNames, this`deleted
      ensures Empty(c) ==> vs == None && propertyNames == old(propertyNames) && deleted == old(deleted)
      ensures !Empty(c) ==>
                && deleted == (old(deleted) || (old(propertyNames).None? && c.deletions != {}))
                && propertyNames ==
                   (if old(propertyNames).Some? || c.deletions != {} || ChangedNames(props, c.columns) == [] then old(propertyNames)
                    else Some(ChangedNames(props, c.columns)))
                && vs == if propertyNames.None? then None else Some(ValuesFor(props, values, propertyNames.value))
    {
      if Empty(c) { return None; }
      PopulateProperties(c);
      if propertyNames.None? { return None; }
      var names := propertyNames.value;
      var read := [];
      for i := 0 to |names|
        invariant read == ValuesFor(props, values, names)[..i]
      {
        read := read + [ValueForName(props, values, 0, names[i], true)];
      }
      assert ValuesFor(props, values, names)[..|names|] == ValuesFor(props, values, names);
      vs := Some(read);
    }

    method Before(c: ChangeSet, values: seq<V>)
      requires Valid() && |values| == |props|
      modifies this`propertyNames, this`deleted, this`oldValues
      ensures Valid()
      ensures deleted == (old(deleted) || (!Empty(c) && old(propertyNames).None? && c.deletions != {}))
      ensures propertyNames ==
              if Empty(c) || old(propertyNames).Some? || c.deletions != {} || ChangedNames(props, c.columns) == [] then old(propertyNames)
              else Some(ChangedNames(props, c.columns))
      ensures oldValues == if Empty(c) || propertyNames.None? then None else Some(ValuesFor(props, values, propertyNames.value))
    {
      oldValues := ReadValues(c, values);
    }

    method After(c: ChangeSet, values: seq<V>)
      requires Valid() && |values| == |props|
      modifies this
      ensures Valid() && propertyNames == None && oldValues == None
      ensures deleted == (old(deleted) || (!Empty(c) && old(propertyNames).None? && c.deletions != {}))
      ensures var names := if old(propertyNames).Some? then old(propertyNames).value
                           else if c.deletions != {} then [] else ChangedNames(props, c.columns);
              delivered == old(delivered) +
                if deleted then [Deleted]
                else if Empty(c) || (old(propertyNames).None? && names == []) then []
                else [Changed(Changes(names, old(oldValues), ValuesFor(props, values, names)))]
    {
      var newValues := ReadValues(c, values);
      if deleted {
        delivered := delivered + [Deleted];
      } else if newValues.Some? {
        ForwardChanges(propertyNames.value, if oldValues.Some? then oldValues.value else [], newValues.value);
      }
      propertyNames := None;
      oldValues := None;
    }

    method Error()
      modifies this`delivered
      ensures delivered == old(delivered) + [Failed]
    {
      delivered := delivered + [Failed];
    }

    /** The loop of `forward_change`; the indexing is in bounds. */
    method ForwardChanges(names: seq<Name>, olds: seq<Variant<V>>, news: seq<Variant<V>>)
      requires (olds == [] || |olds| == |names|) && |news| == |names|
      modifies this`delivered
      ensures delivered == old(delivered) + [Changed(Changes(names, if olds == [] then None else Some(olds), news))]
    {
      var changes := [];
      for i := 0 to |names|
        invariant changes == Changes(names, if olds == [] then None else Some(olds), news)[..i]
      {
        changes := changes + [PropertyChange(names[i], if olds != [] then Some(olds[i]) else None,
                                             if news != [] then Some(news[i]) else None)];
      }
      ghost var all := Changes(names, if olds == [] then None else Some(olds), news);
      assert all[..|names|] == all;
      delivered := delivered + [Changed(changes)];
    }

    /** One change: core calls `before` and `after` with the same change set. */
    method Round(c: ChangeSet, before: seq<V>, after: seq<V>)
      requires Valid() && propertyNames == None && oldValues == None && |before| == |after| == |props|
      modifies this
      ensures Valid() && propertyNames == None && oldValues == None
      ensures deleted == (old(deleted) || Deletes(c))
      ensures delivered == old(delivered) + Delivered(props, old(deleted), c, before, after)
    {
      Before(c, before);
      After(c, after);
    }
  }

  function Changes<V>(names: seq<Name>, olds: Option<seq<Variant<V>>>, news: seq<Variant<V>>): (cs: seq<PropertyChange<V>>)
    requires |news| == |names| && (olds.Some? ==> |olds.value| == |names|)
    ensures |cs| == |names|
  {
    seq(|names|, i requires 0 <= i < |names| =>
      PropertyChange(names[i], if olds.Some? then Some(olds.value[i]) else None, Some(news[i])))
  }

  predicate Deletes(c: ChangeSet) {
    !Empty(c) && c.deletions != {}
  }

  /** What one change delivers, `gone` saying that a deletion was seen before. */
  function Delivered<V>(props: seq<Prop>, gone: bool, c: ChangeSet, before: seq<V>, after: seq<V>): seq<Delivery<V>>
    requires |before| == |after| == |props| > 0
  {
    var names := ChangedNames(props, c.columns);
    if gone || Deletes(c) then [Deleted]
    else if Empty(c) || names == [] then []
    else [Changed(Changes(names, Some(ValuesFor(props, before, names)), ValuesFor(props, after, names)))]
  }

  // ----- runs

  /** A change of the object, or an error reported by core. */
  datatype Happening<V> = Change(c: ChangeSet, before: seq<V>, after: seq<V>) | Failure

  predicate Fits<V>(props: seq<Prop>, h: Happening<V>) {
    h.Change? ==> |h.before| == |h.after| == |props|
  }

  predicate DeletesNow<V>(h: Happening<V>) {
    h.Change? && Deletes(h.c)
  }

  function DeliveredOnce<V>(props: seq<Prop>, gone: bool, h: Happening<V>): seq<Delivery<V>>
    requires |props| > 0 && Fits(props, h)
  {
    match h
    case Failure => [Failed]
    case Change(c, before, after) => Delivered(props, gone, c, before, after)
  }

  /** Everything delivered over a run. */
  function DeliveredAll<V>(props: seq<Prop>, gone: bool, run: seq<Happening<V>>): seq<Delivery<V>>
    requires |props| > 0 && forall i :: 0 <= i < |run| ==> Fits(props, run[i])
    decreases |run|
  {
    if run == [] then []
    else DeliveredOnce(props, gone, run[0]) + DeliveredAll(props, gone || DeletesNow(run[0]), run[1..])
  }

  method ObserveOnce<V(0)>(o: Observer<V>, h: Happening<V>)
    requires o.Valid() && o.propertyNames == None && o.oldValues == None && Fits(o.props, h)
    modifies o
    ensures o.Valid() && o.propertyNames == None && o.oldValues == None
    ensures o.deleted == (old(o.deleted) || DeletesNow(h))
    ensures o.delivered == old(o.delivered) + DeliveredOnce(o.props, old(o.deleted), h)
  {
    match h
    case Failure => o.Error();
    case Change(c, before, after) => o.Round(c, before, after);
  }

  method Observe<V(0)>(o: Observer<V>, run: seq<Happening<V>>)
    requires o.Valid() && o.propertyNames == None && o.oldValues == None
    requires forall i :: 0 <= i < |run| ==> Fits(o.props, run[i])
    modifies o
    ensures o.delivered == old(o.delivered) + DeliveredAll(o.props, old(o.deleted), run)
    ensures o.Valid() && o.propertyNames == None && o.oldValues == None
  {
    for i := 0 to |run|
      invariant o.Valid() && o.propertyNames == None && o.oldValues == None
      invariant o.delivered + DeliveredAll(o.props, o.deleted, run[i..]) == old(o.delivered) + DeliveredAll(o.props, old(o.deleted), run)
    {
      assert run[i..][1..] == run[i + 1..];
      ObserveOnce(o, run[i]);
    }
  }

  /** Once a deletion was seen, every later change, even an empty one, delivers a deletion. */
  lemma {:induction false} DeletedForGood<V>(props: seq<Prop>, run: seq<Happening<V>>)
    requires |props| > 0 && forall i :: 0 <= i < |run| ==> Fits(props, run[i])
    ensures |DeliveredAll(props, true, run)| == |run|
    ensures forall i :: 0 <= i < |run| ==> DeliveredAll(props, true, run)[i] == if run[i].Failure? then Failed else Deleted
    decreases |run|
  {
    if run != [] { DeletedForGood(props, run[1..]); }
  }

  /** No list, set or dictionary is declared at or before the `k`-th property. */
  predicate NoCollectionUpTo(props: seq<Prop>, k: nat)
    requires k < |props|
  {
    forall j :: 0 <= j <= k ==> !props[j].collection
  }

  /** What is delivered for the `k`-th property read while the object's values are `values`. */
  function Read<V>(props: seq<Prop>, values: seq<V>, k: nat): Variant<V>
    requires |values| == |props| && k < |props|
  {
    if NoCollectionUpTo(props, k) then Stored(props, values, k) else Nothing
  }

  /** Before any deletion, a delivered change names exactly the changed properties, in schema order,
      each with what was read of it before and after. */
  lemma DeliveredValues<V>(props: seq<Prop>, c: ChangeSet, before: seq<V>, after: seq<V>, k: nat)
    requires ValidSchema(props) && |before| == |after| == |props| && k < |props|
    requires c.deletions == {} && (c.insertions != {} || c.modifications != {}) && props[k].column in c.columns
    ensures var d := Delivered(props, false, c, before, after);
            && |d| == 1 && d[0].Changed?
            && (forall i :: 0 <= i < |d[0].changes| ==> IsChanged(props, c.columns, d[0].changes[i].name))
            && (forall i, j, a, b ::
                  0 <= i < j < |d[0].changes| && NamedAt(props, d[0].changes[i].name, a) && NamedAt(props, d[0].changes[j].name, b) ==>
                  a < b)
            && exists i :: 0 <= i < |d[0].changes| &&
                 d[0].changes[i] == PropertyChange(props[k].name, Some(Read(props, before, k)), Some(Read(props, after, k)))
  {
    ChangedNamesFacts(props, c.columns);
    var names := ChangedNames(props, c.columns);
    assert ChangedAt(props, c.columns, k, props[k].name);
    assert IsChanged(props, c.columns, props[k].name);
    assert props[k].name in names;
    var i :| 0 <= i < |names| && names[i] == props[k].name;
    ValueForNameFinds(props, before, 0, k);
    ValueForNameFinds(props, after, 0, k);
    var d := Delivered(props, false, c, before, after);
    assert d[0].changes[i].name == props[k].name;
    assert forall j :: 0 <= j < |names| ==> d[0].changes[j].name == names[j] && names[j] in names;
  }

  /** A change set without indices, or without changed columns of the schema, delivers nothing; a
      deletion is delivered as such. */
  lemma NothingDelivered<V>(props: seq<Prop>, c: ChangeSet, before: seq<V>, after: seq<V>)
    requires |before| == |after| == |props| > 0
    ensures c.deletions == {} && c.insertions == {} && c.modifications == {} ==> Delivered(props, false, c, before, after) == []
    ensures c.deletions == {} && (forall i :: 0 <= i < |props| ==> props[i].column !in c.columns) ==>
              Delivered(props, false, c, before, after) == []
    ensures c.deletions != {} ==> Delivered(props, false, c, before, after) == [Deleted]
  {
    if forall i :: 0 <= i < |props| ==> props[i].column !in c.columns { NoColumnChanged(props, c.columns); }
  }

  lemma {:induction false} NoColumnChanged(props: seq<Prop>, columns: set<Column>)
    requires forall i :: 0 <= i < |props| ==> props[i].column !in columns
    ensures ChangedNames(props, columns) == []
  {
    if props != [] { NoColumnChanged(props[..|props| - 1], columns); }
  }

  /** The block runs while the object has its new values. It finds the new value there is, and finds
      the old value as it was exactly if the property is no to-one link or its link did not change;
      both are empty behind or at a collection. */
  lemma OldValueSeen<V>(props: seq<Prop>, before: seq<V>, after: seq<V>, k: nat)
    requires |before| == |after| == |props| && k < |props|
    ensures SeenAt(Read(props, after, k), after) == if NoCollectionUpTo(props, k) then Of(after[k]) else Nothing
    ensures SeenAt(Read(props, before, k), after) == Of(before[k]) <==>
              NoCollectionUpTo(props, k) && (!props[k].link || before[k] == after[k])
  {
  }

  /** A link that went from one object to another: the block finds the new target as the old value. */
  lemma ChangedLinkLosesOldValue<V>(name: Name, target: V, target': V)
    requires target != target'
    ensures var props := [Prop(name, 0, false, true)];
            var d := Delivered(props, false, ChangeSet({}, {}, {0}, {0}), [target], [target']);
            && d == [Changed([PropertyChange(name, Some(Live(0)), Some(Live(0)))])]
            && SeenAt(d[0].changes[0].oldValue.value, [target']) == Of(target') != Of(target)
  {
    var props := [Prop(name, 0, false, true)];
    var c := ChangeSet({}, {}, {0}, {0});
    assert ChangedNames(props[..0], {0}) == [] && ChangedNames(props, {0}) == [name];
    assert Changes([name], Some(ValuesFor(props, [target], [name])), ValuesFor(props, [target'], [name]))
           == [PropertyChange(name, Some(Live(0)), Some(Live(0)))];
  }
}
