/** The names a class schema collects from its properties. */
module SchemaNames {
  import opened Wrappers

  type Name = string

  datatype Property = Property(name: Name, isPrimaryKey: bool)

  /** `primary_key()`: the property `add` takes the key from, from the `i`-th on. */
  function PrimaryKey(props: seq<Property>, i: nat): (k: Option<nat>)
    requires i <= |props|
    ensures k.Some? ==> i <= k.value < |props| && props[k.value].isPrimaryKey
    ensures forall j :: i <= j < (if k.Some? then k.value else |props|) ==> !props[j].isPrimaryKey
    decreases |props| - i
  {
    if i == |props| then None
    else if props[i].isPrimaryKey then Some(i)
    else PrimaryKey(props, i + 1)
  }

  class ClassSchema {
    var names: seq<Name>
    var primaryKeyName: Name

    /** `apply_name`: collects the names, and the name of the key the tables are created with. */
    constructor (props: seq<Property>)
      ensures |names| == |props| && forall i :: 0 <= i < |props| ==> names[i] == props[i].name
      ensures (forall i :: 0 <= i < |props| ==> !props[i].isPrimaryKey) ==> primaryKeyName == ""
      ensures forall k :: 0 <= k < |props| && props[k].isPrimaryKey && (forall j :: k < j < |props| ==> !props[j].isPrimaryKey)
                ==> primaryKeyName == props[k].name
    {
      var collected := [];
      var key := "";
      for i := 0 to |props|
        invariant |collected| == i && forall j :: 0 <= j < i ==> collected[j] == props[j].name
        invariant (forall j :: 0 <= j < i ==> !props[j].isPrimaryKey) ==> key == ""
        invariant forall k :: 0 <= k < i && props[k].isPrimaryKey && (forall j :: k < j < i ==> !props[j].isPrimaryKey)
                    ==> key == props[k].name
      {
        collected := collected + [props[i].name];
        if props[i].isPrimaryKey { key := props[i].name; }
      }
      names, primaryKeyName := collected, key;
    }
  }

  /** The last property marked as primary key, which is the one the tables are created with. */
  function DeclaredKey(props: seq<Property>): (k: Option<nat>)
    ensures k.Some? ==> k.value < |props| && props[k.value].isPrimaryKey
    ensures forall j :: (if k.Some? then k.value + 1 else 0) <= j < |props| ==> !props[j].isPrimaryKey
  {
    if props == [] then None
    else if props[|props| - 1].isPrimaryKey then Some(|props| - 1)
    else DeclaredKey(props[..|props| - 1])
  }

  /** The key taken from an object and the key of its table are the same property exactly if at most
      one property is marked. */
  lemma SameKey(props: seq<Property>)
    ensures PrimaryKey(props, 0) == DeclaredKey(props) <==>
            forall i, j :: 0 <= i < j < |props| ==> !(props[i].isPrimaryKey && props[j].isPrimaryKey)
  {
    var first, last := PrimaryKey(props, 0), DeclaredKey(props);
    if first == last {
      forall i, j | 0 <= i < j < |props| ensures !(props[i].isPrimaryKey && props[j].isPrimaryKey) {
        if first.Some? && i >= first.value { assert j >= last.value + 1; }
      }
    } else {
      assert first.Some? <==> last.Some?;
      assert first.value < last.value && props[first.value].isPrimaryKey && props[last.value].isPrimaryKey;
    }
  }
}
