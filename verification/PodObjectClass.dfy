/** The mutable typed object, and why what it holds is always filed the way parsing files it. */
module PodObjectClass {
  import opened Wrappers
  import opened Wire
  import opened PodValues
  import opened PodShapes
  import opened PodCodec
  import opened PodRoundTrip
  import opened PodCanonical
  import opened PodSlots
  import opened PodExactness

  // Property tables.

  /** The table `_make_property_table` makes of a list of specs; the last of equal keys wins. */
  function MakeTable(specs: seq<PropertySpec>): Table {
    if specs == [] then Table(map[], map[])
    else
      var t := MakeTable(specs[..|specs| - 1]);
      var spec := specs[|specs| - 1];
      Table(t.byKey[spec.key := spec], t.byName[spec.name := spec])
  }

  ghost predicate DistinctSpecs(specs: seq<PropertySpec>) {
    forall i, j :: 0 <= i < j < |specs| ==> specs[i].key != specs[j].key && specs[i].name != specs[j].name
  }

  lemma {:induction false} TableHolds(specs: seq<PropertySpec>)
    requires DistinctSpecs(specs)
    ensures ValidTable(MakeTable(specs))
    ensures forall k :: k in MakeTable(specs).byKey <==> exists i :: 0 <= i < |specs| && specs[i].key == k
    ensures forall n :: n in MakeTable(specs).byName <==> exists i :: 0 <= i < |specs| && specs[i].name == n
  {
    if specs != [] {
      var front := specs[..|specs| - 1];
      TableHolds(front);
      assert specs[|specs| - 1].key !in MakeTable(front).byKey;
      assert specs[|specs| - 1].name !in MakeTable(front).byName;
      forall k | exists i :: 0 <= i < |specs| && specs[i].key == k
        ensures k in MakeTable(specs).byKey
      {
        var i :| 0 <= i < |specs| && specs[i].key == k;
        if i < |specs| - 1 {
          assert front[i].key == k;
        }
      }
      forall n | exists i :: 0 <= i < |specs| && specs[i].name == n
        ensures n in MakeTable(specs).byName
      {
        var i :| 0 <= i < |specs| && specs[i].name == n;
        if i < |specs| - 1 {
          assert front[i].name == n;
        }
      }
    }
  }

  // Dictionary entries.

  /** `del d[k]`. */
  function Without<K(==), V>(d: Dict<K, V>, k: K): Dict<K, V> {
    if d == [] then [] else if d[0].0 == k then d[1..] else [d[0]] + Without(d[1..], k)
  }

  lemma {:induction false} WithoutKey<K, V>(d: Dict<K, V>, k: K)
    requires UniqueKeys(d)
    ensures UniqueKeys(Without(d, k))
    ensures forall q :: HasKey(Without(d, k), q) <==> q != k && HasKey(d, q)
  {
    if d != [] {
      var tail := d[1..];
      assert forall i :: 0 <= i < |tail| ==> tail[i] == d[i + 1];
      forall q
        ensures HasKey(d, q) <==> d[0].0 == q || HasKey(tail, q)
      {
        HasKeyCons(d, q);
      }
      if d[0].0 == k {
        assert !HasKey(tail, k);
      } else {
        WithoutKey(tail, k);
        var rest := Without(tail, k);
        var r := [d[0]] + rest;
        assert r[1..] == rest;
        forall q
          ensures HasKey(r, q) <==> d[0].0 == q || HasKey(rest, q)
        {
          HasKeyCons(r, q);
        }
        forall i | 0 < i < |r|
          ensures r[i].0 != r[0].0
        {
          assert r[i] == rest[i - 1];
          assert HasKey(rest, r[i].0);
          assert HasKey(tail, r[i].0);
        }
        assert forall i, j :: 0 < i < j < |r| ==> r[i] == rest[i - 1] && r[j] == rest[j - 1];
      }
    }
  }

  lemma {:induction false} GetHas<K, V>(d: Dict<K, V>, k: K)
    ensures Get(d, k).Some? <==> HasKey(d, k)
  {
    if d != [] {
      HasKeyCons(d, k);
      GetHas(d[1..], k);
    }
  }

  lemma {:induction false} GetPut<K, V>(d: Dict<K, V>, k: K, v: V, q: K)
    ensures Get(Put(d, k, v), q) == if q == k then Some(v) else Get(d, q)
  {
    if d != [] {
      GetPut(d[1..], k, v, q);
      var r := Put(d, k, v);
      if d[0].0 == k {
        assert r[1..] == d[1..];
      } else {
        assert r[1..] == Put(d[1..], k, v);
      }
    } else {
      assert Put(d, k, v)[1..] == d;
    }
  }

  // The object.

  /** The storage key of a subscript: a known number becomes its name. */
  function Storage(T: Tables, objectId: int, key: Key): Key {
    if key.Num? then StorageKey(T, objectId, key.num) else key
  }

  /** The numeric key recorded for a stored key, if its name is known. */
  function KnownKey(T: Tables, objectId: int, key: Key): Option<int> {
    if key.Num? then None
    else
      var spec := SpecByName(T, objectId, key.name);
      if spec.Some? then Some(spec.value.key) else None
  }

  /** What every typed object keeps: stored keys are distinct and each has its flags and its numeric key. */
  ghost predicate Kept(T: Tables, v: Value)
    requires v.VObject?
  {
    && UniqueKeys(v.properties)
    && (forall k :: HasKey(v.properties, k) ==> Storage(T, v.objectId, k) == k)
    && (forall k :: k in v.flags <==> HasKey(v.properties, k))
    && (forall n :: n in v.keys <==> HasKey(v.properties, Name(n)) && KnownKey(T, v.objectId, Name(n)).Some?)
    && (forall n :: n in v.keys ==> KnownKey(T, v.objectId, Name(n)) == Some(v.keys[n]))
  }

  /** An object after a property is assigned. */
  function Stored(T: Tables, v: Value, key: Key, value: Value): (r: Value)
    requires v.VObject?
    ensures r.VObject? && r.objectId == v.objectId
  {
    var storage := Storage(T, v.objectId, key);
    var known := KnownKey(T, v.objectId, storage);
    v.(properties := Put(v.properties, storage, value),
       flags := if storage in v.flags then v.flags else v.flags[storage := 0],
       keys := if storage.Name? && storage.name !in v.keys && known.Some? then v.keys[storage.name := known.value]
               else v.keys)
  }

  lemma {:induction false} StoringKeeps(T: Tables, v: Value, key: Key, value: Value)
    requires ValidTables(T) && v.VObject? && Kept(T, v)
    ensures Kept(T, Stored(T, v, key, value))
  {
    hide Stored, Storage, KnownKey, ValidTables, HasKey, UniqueKeys, Put, Get;
    StoringProperties(T, v, key, value);
    StoringFlags(T, v, key, value);
    StoringKeys(T, v, key, value);
  }

  lemma {:induction false} StoringProperties(T: Tables, v: Value, key: Key, value: Value)
    requires ValidTables(T) && v.VObject? && Kept(T, v)
    ensures var s := Stored(T, v, key, value);
      && UniqueKeys(s.properties)
      && (forall k :: HasKey(s.properties, k) <==> k == Storage(T, v.objectId, key) || HasKey(v.properties, k))
      && (forall k :: HasKey(s.properties, k) ==> Storage(T, v.objectId, k) == k)
  {
    StorageTwice(T, v.objectId, key);
    hide Storage, KnownKey, ValidTables, HasKey, UniqueKeys, Put, Get;
    PutKeys(v.properties, Storage(T, v.objectId, key), value);
  }

  lemma {:induction false} StoringFlags(T: Tables, v: Value, key: Key, value: Value)
    requires v.VObject? && Kept(T, v)
    requires var s := Stored(T, v, key, value);
      forall k :: HasKey(s.properties, k) <==> k == Storage(T, v.objectId, key) || HasKey(v.properties, k)
    ensures var s := Stored(T, v, key, value);
      forall k :: k in s.flags <==> HasKey(s.properties, k)
  {
    hide Put, HasKey, UniqueKeys, KnownKey, Storage;
  }

  lemma {:induction false} StoringKeys(T: Tables, v: Value, key: Key, value: Value)
    requires v.VObject? && Kept(T, v)
    requires var s := Stored(T, v, key, value);
      forall k :: HasKey(s.properties, k) <==> k == Storage(T, v.objectId, key) || HasKey(v.properties, k)
    ensures var s := Stored(T, v, key, value);
      forall n ::
        && (n in s.keys <==> HasKey(s.properties, Name(n)) && KnownKey(T, v.objectId, Name(n)).Some?)
        && (n in s.keys ==> KnownKey(T, v.objectId, Name(n)) == Some(s.keys[n]))
  {
    hide Put, HasKey, UniqueKeys, KnownKey, Storage;
  }

  lemma {:induction false} StorageTwice(T: Tables, objectId: int, key: Key)
    requires ValidTables(T)
    ensures Storage(T, objectId, Storage(T, objectId, key)) == Storage(T, objectId, key)
  {
  }

  lemma {:induction false} GetPutAll(properties: Dict<Key, Value>, storage: Key, value: Value)
    ensures forall k :: Get(Put(properties, storage, value), k) == if k == storage then Some(value) else Get(properties, k)
  {
    forall k
      ensures Get(Put(properties, storage, value), k) == if k == storage then Some(value) else Get(properties, k)
    {
      GetPut(properties, storage, value, k);
    }
  }

  /** Every property name of the object is in its table. */
  ghost predicate NamesKnown(T: Tables, v: Value)
    requires v.VObject?
  {
    forall n :: HasKey(v.properties, Name(n)) ==> KnownKey(T, v.objectId, Name(n)).Some?
  }

  lemma KeptIsCanonical(T: Tables, v: Value)
    requires ValidTables(T) && v.VObject? && Kept(T, v) && NamesKnown(T, v)
    ensures CanonicalKeys(T, v)
  {
    forall i | 0 <= i < |v.properties|
      ensures FiledRight(T, v.objectId, v.properties[i].0, v.keys)
    {
      var k := v.properties[i].0;
      assert HasKey(v.properties, k);
      if k.Name? {
        assert k == Name(k.name);
        assert k.name in v.keys;
      }
    }
    var names := set i | 0 <= i < |v.properties| && v.properties[i].0.Name? :: v.properties[i].0.name;
    forall n
      ensures n in v.keys <==> n in names
    {
      if n in names {
        var i :| 0 <= i < |v.properties| && v.properties[i].0.Name? && v.properties[i].0.name == n;
        assert v.properties[i].0 == Name(n);
      }
      if n in v.keys {
        var i :| 0 <= i < |v.properties| && v.properties[i].0 == Name(n);
        assert v.properties[i].0.name == n;
      }
    }
  }

  /** What builds has a numeric key for each of its names. */
  lemma {:induction false} BuiltNamesKnown(T: Tables, v: Value)
    requires v.VObject? && Kept(T, v) && BuildAs(T, v, T_OBJECT).Ok?
    ensures NamesKnown(T, v)
  {
    assert BuildBody(T, v, T_OBJECT) == BuildObject(T, v);
    hide BuildBody;
    forall n | HasKey(v.properties, Name(n))
      ensures KnownKey(T, v.objectId, Name(n)).Some?
    {
      var i :| 0 <= i < |v.properties| && v.properties[i].0 == Name(n);
      BuiltKeys(T, v.objectId, v.properties, v.flags, v.keys, i);
    }
  }

  lemma {:induction false} BuiltKeys(T: Tables, objectId: int, properties: Dict<Key, Value>,
                                     flags: map<Key, int>, keys: map<Str, int>, i: nat)
    requires i < |properties| && BuildProperties(T, objectId, properties, flags, keys).Ok?
    ensures WireKey(T, objectId, properties[i].0, keys).Ok?
    decreases |properties|
  {
    hide BuildAs, Prepare;
    var key, prepared, ty, body, rest := BuildPropertiesStep(T, objectId, properties, flags, keys);
    if i > 0 { BuiltKeys(T, objectId, properties[1..], flags, keys, i - 1); }
  }

  /**
    * A typed object, filled by assigning and deleting items in any order, comes back with its id,
    * values, flags and numeric keys exactly when its values are in the form their specs present.
    */
  lemma TypedObjectReturns(T: Tables, v: Value, pre: Bytes, post: Bytes)
    requires ValidTables(T) && v.VObject? && Kept(T, v)
    requires BuildAs(T, v, T_OBJECT).Ok?
    ensures Parse(T, pre + BuildAs(T, v, T_OBJECT).value + post, |pre|) == Ok(v)
       <==> CanonicalProperties(T, v.objectId, v.properties, v.keys)
  {
    BuiltNamesKnown(T, v);
    hide Parse, Normalize, BuildAs, CanonicalProperties, CanonicalKeys;
    KeptIsCanonical(T, v);
    RoundTripIff(T, v, T_OBJECT, pre, post);
  }

  /**
    * An object constructed with any flags and numeric keys whatever comes back exactly when, besides,
    * these name just its properties and each property is filed where parsing files it.
    */
  lemma AnyObjectReturns(T: Tables, v: Value, pre: Bytes, post: Bytes)
    requires v.VObject? && BuildAs(T, v, T_OBJECT).Ok?
    ensures Parse(T, pre + BuildAs(T, v, T_OBJECT).value + post, |pre|) == Ok(v)
       <==> CanonicalKeys(T, v) && CanonicalProperties(T, v.objectId, v.properties, v.keys)
  {
    hide Parse, Normalize, BuildAs, CanonicalProperties, CanonicalKeys;
    RoundTripIff(T, v, T_OBJECT, pre, post);
  }

  class SpaPodObject {
    const T: Tables
    const objectType: int
    const objectId: int
    var properties: Dict<Key, Value>
    var flags: map<Key, int>
    var keys: map<Str, int>

    function View(): (v: Value)
      reads this
      ensures v.VObject?
    {
      VObject(objectType, objectId, properties, flags, keys)
    }

    ghost predicate Valid()
      reads this
    {
      ValidTables(T) && Kept(T, View())
    }

    constructor (T: Tables, objectType: int, objectId: int)
      requires ValidTables(T)
      ensures Valid() && this.T == T && View() == VObject(objectType, objectId, [], map[], map[])
    {
      this.T, this.objectType, this.objectId := T, objectType, objectId;
      properties, flags, keys := [], map[], map[];
    }

    /** `__setitem__`: a first assignment records clear flags and, for a known name, its number. */
    method SetItem(key: Key, value: Value)
      requires Valid()
      modifies this
      ensures Valid()
      ensures View() == Stored(T, old(View()), key, value)
      ensures properties == Put(old(properties), Storage(T, objectId, key), value)
      ensures forall k :: k in flags ==> flags[k] == (if k in old(flags) then old(flags)[k] else 0)
      ensures forall k :: Get(properties, k)
                       == if k == Storage(T, objectId, key) then Some(value) else Get(old(properties), k)
    {
      var storage := Storage(T, objectId, key);
      var known := KnownKey(T, objectId, storage);
      ghost var stored := Stored(T, View(), key, value);
      StoringKeeps(T, View(), key, value);
      GetPutAll(properties, storage, value);
      assert forall k :: k in stored.flags ==> stored.flags[k] == (if k in flags then flags[k] else 0);
      hide KnownKey, Storage, Kept, Put, Get, ValidTables;
      if storage.Name? && storage.name !in keys && known.Some? {
        keys := keys[storage.name := known.value];
      }
      properties := Put(properties, storage, value);
      if storage !in flags {
        flags := flags[storage := 0];
      }
      assert View() == stored;
    }

    /** `__getitem__`; None stands for its KeyError. */
    method GetItem(key: Key) returns (r: Option<Value>)
      requires Valid()
      ensures r == Get(properties, Storage(T, objectId, key))
    {
      r := Get(properties, key);
      if r.None? && key.Num? && SpecByKey(T, objectId, key.num).Some? {
        r := Get(properties, Name(SpecByKey(T, objectId, key.num).value.name));
      }
      GetHas(properties, key);
    }

    /** `__delitem__`: the value goes with its flags and its numeric key; a missing key changes nothing. */
    method DelItem(key: Key) returns (found: bool)
      requires Valid()
      modifies this
      ensures Valid()
      ensures found <==> HasKey(old(properties), Storage(T, objectId, key))
      ensures properties == if found then Without(old(properties), Storage(T, objectId, key)) else old(properties)
      ensures forall k :: k in flags ==> k in old(flags) && flags[k] == old(flags)[k]
    {
      var storage := Storage(T, objectId, key);
      var value := Get(properties, storage);
      GetHas(properties, storage);
      found := value.Some?;
      if found {
        WithoutKey(properties, storage);
        properties := Without(properties, storage);
        flags := flags - {storage};
        if storage.Name? {
          keys := keys - {storage.name};
        }
      }
    }
  }
}
