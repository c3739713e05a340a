/** An object put together from its wire properties, and when that is the object they came from. */
module PodObjects {
  import opened Wrappers
  import opened Wire
  import opened PodValues
  import opened PodShapes
  import opened PodCodec
  import opened PodCanonical
  import opened PodSlots

  /** The wire properties as dictionary entries. */
  function Listed(T: Tables, objectId: int, ps: seq<Property>): (d: Dict<Key, Value>)
    ensures |d| == |ps|
  {
    seq(|ps|, i requires 0 <= i < |ps| => (StorageKey(T, objectId, ps[i].key), ps[i].value))
  }

  lemma {:induction false} ListedTail(T: Tables, objectId: int, ps: seq<Property>)
    requires ps != []
    ensures var d := Listed(T, objectId, ps);
      && Listed(T, objectId, ps[1..]) == d[1..]
      && forall k :: HasKey(d, k) <==> k == d[0].0 || HasKey(d[1..], k)
  {
    var d := Listed(T, objectId, ps);
    assert d[1..] == Listed(T, objectId, ps[1..]);
    forall k
      ensures HasKey(d, k) <==> k == d[0].0 || HasKey(d[1..], k)
    {
      HasKeyCons(d, k);
    }
  }

  lemma {:induction false} AddedProperties(T: Tables, v: Value, ps: seq<Property>)
    requires v.VObject?
    ensures var r := AddProperties(T, v, ps);
      && r.objectType == v.objectType && r.objectId == v.objectId
      && r.properties == PutAll(v.properties, Listed(T, v.objectId, ps))
    decreases |ps|
  {
    if ps != [] {
      AddedProperties(T, AddProperty(T, v, ps[0]), ps[1..]);
      ListedTail(T, v.objectId, ps);
    }
  }

  /** Flags and numeric keys of the added properties; a key that is not added keeps what it had. */
  lemma {:induction false} AddedMaps(T: Tables, v: Value, ps: seq<Property>, k: Key)
    requires v.VObject?
    ensures var r, d := AddProperties(T, v, ps), Listed(T, v.objectId, ps);
      && (k in r.flags <==> k in v.flags || HasKey(d, k))
      && (!HasKey(d, k) && k in v.flags ==> r.flags[k] == v.flags[k])
      && (k.Name? ==> (k.name in r.keys <==> k.name in v.keys || HasKey(d, k)))
      && (k.Name? && !HasKey(d, k) && k.name in v.keys ==> r.keys[k.name] == v.keys[k.name])
    decreases |ps|
  {
    if ps != [] {
      AddedMaps(T, AddProperty(T, v, ps[0]), ps[1..], k);
      ListedTail(T, v.objectId, ps);
    }
  }

  lemma {:induction false} AddedValues(T: Tables, v: Value, ps: seq<Property>, i: nat)
    requires v.VObject? && i < |ps|
    requires UniqueKeys(Listed(T, v.objectId, ps))
    ensures var r, k := AddProperties(T, v, ps), StorageKey(T, v.objectId, ps[i].key);
      && k in r.flags && r.flags[k] == ps[i].flags
      && (k.Name? ==> k.name in r.keys && r.keys[k.name] == ps[i].key)
    decreases |ps|
  {
    var d := Listed(T, v.objectId, ps);
    ListedTail(T, v.objectId, ps);
    if i == 0 {
      assert !HasKey(d[1..], d[0].0);
      AddedMaps(T, AddProperty(T, v, ps[0]), ps[1..], d[0].0);
    } else {
      AddedValues(T, AddProperty(T, v, ps[0]), ps[1..], i - 1);
    }
  }

  /** The wire properties of `v` carry its keys and flags. */
  ghost predicate WireOf(T: Tables, v: Value, ps: seq<Property>)
    requires v.VObject?
  {
    && |ps| == |v.properties|
    && (forall i :: 0 <= i < |ps| ==> WireKey(T, v.objectId, v.properties[i].0, v.keys) == Ok(ps[i].key))
    && (forall i :: 0 <= i < |ps| ==> ps[i].flags == FlagsOf(v.flags, v.properties[i].0))
  }

  /** An assembled object lists its wire properties, under distinct keys. */
  lemma {:induction false} AssembledList(T: Tables, v: Value, ps: seq<Property>)
    requires v.VObject? && |ps| == |v.properties|
    requires Assemble(T, v.objectType, v.objectId, ps) == v
    ensures Listed(T, v.objectId, ps) == v.properties && UniqueKeys(v.properties)
  {
    var d := Listed(T, v.objectId, ps);
    AddedProperties(T, VObject(v.objectType, v.objectId, [], map[], map[]), ps);
    PutAllIff(d, v.properties);
  }

  /** Its flags and numeric keys are those of its properties. */
  lemma {:induction false} AssembledMaps(T: Tables, v: Value, ps: seq<Property>)
    requires v.VObject? && Listed(T, v.objectId, ps) == v.properties
    requires Assemble(T, v.objectType, v.objectId, ps) == v
    ensures forall k :: k in v.flags <==> HasKey(v.properties, k)
    ensures forall n :: n in v.keys <==> HasKey(v.properties, Name(n))
  {
    var start := VObject(v.objectType, v.objectId, [], map[], map[]);
    forall k
      ensures k in v.flags <==> HasKey(v.properties, k)
    {
      AddedMaps(T, start, ps, k);
    }
    forall n
      ensures n in v.keys <==> HasKey(v.properties, Name(n))
    {
      var k := Name(n);
      assert k.name == n;
      AddedMaps(T, start, ps, k);
    }
  }

  lemma {:induction false} KeySets(v: Value)
    requires v.VObject?
    requires forall k :: k in v.flags <==> HasKey(v.properties, k)
    requires forall n :: n in v.keys <==> HasKey(v.properties, Name(n))
    ensures v.flags.Keys == (set i | 0 <= i < |v.properties| :: v.properties[i].0)
    ensures v.keys.Keys == (set i | 0 <= i < |v.properties| && v.properties[i].0.Name? :: v.properties[i].0.name)
  {
    var names := set i | 0 <= i < |v.properties| && v.properties[i].0.Name? :: v.properties[i].0.name;
    forall n
      ensures HasKey(v.properties, Name(n)) <==> n in names
    {
      if n in names {
        var i :| 0 <= i < |v.properties| && v.properties[i].0.Name? && v.properties[i].0.name == n;
        assert v.properties[i].0 == Name(n);
      }
    }
  }

  lemma {:induction false} AssembledIsCanonical(T: Tables, v: Value, ps: seq<Property>)
    requires v.VObject? && WireOf(T, v, ps)
    requires Assemble(T, v.objectType, v.objectId, ps) == v
    ensures CanonicalKeys(T, v) && forall i :: 0 <= i < |ps| ==> ps[i].value == v.properties[i].1
  {
    var d := Listed(T, v.objectId, ps);
    AssembledList(T, v, ps);
    AssembledMaps(T, v, ps);
    KeySets(v);
    hide Assemble, HasKey;
    forall i | 0 <= i < |ps|
      ensures ps[i].value == v.properties[i].1 && FiledRight(T, v.objectId, v.properties[i].0, v.keys)
    {
      assert d[i] == v.properties[i];
    }
  }

  lemma {:induction false} CanonicalFlags(T: Tables, v: Value, ps: seq<Property>)
    requires v.VObject? && WireOf(T, v, ps)
    requires Listed(T, v.objectId, ps) == v.properties && CanonicalKeys(T, v)
    ensures Assemble(T, v.objectType, v.objectId, ps).flags == v.flags
  {
    var start := VObject(v.objectType, v.objectId, [], map[], map[]);
    var r := Assemble(T, v.objectType, v.objectId, ps);
    forall k
      ensures k in r.flags <==> k in v.flags
      ensures k in v.flags ==> r.flags[k] == v.flags[k]
    {
      AddedMaps(T, start, ps, k);
      if k in v.flags {
        var i :| 0 <= i < |v.properties| && v.properties[i].0 == k;
        AddedValues(T, start, ps, i);
      }
    }
  }

  lemma {:induction false} CanonicalNames(T: Tables, v: Value, ps: seq<Property>)
    requires v.VObject? && WireOf(T, v, ps)
    requires Listed(T, v.objectId, ps) == v.properties && CanonicalKeys(T, v)
    ensures Assemble(T, v.objectType, v.objectId, ps).keys == v.keys
  {
    var start := VObject(v.objectType, v.objectId, [], map[], map[]);
    var r := Assemble(T, v.objectType, v.objectId, ps);
    forall n
      ensures n in r.keys <==> n in v.keys
      ensures n in v.keys ==> r.keys[n] == v.keys[n]
    {
      var k := Name(n);
      AddedMaps(T, start, ps, k);
      assert k.name == n;
      if n in v.keys {
        var i :| 0 <= i < |v.properties| && v.properties[i].0.Name? && v.properties[i].0.name == n;
        assert v.properties[i].0 == k;
        AddedValues(T, start, ps, i);
      }
      if HasKey(v.properties, k) {
        var i :| 0 <= i < |v.properties| && v.properties[i].0 == k;
        assert v.properties[i].0.name in v.keys;
      }
    }
  }

  lemma {:induction false} CanonicalIsAssembled(T: Tables, v: Value, ps: seq<Property>)
    requires v.VObject? && WireOf(T, v, ps)
    requires CanonicalKeys(T, v) && forall i :: 0 <= i < |ps| ==> ps[i].value == v.properties[i].1
    ensures Assemble(T, v.objectType, v.objectId, ps) == v
  {
    var d := Listed(T, v.objectId, ps);
    forall i | 0 <= i < |ps|
      ensures d[i] == v.properties[i]
    {
      assert FiledRight(T, v.objectId, v.properties[i].0, v.keys);
    }
    assert d == v.properties;
    AddedProperties(T, VObject(v.objectType, v.objectId, [], map[], map[]), ps);
    PutAllIff(d, v.properties);
    CanonicalFlags(T, v, ps);
    CanonicalNames(T, v, ps);
  }

  lemma {:induction false} AssembleIff(T: Tables, v: Value, ps: seq<Property>)
    requires v.VObject? && WireOf(T, v, ps)
    ensures Assemble(T, v.objectType, v.objectId, ps) == v
       <==> CanonicalKeys(T, v) && forall i :: 0 <= i < |ps| ==> ps[i].value == v.properties[i].1
  {
    if Assemble(T, v.objectType, v.objectId, ps) == v {
      AssembledIsCanonical(T, v, ps);
    }
    if CanonicalKeys(T, v) && forall i :: 0 <= i < |ps| ==> ps[i].value == v.properties[i].1 {
      CanonicalIsAssembled(T, v, ps);
    }
  }

  /** The wire properties of `v` from the n-th on, with the right keys and flags. */
  ghost predicate WireFrom(T: Tables, v: Value, n: nat, ps: seq<Property>)
    requires v.VObject?
  {
    && n + |ps| == |v.properties|
    && (forall i :: 0 <= i < |ps| ==> WireKey(T, v.objectId, v.properties[n + i].0, v.keys) == Ok(ps[i].key))
    && (forall i :: 0 <= i < |ps| ==> ps[i].flags == FlagsOf(v.flags, v.properties[n + i].0))
  }

  predicate ValuesFrom(v: Value, n: nat, ps: seq<Property>)
    requires v.VObject? && n + |ps| == |v.properties|
  {
    forall i :: 0 <= i < |ps| ==> ps[i].value == v.properties[n + i].1
  }

  lemma {:induction false} WireCons(T: Tables, v: Value, n: nat, head: Property, others: seq<Property>)
    requires v.VObject? && n < |v.properties| && WireFrom(T, v, n + 1, others)
    requires WireKey(T, v.objectId, v.properties[n].0, v.keys) == Ok(head.key)
    requires head.flags == FlagsOf(v.flags, v.properties[n].0)
    ensures WireFrom(T, v, n, [head] + others)
    ensures ValuesFrom(v, n, [head] + others) <==> head.value == v.properties[n].1 && ValuesFrom(v, n + 1, others)
  {
    hide WireKey, FlagsOf;
    var ps := [head] + others;
    assert forall i :: 0 < i < |ps| ==> ps[i] == others[i - 1] && n + 1 + (i - 1) == n + i;
    if ValuesFrom(v, n, ps) {
      assert ps[0].value == v.properties[n + 0].1;
      forall i | 0 <= i < |others|
        ensures others[i].value == v.properties[n + 1 + i].1
      {
        assert ps[i + 1].value == v.properties[n + (i + 1)].1;
      }
    }
  }
}
