/** Parsed pods, built again: exactly which of them come back as the same value. */
module PodReparse {
  import opened Wrappers
  import opened Wire
  import opened PodValues
  import opened PodShapes
  import opened PodCodec
  import opened PodRoundTrip
  import opened PodCanonical
  import opened PodSlots
  import opened PodObjects
  import opened PodExactness

  /** No raw bytes as an embedded pod, and every property value in the form its spec presents. */
  predicate Holds(T: Tables, v: Value)
    decreases Size(v)
  {
    match v
    case VArray(_, _, items) => AllHold(T, items)
    case VStruct(items) => AllHold(T, items)
    case VChoice(_, _, _, _, items) => AllHold(T, items)
    case VSequence(_, controls) => ControlsHold(T, controls)
    case VPod(pod) => !pod.VBytes? && Holds(T, pod)
    case VObject(_, objectId, properties, _, keys) => CanonicalProperties(T, objectId, properties, keys)
    case _ => true
  }

  predicate AllHold(T: Tables, items: seq<Value>)
    decreases SizeSeq(items)
  {
    items != [] ==> Holds(T, items[0]) && AllHold(T, items[1..])
  }

  predicate ControlsHold(T: Tables, controls: seq<Control>)
    decreases SizeControls(controls)
  {
    controls != [] ==> Holds(T, controls[0].value) && ControlsHold(T, controls[1..])
  }

  /** For what was parsed, with its own type or the inferred one, being canonical is no more than that. */
  ghost predicate Settled(T: Tables, v: Value, ty: int) {
    && InferType(v).Ok?
    && (Canonical(T, v, ty) <==> Holds(T, v))
    && (Canonical(T, v, InferType(v).value) <==> Holds(T, v))
  }

  lemma {:induction false} ParsedSettles(T: Tables, data: Bytes, o: nat, size: nat, ty: int)
    requires o + size <= |data|
    ensures var r := ParseBody(T, data, o, size, ty);
      r.Ok? ==> Settled(T, r.value, ty)
    decreases size, 2
  {
    hide ParseLeaf, ParseItems, ParsePods, ParseControls, ParseProperties, Assemble;
    if ty == T_ARRAY {
      ParsedArraySettles(T, data, o, size);
    } else if ty == T_STRUCT {
      PodsSettle(T, data, o, o + size);
    } else if ty == T_OBJECT {
      ObjectSettles(T, data, o, size);
    } else if ty == T_SEQUENCE {
      if size >= 8 { ControlsSettle(T, data, o + 8, o + size); }
    } else if ty == T_CHOICE {
      ParsedChoiceSettles(T, data, o, size);
    } else if ty == T_POD {
      if size >= 8 && Align8(8 + U32At(data, o)) <= size {
        ParsedSettles(T, data, o + 8, U32At(data, o), U32At(data, o + 4));
      }
    } else {
      LeafSettles(T, data, o, size, ty);
    }
  }

  lemma {:induction false} ParsedArraySettles(T: Tables, data: Bytes, o: nat, size: nat)
    requires o + size <= |data|
    ensures var r := ParseArray(T, data, o, size);
      r.Ok? ==> Settled(T, r.value, T_ARRAY)
    decreases size, 1
  {
    hide ParseItems, Settled;
    var size', type' := if size < 8 then 0 else U32At(data, o), if size < 8 then T_NONE else U32At(data, o + 4);
    var items := if size < 8 then Ok([]) else ParseItems(T, data, o + 8, o + size, size', type');
    if size >= 8 { ItemsSettle(T, data, o + 8, o + size, size', type'); }
    if items.Ok? { ArraySettles(T, size', type', items.value); }
  }

  lemma {:induction false} ParsedChoiceSettles(T: Tables, data: Bytes, o: nat, size: nat)
    requires o + size <= |data|
    ensures var r := ParseChoice(T, data, o, size);
      r.Ok? ==> Settled(T, r.value, T_CHOICE)
    decreases size, 1
  {
    hide ParseItems, Settled;
    var kind, flags := if size < 16 then 0 else U32At(data, o), if size < 16 then 0 else U32At(data, o + 4);
    var size', type' := if size < 16 then 0 else U32At(data, o + 8), if size < 16 then T_NONE else U32At(data, o + 12);
    var items := if size < 16 then Ok([]) else ParseItems(T, data, o + 16, o + size, size', type');
    if size >= 16 { ItemsSettle(T, data, o + 16, o + size, size', type'); }
    if items.Ok? { ChoiceSettles(T, kind, flags, size', type', items.value); }
  }

  lemma {:induction false} LeafSettles(T: Tables, data: Bytes, o: nat, size: nat, ty: int)
    requires o + size <= |data| && !IsContainer(ty)
    ensures var r := ParseLeaf(data, o, size, ty);
      r.Ok? ==> Settled(T, r.value, ty)
  {
    var r := ParseLeaf(data, o, size, ty);
    if r.Ok? {
      PlainLeaf(data, o, size, ty);
      PlainSettles(T, r.value, ty);
    }
  }

  /** What a leaf body yields: itself canonical, with its own type and with the inferred one. */
  lemma {:induction false} PlainLeaf(data: Bytes, o: nat, size: nat, ty: int)
    requires o + size <= |data| && !IsContainer(ty)
    ensures var r := ParseLeaf(data, o, size, ty);
      r.Ok? ==> Plain(r.value, ty)
  {
    hide U32At, U64At, Unwrap, UntilNul;
  }

  ghost predicate Plain(v: Value, ty: int) {
    && IsLeaf(v)
    && CanonicalLeaf(v, ty)
    && InferType(v).Ok? && !IsContainer(InferType(v).value)
    && CanonicalLeaf(v, InferType(v).value)
  }

  predicate IsLeaf(v: Value) {
    match v
    case VArray(_, _, _) => false
    case VStruct(_) => false
    case VChoice(_, _, _, _, _) => false
    case VSequence(_, _) => false
    case VPod(_) => false
    case VObject(_, _, _, _, _) => false
    case _ => true
  }

  lemma {:induction false} PlainSettles(T: Tables, v: Value, ty: int)
    requires Plain(v, ty) && !IsContainer(ty)
    ensures Settled(T, v, ty)
  {
    hide InferType, CanonicalLeaf, CanonicalProperties;
  }

  lemma {:induction false} ArraySettles(T: Tables, childSize: int, childType: int, items: seq<Value>)
    requires childSize == 0 ==> items == []
    requires AllCanonical(T, items, childType) <==> AllHold(T, items)
    ensures Settled(T, VArray(Some(childSize), Some(childType), items), T_ARRAY)
  {
    var v := VArray(Some(childSize), Some(childType), items);
    assert Canonical(T, v, T_ARRAY) <==> CanonicalItems(T, items, Some(childSize), childType);
  }

  lemma {:induction false} ChoiceSettles(
      T: Tables, kind: int, flags: int, childSize: int, childType: int, items: seq<Value>)
    requires childSize == 0 ==> items == []
    requires AllCanonical(T, items, childType) <==> AllHold(T, items)
    ensures Settled(T, VChoice(kind, flags, Some(childSize), Some(childType), items), T_CHOICE)
  {
    var v := VChoice(kind, flags, Some(childSize), Some(childType), items);
    assert Canonical(T, v, T_CHOICE) <==> CanonicalItems(T, items, Some(childSize), childType);
  }

  lemma {:induction false} ItemsSettle(T: Tables, data: Bytes, current: nat, end: nat, childSize: nat, childType: int)
    requires current <= end <= |data| && FitsU32(childSize) && FitsU32(childType)
    ensures var r := ParseItems(T, data, current, end, childSize, childType);
      r.Ok? ==>
        && (childSize == 0 ==> r.value == [])
        && (AllCanonical(T, r.value, childType) <==> AllHold(T, r.value))
    decreases end - current + 1, 0
  {
    hide ParseBody, Canonical, Holds, U32;
    if childSize > 0 && current + childSize <= end {
      var podData := U32(childSize) + U32(childType) + data[current..current + childSize];
      ParsedSettles(T, podData, 8, childSize, childType);
      ItemsSettle(T, data, current + childSize, end, childSize, childType);
      var r := ParseItems(T, data, current, end, childSize, childType);
      var tail := ParseItems(T, data, current + childSize, end, childSize, childType);
      if r.Ok? { assert r.value[1..] == tail.value; }
    }
  }

  lemma {:induction false} PodsSettle(T: Tables, data: Bytes, current: nat, end: nat)
    requires current <= end <= |data|
    ensures var r := ParsePods(T, data, current, end);
      r.Ok? ==> (CanonicalPods(T, r.value) <==> AllHold(T, r.value))
    decreases end - current, 0
  {
    hide ParseBody, Canonical, Holds, InferType;
    if current + 8 <= end && current + Align8(8 + U32At(data, current)) <= end {
      var next := current + Align8(8 + U32At(data, current));
      ParsedSettles(T, data, current + 8, U32At(data, current), U32At(data, current + 4));
      PodsSettle(T, data, next, end);
      var r, tail := ParsePods(T, data, current, end), ParsePods(T, data, next, end);
      if r.Ok? { assert r.value[1..] == tail.value; }
    }
  }

  lemma {:induction false} ControlsSettle(T: Tables, data: Bytes, current: nat, end: nat)
    requires current <= end <= |data|
    ensures var r := ParseControls(T, data, current, end);
      r.Ok? ==> (CanonicalControls(T, r.value) <==> ControlsHold(T, r.value))
    decreases end - current, 0
  {
    hide ParseBody, Canonical, Holds, InferType;
    if current + 16 <= end && current + 8 + Align8(8 + U32At(data, current + 8)) <= end {
      var next := current + 8 + Align8(8 + U32At(data, current + 8));
      ParsedSettles(T, data, current + 16, U32At(data, current + 8), U32At(data, current + 12));
      ControlsSettle(T, data, next, end);
      var r, tail := ParseControls(T, data, current, end), ParseControls(T, data, next, end);
      if r.Ok? { assert r.value[1..] == tail.value; }
    }
  }

  // Objects.

  /** What filing properties one by one keeps: distinct keys, each filed where its number is filed. */
  ghost predicate Filed(T: Tables, v: Value)
    requires v.VObject?
  {
    && UniqueKeys(v.properties)
    && (forall k :: k in v.flags <==> HasKey(v.properties, k))
    && (forall n :: n in v.keys <==> HasKey(v.properties, Name(n)))
    && (forall n :: n in v.keys ==> StorageKey(T, v.objectId, v.keys[n]) == Name(n))
    && (forall k :: HasKey(v.properties, Num(k)) ==> StorageKey(T, v.objectId, k) == Num(k))
  }

  lemma {:induction false} FilingKeeps(T: Tables, v: Value, p: Property)
    requires v.VObject? && Filed(T, v)
    ensures Filed(T, AddProperty(T, v, p))
  {
    PutKeys(v.properties, StorageKey(T, v.objectId, p.key), p.value);
    hide HasKey, Put, UniqueKeys;
  }

  lemma {:induction false} FilingAllKeeps(T: Tables, v: Value, ps: seq<Property>)
    requires v.VObject? && Filed(T, v)
    ensures Filed(T, AddProperties(T, v, ps)) && AddProperties(T, v, ps).objectId == v.objectId
    decreases |ps|
  {
    if ps != [] {
      FilingKeeps(T, v, ps[0]);
      hide Filed;
      FilingAllKeeps(T, AddProperty(T, v, ps[0]), ps[1..]);
    }
  }

  lemma {:induction false} FiledIsCanonical(T: Tables, v: Value)
    requires v.VObject? && Filed(T, v)
    ensures CanonicalKeys(T, v)
  {
    KeySets(v);
    forall i | 0 <= i < |v.properties|
      ensures FiledRight(T, v.objectId, v.properties[i].0, v.keys)
    {
      var k := v.properties[i].0;
      assert HasKey(v.properties, k);
      if k.Name? {
        assert k == Name(k.name);
      } else {
        assert k == Num(k.num);
      }
    }
  }

  lemma {:induction false} ObjectSettles(T: Tables, data: Bytes, o: nat, size: nat)
    requires o + size <= |data|
    ensures var r := ParseObject(T, data, o, size);
      r.Ok? ==> Settled(T, r.value, T_OBJECT)
  {
    hide ParseProperties, CanonicalProperties, CanonicalKeys, AddProperties;
    var r := ParseObject(T, data, o, size);
    if r.Ok? {
      var objectType, objectId := if size < 8 then 0 else U32At(data, o), if size < 8 then 0 else U32At(data, o + 4);
      var start := VObject(objectType, objectId, [], map[], map[]);
      var ps := if size < 8 then [] else ParseProperties(T, objectId, data, o + 8, o + size).value;
      NothingFiled(T, start);
      FilingAllKeeps(T, start, ps);
      FiledIsCanonical(T, AddProperties(T, start, ps));
      assert r.value == AddProperties(T, start, ps);
      hide Filed;
    }
  }

  lemma {:induction false} NothingFiled(T: Tables, v: Value)
    requires v.VObject? && v.properties == [] && v.flags == map[] && v.keys == map[]
    ensures Filed(T, v) && AddProperties(T, v, []) == v
  {
  }

  /**
    * For any bytes that parse, the value built again, with the type it had or with the inferred one,
    * comes back as the same value exactly when it holds no raw bytes as an embedded pod and every
    * property value in it is in the form its spec presents.
    */
  lemma {:induction false} ReparseIff(T: Tables, data: Bytes, offset: nat, pre: Bytes, post: Bytes)
    requires Parse(T, data, offset).Ok?
    ensures var v, ty := Parse(T, data, offset).value, U32At(data, offset + 4);
      && (BuildAs(T, v, ty).Ok? ==>
           (Parse(T, pre + BuildAs(T, v, ty).value + post, |pre|) == Ok(v) <==> Holds(T, v)))
      && (Build(T, v).Ok? ==>
           (Parse(T, pre + Build(T, v).value + post, |pre|) == Ok(v) <==> Holds(T, v)))
  {
    var v, ty := Parse(T, data, offset).value, U32At(data, offset + 4);
    ParsedSettles(T, data, offset + 8, U32At(data, offset), ty);
    assert Settled(T, v, ty);
    hide ParseBody, BuildBody, Canonical, Holds;
    if BuildAs(T, v, ty).Ok? { RoundTripIff(T, v, ty, pre, post); }
    if Build(T, v).Ok? { RoundTripIff(T, v, InferType(v).value, pre, post); }
  }

  // Parsed arrays of strings, which need not build again at all.

  /** Every string and its terminator fill the slot. */
  predicate FillSlots(items: seq<Value>, childSize: int) {
    forall i :: 0 <= i < |items| ==> items[i].VStr? && |items[i].s| + 1 == childSize
  }

  predicate Strings(items: seq<Value>) {
    forall i :: 0 <= i < |items| ==> items[i].VStr?
  }

  lemma {:induction false} ParsedStrings(T: Tables, data: Bytes, current: nat, end: nat, childSize: nat)
    requires current <= end <= |data| && FitsU32(childSize)
    ensures var r := ParseItems(T, data, current, end, childSize, T_STRING);
      r.Ok? && Strings(r.value) && AllHold(T, r.value) && |r.value| * childSize <= end - current
    decreases end - current
  {
    hide ParseBody, Holds, U32;
    if childSize > 0 && current + childSize <= end {
      var podData := U32(childSize) + U32(T_STRING) + data[current..current + childSize];
      ParsedString(T, podData, 8, childSize);
      ParsedStrings(T, data, current + childSize, end, childSize);
      var r := ParseItems(T, data, current, end, childSize, T_STRING);
      var tail := ParseItems(T, data, current + childSize, end, childSize, T_STRING);
      assert r.value[1..] == tail.value;
      OneMore(|tail.value|, childSize);
    }
  }

  lemma {:induction false} ParsedString(T: Tables, data: Bytes, o: nat, size: nat)
    requires o + size <= |data|
    ensures var r := ParseBody(T, data, o, size, T_STRING);
      r.Ok? && r.value.VStr? && Holds(T, r.value)
  {
  }

  lemma {:induction false} OneMore(n: nat, size: int)
    ensures (n + 1) * size == n * size + size
  {
  }

  lemma {:induction false} StringsBuildIff(T: Tables, items: seq<Value>, childSize: int)
    requires Strings(items) && FitsU32(childSize)
    ensures var r := BuildItems(T, items, T_STRING, Some(childSize));
      && (r.Ok? <==> FillSlots(items, childSize))
      && (r.Ok? ==> r.value.0 == childSize && |r.value.1| == |items| * childSize)
    decreases |items|
  {
    if items != [] {
      StringsBuildIff(T, items[1..], childSize);
      assert BuildBody(T, items[0], T_STRING) == Ok(items[0].s + [0]);
      assert FillSlots(items, childSize) <==> |items[0].s| + 1 == childSize && FillSlots(items[1..], childSize);
    }
  }

  lemma {:induction false} StringArrayBuilds(T: Tables, childSize: int, items: seq<Value>)
    requires FitsU32(childSize) && Strings(items) && FitsU32(8 + |items| * childSize)
    ensures Build(T, VArray(Some(childSize), Some(T_STRING), items)).Ok? <==> FillSlots(items, childSize)
  {
    var v := VArray(Some(childSize), Some(T_STRING), items);
    StringsBuildIff(T, items, childSize);
    hide BuildItems, FillSlots, Strings;
    assert BuildBody(T, v, T_ARRAY) == BuildArray(T, v);
  }

  lemma {:induction false} StringArrayParses(T: Tables, data: Bytes, offset: nat)
    requires offset + 16 <= |data| && offset + 8 + U32At(data, offset) <= |data| && U32At(data, offset) >= 8
    requires U32At(data, offset + 4) == T_ARRAY && U32At(data, offset + 12) == T_STRING
    ensures var r, childSize := Parse(T, data, offset), U32At(data, offset + 8);
      && r.Ok? && r.value.VArray?
      && r.value == VArray(Some(childSize), Some(T_STRING), r.value.items)
      && Strings(r.value.items) && FitsU32(8 + |r.value.items| * childSize)
      && Holds(T, r.value)
  {
    var size, childSize := U32At(data, offset), U32At(data, offset + 8);
    ParsedStrings(T, data, offset + 16, offset + 8 + size, childSize);
    hide ParseItems, U32At, AllHold, Strings;
    assert Parse(T, data, offset) == ParseArray(T, data, offset + 8, size);
  }

  /**
    * A parsed array of strings builds again, and then comes back, exactly when every string ends on
    * the last byte of its slot.
    */
  lemma {:induction false} StringArrayIff(T: Tables, data: Bytes, offset: nat, pre: Bytes, post: Bytes)
    requires offset + 16 <= |data| && offset + 8 + U32At(data, offset) <= |data| && U32At(data, offset) >= 8
    requires U32At(data, offset + 4) == T_ARRAY && U32At(data, offset + 12) == T_STRING
    ensures var r := Parse(T, data, offset);
      && r.Ok? && r.value.VArray? && r.value.childSize == Some(U32At(data, offset + 8))
      && (Build(T, r.value).Ok? <==> FillSlots(r.value.items, U32At(data, offset + 8)))
      && (Build(T, r.value).Ok? ==> Parse(T, pre + Build(T, r.value).value + post, |pre|) == r)
  {
    hide Parse, Build, FillSlots, Strings, Holds, U32At, BuildAs;
    StringArrayParses(T, data, offset);
    StringArrayBuilds(T, U32At(data, offset + 8), Parse(T, data, offset).value.items);
    ReparseIff(T, data, offset, pre, post);
  }
}
