/** Parsing a built pod, wherever it lies in a buffer, yields exactly its normal form. */
module PodRoundTrip {
  import opened Wrappers
  import opened Wire
  import opened PodValues
  import opened PodShapes
  import opened PodCodec

  /** A parse result agrees with a normal form that does not depend on raw embedded bytes. */
  ghost predicate Agrees<A>(parsed: Result<A, Error>, normal: Result<A, Error>) {
    normal == Err(RawBytes) || parsed == normal
  }

  /** A pod is its header, its body and padding to a multiple of eight bytes. */
  lemma FramedPod(ty: int, body: Bytes, data: Bytes, offset: nat)
    requires PackPod(ty, body).Ok? && Has(data, offset, PackPod(ty, body).value)
    ensures var pod := PackPod(ty, body).value;
      && FitsU32(|body|) && FitsU32(ty)
      && |pod| == Align8(8 + |body|)
      && U32At(data, offset) == |body| && U32At(data, offset + 4) == ty
      && Has(data, offset + 8, body)
  {
    var padding := Zeros(Align8(8 + |body|) - (8 + |body|));
    HasSplit(data, offset, U32(|body|) + U32(ty) + body, padding);
    HasSplit(data, offset, U32(|body|) + U32(ty), body);
    ReadPair(data, offset, |body|, ty);
  }

  lemma ReadPair(data: Bytes, offset: nat, a: int, b: int)
    requires FitsU32(a) && FitsU32(b) && Has(data, offset, U32(a) + U32(b))
    ensures U32At(data, offset) == a && U32At(data, offset + 4) == b
  {
    HasSplit(data, offset, U32(a), U32(b));
    ReadU32(data, offset, a);
    ReadU32(data, offset + 4, b);
  }

  /** A pod followed by more bytes. */
  lemma FramedPodThen(ty: int, body: Bytes, rest: Bytes, data: Bytes, offset: nat)
    requires PackPod(ty, body).Ok? && Has(data, offset, PackPod(ty, body).value + rest)
    ensures var next := offset + Align8(8 + |body|);
      && FitsU32(|body|) && FitsU32(ty)
      && |PackPod(ty, body).value + rest| == next - offset + |rest|
      && next + |rest| <= |data|
      && U32At(data, offset) == |body| && U32At(data, offset + 4) == ty
      && Has(data, offset + 8, body)
      && Has(data, next, rest)
  {
    HasSplit(data, offset, PackPod(ty, body).value, rest);
    FramedPod(ty, body, data, offset);
  }

  /** An object property or a sequence control: two words and a pod, followed by more bytes. */
  lemma FramedEntry(a: int, b: int, ty: int, body: Bytes, rest: Bytes, data: Bytes, offset: nat)
    requires PackU32Pair(a, b).Ok? && PackPod(ty, body).Ok?
    requires Has(data, offset, PackU32Pair(a, b).value + PackPod(ty, body).value + rest)
    ensures var next := offset + 8 + Align8(8 + |body|);
      && FitsU32(|body|) && FitsU32(ty)
      && |PackU32Pair(a, b).value + PackPod(ty, body).value + rest| == next - offset + |rest|
      && next + |rest| <= |data|
      && U32At(data, offset) == a && U32At(data, offset + 4) == b
      && U32At(data, offset + 8) == |body| && U32At(data, offset + 12) == ty
      && Has(data, offset + 16, body)
      && Has(data, next, rest)
  {
    var head, pod := U32(a) + U32(b), PackPod(ty, body).value;
    assert head + pod + rest == head + (pod + rest);
    HasSplit(data, offset, head, pod + rest);
    ReadPair(data, offset, a, b);
    FramedPodThen(ty, body, rest, data, offset + 8);
  }

  // Scalars, strings and byte bodies.

  lemma ParseWord(v: Value, ty: int, data: Bytes, o: nat)
    requires ty == T_BOOL || ty == T_ID || ty == T_INT || ty == T_FLOAT
    requires BuildLeaf(v, ty).Ok? && Has(data, o, BuildLeaf(v, ty).value)
    ensures ParseLeaf(data, o, |BuildLeaf(v, ty).value|, ty) == NormalizeLeaf(v, ty)
  {
    if ty == T_BOOL {
      ReadU32(data, o, if Truthy(v) then 1 else 0);
    } else if ty == T_ID {
      ReadU32(data, o, AsInt(v).value);
    } else if ty == T_INT {
      ReadU32(data, o, Wrap(AsInt(v).value, U32_LIMIT));
    } else {
      ReadU32(data, o, v.f.bits);
    }
  }

  lemma ParseLong(v: Value, ty: int, data: Bytes, o: nat)
    requires ty == T_LONG || ty == T_FD || ty == T_DOUBLE
    requires BuildLeaf(v, ty).Ok? && Has(data, o, BuildLeaf(v, ty).value)
    ensures ParseLeaf(data, o, |BuildLeaf(v, ty).value|, ty) == NormalizeLeaf(v, ty)
  {
    if ty == T_DOUBLE {
      ReadU64(data, o, v.f.bits);
    } else {
      ReadU64(data, o, Wrap(AsInt(v).value, U64_LIMIT));
    }
  }

  lemma ParsePairOfWords(v: Value, ty: int, data: Bytes, o: nat)
    requires ty == T_RECTANGLE || ty == T_FRACTION
    requires BuildLeaf(v, ty).Ok? && Has(data, o, BuildLeaf(v, ty).value)
    ensures ParseLeaf(data, o, |BuildLeaf(v, ty).value|, ty) == NormalizeLeaf(v, ty)
  {
    if ty == T_RECTANGLE {
      ReadPair(data, o, v.width, v.height);
    } else {
      ReadPair(data, o, v.num, v.denom);
    }
  }

  lemma ParsePointer(v: Value, ty: int, data: Bytes, o: nat)
    requires ty == T_POINTER
    requires BuildLeaf(v, ty).Ok? && Has(data, o, BuildLeaf(v, ty).value)
    ensures ParseLeaf(data, o, |BuildLeaf(v, ty).value|, ty) == NormalizeLeaf(v, ty)
  {
    HasSplit(data, o, U32(v.pointerType) + U32(0), U64(v.address));
    ReadPair(data, o, v.pointerType, 0);
    ReadU64(data, o + 8, v.address);
  }

  lemma ParseBytes(v: Value, ty: int, data: Bytes, o: nat)
    requires ty == T_NONE || ty == T_STRING || ty == T_BYTES || ty == T_BITMAP
    requires BuildLeaf(v, ty).Ok? && Has(data, o, BuildLeaf(v, ty).value)
    ensures ParseLeaf(data, o, |BuildLeaf(v, ty).value|, ty) == NormalizeLeaf(v, ty)
  {
    if ty == T_STRING {
      UntilNulTerminated(v.s);
    }
  }

  /** Building without a given type is building with the inferred one. */
  lemma BuildInferred(T: Tables, v: Value)
    requires Build(T, v).Ok?
    ensures InferType(v).Ok? && BuildBody(T, v, InferType(v).value).Ok?
    ensures Build(T, v) == PackPod(InferType(v).value, BuildBody(T, v, InferType(v).value).value)
  {
    assert BuildAs(T, v, InferType(v).value).Ok?;
  }

  /** The central fact, on pod bodies: where a built body lies, parsing it yields its normal form. */
  lemma {:induction false} ParseBuiltBody(T: Tables, v: Value, ty: int, data: Bytes, o: nat)
    requires BuildBody(T, v, ty).Ok? && Has(data, o, BuildBody(T, v, ty).value)
    ensures Agrees(ParseBody(T, data, o, |BuildBody(T, v, ty).value|, ty), Normalize(T, v, ty))
    decreases Size(v), 2
  {
    hide ParseLeaf, BuildLeaf, NormalizeLeaf;
    if ty == T_ARRAY {
      ParseBuiltArray(T, v, data, o);
    } else if ty == T_STRUCT {
      var body := BuildBody(T, v, ty).value;
      ParseBuiltPods(T, ItemsOf(v).value, data, o, o + |body|);
    } else if ty == T_OBJECT {
      ParseBuiltObject(T, v, data, o);
    } else if ty == T_SEQUENCE {
      ParseBuiltSequence(T, v, data, o);
    } else if ty == T_CHOICE {
      ParseBuiltChoice(T, v, data, o);
    } else if ty == T_POD {
      ParseBuiltEmbedded(T, v, data, o);
    } else {
      ParseBuiltLeaf(v, ty, data, o);
    }
  }

  lemma ParseBuiltLeaf(v: Value, ty: int, data: Bytes, o: nat)
    requires !IsContainer(ty) && BuildLeaf(v, ty).Ok? && Has(data, o, BuildLeaf(v, ty).value)
    ensures ParseLeaf(data, o, |BuildLeaf(v, ty).value|, ty) == NormalizeLeaf(v, ty)
  {
    assert ty == T_BOOL || ty == T_ID || ty == T_INT || ty == T_FLOAT || ty == T_LONG || ty == T_FD || ty == T_DOUBLE
        || ty == T_RECTANGLE || ty == T_FRACTION || ty == T_POINTER
        || ty == T_NONE || ty == T_STRING || ty == T_BYTES || ty == T_BITMAP;
    hide ParseLeaf, BuildLeaf, NormalizeLeaf;
    if ty == T_BOOL || ty == T_ID || ty == T_INT || ty == T_FLOAT {
      ParseWord(v, ty, data, o);
    } else if ty == T_LONG || ty == T_FD || ty == T_DOUBLE {
      ParseLong(v, ty, data, o);
    } else if ty == T_RECTANGLE || ty == T_FRACTION {
      ParsePairOfWords(v, ty, data, o);
    } else if ty == T_POINTER {
      ParsePointer(v, ty, data, o);
    } else {
      ParseBytes(v, ty, data, o);
    }
  }

  lemma {:induction false} ParseBuiltEmbedded(T: Tables, v: Value, data: Bytes, o: nat)
    requires BuildEmbedded(T, v).Ok? && Has(data, o, BuildEmbedded(T, v).value)
    ensures Agrees(ParseEmbedded(T, data, o, |BuildEmbedded(T, v).value|), NormalizeEmbedded(T, v))
    decreases Size(v), 1
  {
    if v.VPod? && !v.pod.VBytes? {
      BuildInferred(T, v.pod);
      var inner := InferType(v.pod).value;
      FramedPod(inner, BuildBody(T, v.pod, inner).value, data, o);
      ParseBuiltBody(T, v.pod, inner, data, o + 8);
      hide ParseBody, BuildBody, Normalize;
    }
  }

  lemma {:induction false} ParseBuiltArray(T: Tables, v: Value, data: Bytes, o: nat)
    requires BuildArray(T, v).Ok? && Has(data, o, BuildArray(T, v).value)
    ensures Agrees(ParseArray(T, data, o, |BuildArray(T, v).value|), NormalizeArray(T, v))
    decreases Size(v), 0
  {
    var items, childType := ItemsOf(v).value, ItemType(v).value;
    var (childSize, bodies) := BuildItems(T, items, childType, ChildSizeOf(v)).value;
    HasSplit(data, o, U32(childSize) + U32(childType), bodies);
    ReadPair(data, o, childSize, childType);
    if childSize != 0 {
      ParseBuiltItems(T, items, childType, ChildSizeOf(v), data, o + 8, o + 8 + |bodies|);
    }
  }

  /** The four words that open a choice body, and the items after them. */
  lemma ReadChoiceHead(data: Bytes, o: nat, a: int, b: int, c: int, d: int, bodies: Bytes)
    requires FitsU32(a) && FitsU32(b) && FitsU32(c) && FitsU32(d)
    requires Has(data, o, (U32(a) + U32(b)) + (U32(c) + U32(d)) + bodies)
    ensures U32At(data, o) == a && U32At(data, o + 4) == b && U32At(data, o + 8) == c && U32At(data, o + 12) == d
    ensures Has(data, o + 16, bodies)
  {
    var kind, head := U32(a) + U32(b), U32(c) + U32(d);
    HasSplit(data, o, kind + head, bodies);
    HasSplit(data, o, kind, head);
    ReadPair(data, o, a, b);
    ReadPair(data, o + 8, c, d);
  }

  /** A choice body is built from its four words and its items. */
  lemma ChoiceBuilt(T: Tables, v: Value) returns (childType: int, childSize: int, bodies: Bytes)
    requires BuildChoice(T, v).Ok?
    ensures v.VChoice? && ItemType(v) == Ok(childType)
    ensures BuildItems(T, v.items, childType, v.childSize) == Ok((childSize, bodies))
    ensures FitsU32(v.choiceType) && FitsU32(v.choiceFlags) && FitsU32(childSize) && FitsU32(childType)
    ensures BuildChoice(T, v).value
         == (U32(v.choiceType) + U32(v.choiceFlags)) + (U32(childSize) + U32(childType)) + bodies
    ensures NormalizeChoice(T, v)
         == (var normal := if childSize == 0 then Ok([]) else NormalizeItems(T, v.items, childType);
             if normal.Err? then Err(normal.error)
             else Ok(VChoice(v.choiceType, v.choiceFlags, Some(childSize), Some(childType), normal.value)))
  {
    hide BuildItems, NormalizeItems, U32;
    childType := ItemType(v).value;
    childSize, bodies := BuildItems(T, v.items, childType, v.childSize).value.0, BuildItems(T, v.items, childType, v.childSize).value.1;
  }

  lemma {:induction false} ParseBuiltChoice(T: Tables, v: Value, data: Bytes, o: nat)
    requires BuildChoice(T, v).Ok? && Has(data, o, BuildChoice(T, v).value)
    ensures Agrees(ParseChoice(T, data, o, |BuildChoice(T, v).value|), NormalizeChoice(T, v))
    decreases Size(v), 0
  {
    var childType, childSize, bodies := ChoiceBuilt(T, v);
    ReadChoiceHead(data, o, v.choiceType, v.choiceFlags, childSize, childType, bodies);
    hide BuildChoice, NormalizeChoice, BuildItems, NormalizeItems, ItemType, U32At;
    if childSize != 0 {
      ParseBuiltItems(T, v.items, childType, v.childSize, data, o + 16, o + 16 + |bodies|);
      hide ParseItems, Has;
    }
  }

  lemma {:induction false} ParseBuiltItems(T: Tables, items: seq<Value>, childType: int, given: Option<int>,
                                           data: Bytes, current: nat, end: nat)
    requires FitsU32(childType) && BuildItems(T, items, childType, given).Ok?
    requires var (childSize, bodies) := BuildItems(T, items, childType, given).value;
      FitsU32(childSize) && childSize != 0 && Has(data, current, bodies) && end == current + |bodies|
    ensures var (childSize, bodies) := BuildItems(T, items, childType, given).value;
      Agrees(ParseItems(T, data, current, end, childSize, childType), NormalizeItems(T, items, childType))
    decreases SizeSeq(items), 0
  {
    hide ParseBody, BuildBody, Normalize, PackPod, PackU32Pair, U32At, Specialize, Prepare, PrepareProperty;
    if items != [] {
      var body := BuildBody(T, items[0], childType).value;
      ItemsKeepSize(T, items[1..], childType, |body|);
      var rest := BuildItems(T, items[1..], childType, Some(|body|)).value.1;
      HasSplit(data, current, body, rest);
      var podData := U32(|body|) + U32(childType) + data[current..current + |body|];
      HasIn(U32(|body|) + U32(childType), body, []);
      assert podData == U32(|body|) + U32(childType) + body + [];
      ParseBuiltBody(T, items[0], childType, podData, 8);
      ParseBuiltItems(T, items[1..], childType, Some(|body|), data, current + |body|, end);
    }
  }

  /** Once a child size is fixed, building more items keeps it. */
  lemma {:induction false} ItemsKeepSize(T: Tables, items: seq<Value>, childType: int, childSize: int)
    requires BuildItems(T, items, childType, Some(childSize)).Ok?
    ensures BuildItems(T, items, childType, Some(childSize)).value.0 == childSize
    decreases |items|
  {
    if items != [] {
      ItemsKeepSize(T, items[1..], childType, childSize);
    }
  }

  lemma {:induction false} ParseBuiltPods(T: Tables, items: seq<Value>, data: Bytes, current: nat, end: nat)
    requires BuildPods(T, items).Ok? && Has(data, current, BuildPods(T, items).value)
    requires end == current + |BuildPods(T, items).value|
    ensures Agrees(ParsePods(T, data, current, end), NormalizePods(T, items))
    decreases SizeSeq(items), 0
  {
    hide ParseBody, BuildBody, Normalize, PackPod, PackU32Pair, U32At, Specialize, Prepare, PrepareProperty;
    if items != [] {
      BuildInferred(T, items[0]);
      var ty := InferType(items[0]).value;
      var body := BuildBody(T, items[0], ty).value;
      FramedPodThen(ty, body, BuildPods(T, items[1..]).value, data, current);
      ParseBuiltBody(T, items[0], ty, data, current + 8);
      ParseBuiltPods(T, items[1..], data, current + Align8(8 + |body|), end);
    }
  }

  lemma {:induction false} ParseBuiltSequence(T: Tables, v: Value, data: Bytes, o: nat)
    requires BuildSequence(T, v).Ok? && Has(data, o, BuildSequence(T, v).value)
    ensures Agrees(ParseSequence(T, data, o, |BuildSequence(T, v).value|),
                   NormalizeSequence(T, v))
    decreases Size(v), 0
  {
    hide ParseProperties, BuildProperties, NormalizeProperties, ParseControls, BuildControls, NormalizeControls, Assemble, U32At;
    var chunks := BuildControls(T, v.controls).value;
    HasSplit(data, o, U32(v.unit) + U32(0), chunks);
    ReadPair(data, o, v.unit, 0);
    ParseBuiltControls(T, v.controls, data, o + 8, o + 8 + |chunks|);
  }

  lemma {:induction false} ParseBuiltControls(T: Tables, controls: seq<Control>, data: Bytes, current: nat, end: nat)
    requires BuildControls(T, controls).Ok? && Has(data, current, BuildControls(T, controls).value)
    requires end == current + |BuildControls(T, controls).value|
    ensures Agrees(ParseControls(T, data, current, end), NormalizeControls(T, controls))
    decreases SizeControls(controls), 0
  {
    hide ParseBody, BuildBody, Normalize, PackPod, PackU32Pair, U32At, Specialize, Prepare, PrepareProperty;
    if controls != [] {
      var value := controls[0].value;
      BuildInferred(T, value);
      var ty := InferType(value).value;
      var body := BuildBody(T, value, ty).value;
      FramedEntry(controls[0].offset, controls[0].kind, ty, body,
                  BuildControls(T, controls[1..]).value, data, current);
      ParseBuiltBody(T, value, ty, data, current + 16);
      ParseBuiltControls(T, controls[1..], data, current + 8 + Align8(8 + |body|), end);
    }
  }

  lemma {:induction false} ParseBuiltObject(T: Tables, v: Value, data: Bytes, o: nat)
    requires BuildObject(T, v).Ok? && Has(data, o, BuildObject(T, v).value)
    ensures Agrees(ParseObject(T, data, o, |BuildObject(T, v).value|), NormalizeObject(T, v))
    decreases Size(v), 0
  {
    hide ParseProperties, BuildProperties, NormalizeProperties, ParseControls, BuildControls, NormalizeControls, Assemble, U32At;
    var chunks := BuildProperties(T, v.objectId, v.properties, v.flags, v.keys).value;
    HasSplit(data, o, U32(v.objectType) + U32(v.objectId), chunks);
    ReadPair(data, o, v.objectType, v.objectId);
    ParseBuiltProperties(T, v.objectId, v.properties, v.flags, v.keys, data, o + 8, o + 8 + |chunks|);
  }

  /** What building a non-empty property list is made of. */
  lemma BuildPropertiesStep(T: Tables, objectId: int, properties: Dict<Key, Value>,
                            flags: map<Key, int>, keys: map<Str, int>)
    returns (key: int, prepared: Value, ty: int, body: Bytes, rest: Bytes)
    requires properties != [] && BuildProperties(T, objectId, properties, flags, keys).Ok?
    ensures PrepareProperty(T, objectId, properties[0], keys) == Ok((key, prepared, ty))
    ensures BuildBody(T, prepared, ty) == Ok(body)
    ensures BuildProperties(T, objectId, properties[1..], flags, keys) == Ok(rest)
    ensures PackU32Pair(key, FlagsOf(flags, properties[0].0)).Ok? && PackPod(ty, body).Ok?
    ensures BuildProperties(T, objectId, properties, flags, keys).value
         == PackU32Pair(key, FlagsOf(flags, properties[0].0)).value + PackPod(ty, body).value + rest
  {
    var (k, p, t) := PrepareProperty(T, objectId, properties[0], keys).value;
    assert BuildAs(T, p, t).Ok?;
    key, prepared, ty := k, p, t;
    body := BuildBody(T, p, t).value;
    rest := BuildProperties(T, objectId, properties[1..], flags, keys).value;
  }

  lemma {:induction false} ParseBuiltProperties(
    T: Tables, objectId: int, properties: Dict<Key, Value>, flags: map<Key, int>, keys: map<Str, int>,
    data: Bytes, current: nat, end: nat)
    requires BuildProperties(T, objectId, properties, flags, keys).Ok?
    requires Has(data, current, BuildProperties(T, objectId, properties, flags, keys).value)
    requires end == current + |BuildProperties(T, objectId, properties, flags, keys).value|
    ensures Agrees(ParseProperties(T, objectId, data, current, end),
                   NormalizeProperties(T, objectId, properties, flags, keys))
    decreases SizeDict(properties), 0
  {
    hide ParseBody, BuildBody, Normalize, PackPod, PackU32Pair, U32At, Specialize, Prepare, PrepareProperty;
    if properties != [] {
      var key, prepared, ty, body, rest := BuildPropertiesStep(T, objectId, properties, flags, keys);
      FramedEntry(key, FlagsOf(flags, properties[0].0), ty, body, rest, data, current);
      ParseBuiltBody(T, prepared, ty, data, current + 16);
      ParseBuiltProperties(T, objectId, properties[1..], flags, keys,
                           data, current + 8 + Align8(8 + |body|), end);
    }
  }

  /**
    * Main theorem: a pod built from any value, placed between any bytes, is a whole number of
    * eight-byte words whose header declares its body, and it parses to the value's normal form.
    */
  lemma ParseOfBuild(T: Tables, v: Value, ty: int, pre: Bytes, post: Bytes)
    requires BuildAs(T, v, ty).Ok?
    ensures var pod := BuildAs(T, v, ty).value;
      && |pod| % 8 == 0 && |pod| >= 8
      && U32At(pod, 0) == |BuildBody(T, v, ty).value| && U32At(pod, 4) == ty
      && |pod| == Align8(8 + U32At(pod, 0))
      && Agrees(Parse(T, pre + pod + post, |pre|), Normalize(T, v, ty))
  {
    var pod, body := BuildAs(T, v, ty).value, BuildBody(T, v, ty).value;
    var data := pre + pod + post;
    HasIn(pre, pod, post);
    FramedPod(ty, body, data, |pre|);
    FramedPod(ty, body, pod, 0);
    ParseBuiltBody(T, v, ty, data, |pre| + 8);
  }
}
