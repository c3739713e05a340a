/** Parsing and building of SPA pods, and the value that a built pod parses back to. */
module PodCodec {
  import opened Wrappers
  import opened Wire
  import opened PodValues
  import opened PodShapes

  /** A list of results, failing with its first failure. */
  function Cons<A>(head: Result<A, Error>, tail: Result<seq<A>, Error>): (r: Result<seq<A>, Error>)
    ensures r.Ok? ==> tail.Ok? && |r.value| == 1 + |tail.value|
  {
    var h :- head;
    var t :- tail;
    Ok([h] + t)
  }

  // ---------------------------------------------------------------------------
  // Parsing
  // ---------------------------------------------------------------------------

  /** `parse_spa_pod`. */
  function Parse(T: Tables, data: Bytes, offset: nat): Result<Value, Error> {
    if |data| < offset + 8 then Err(ShortHeader)
    else if |data| < offset + 8 + U32At(data, offset) then Err(ShortBody)
    else ParseBody(T, data, offset + 8, U32At(data, offset), U32At(data, offset + 4))
  }

  /** The pod types whose bodies hold other pods. */
  predicate IsContainer(ty: int) {
    ty == T_ARRAY || ty == T_STRUCT || ty == T_OBJECT || ty == T_SEQUENCE || ty == T_CHOICE || ty == T_POD
  }

  /** The body of a pod of type `ty` that declares `size` bytes from `o` on. */
  function ParseBody(T: Tables, data: Bytes, o: nat, size: nat, ty: int): Result<Value, Error>
    requires o + size <= |data|
    decreases size, 2
  {
    if !IsContainer(ty) then ParseLeaf(data, o, size, ty)
    else if ty == T_ARRAY then ParseArray(T, data, o, size)
    else if ty == T_STRUCT then ParseStruct(T, data, o, size)
    else if ty == T_OBJECT then ParseObject(T, data, o, size)
    else if ty == T_SEQUENCE then ParseSequence(T, data, o, size)
    else if ty == T_CHOICE then ParseChoice(T, data, o, size)
    else ParseEmbedded(T, data, o, size)
  }

  /** A body without nested pods. Fixed-width reads look at the buffer, not at the declared size. */
  function ParseLeaf(data: Bytes, o: nat, size: nat, ty: int): Result<Value, Error>
    requires o + size <= |data|
  {
    if ty == T_NONE then Ok(VNone)
    else if ty == T_BOOL then
      if |data| < o + 4 then Err(StructError) else Ok(VBool(U32At(data, o) != 0))
    else if ty == T_ID then
      if |data| < o + 4 then Err(StructError) else Ok(VInt(U32At(data, o)))
    else if ty == T_INT then
      if |data| < o + 4 then Err(StructError) else Ok(VInt(Unwrap(U32At(data, o), U32_LIMIT)))
    else if ty == T_LONG || ty == T_FD then
      if |data| < o + 8 then Err(StructError) else Ok(VInt(Unwrap(U64At(data, o), U64_LIMIT)))
    else if ty == T_FLOAT then
      if |data| < o + 4 then Err(StructError) else Ok(VFloat(Single(U32At(data, o))))
    else if ty == T_DOUBLE then
      if |data| < o + 8 then Err(StructError) else Ok(VFloat(Double(U64At(data, o))))
    else if ty == T_STRING then Ok(VStr(UntilNul(data[o..o + size])))
    else if ty == T_BYTES then Ok(VBytes(data[o..o + size]))
    else if ty == T_RECTANGLE then
      if |data| < o + 8 then Err(StructError) else Ok(VRectangle(U32At(data, o), U32At(data, o + 4)))
    else if ty == T_FRACTION then
      if |data| < o + 8 then Err(StructError) else Ok(VFraction(U32At(data, o), U32At(data, o + 4)))
    else if ty == T_BITMAP then Ok(VBitmap(data[o..o + size]))
    else if ty == T_POINTER then
      if size < 8 then Ok(VPointer(0, 0))
      else
        Ok(VPointer(U32At(data, o),
                    if size >= 16 then U64At(data, o + 8) else if size >= 12 then U32At(data, o + 8) else 0))
    else Ok(VUnknown(ty, size, data[o..o + size]))
  }

  /** `_parse_array`. */
  function ParseArray(T: Tables, data: Bytes, o: nat, size: nat): Result<Value, Error>
    requires o + size <= |data|
    decreases size, 1
  {
    if size < 8 then Ok(VArray(Some(0), Some(T_NONE), []))
    else
      var childSize, childType := U32At(data, o), U32At(data, o + 4);
      var items :- ParseItems(T, data, o + 8, o + size, childSize, childType);
      Ok(VArray(Some(childSize), Some(childType), items))
  }

  /** `_parse_choice`. */
  function ParseChoice(T: Tables, data: Bytes, o: nat, size: nat): Result<Value, Error>
    requires o + size <= |data|
    decreases size, 1
  {
    if size < 16 then Ok(VChoice(0, 0, Some(0), Some(T_NONE), []))
    else
      var childSize, childType := U32At(data, o + 8), U32At(data, o + 12);
      var items :- ParseItems(T, data, o + 16, o + size, childSize, childType);
      Ok(VChoice(U32At(data, o), U32At(data, o + 4), Some(childSize), Some(childType), items))
  }

  /** `_parse_struct`. */
  function ParseStruct(T: Tables, data: Bytes, o: nat, size: nat): Result<Value, Error>
    requires o + size <= |data|
    decreases size, 1
  {
    var items :- ParsePods(T, data, o, o + size);
    Ok(VStruct(items))
  }

  /** `_parse_object`. */
  function ParseObject(T: Tables, data: Bytes, o: nat, size: nat): Result<Value, Error>
    requires o + size <= |data|
    decreases size, 1
  {
    if size < 8 then Ok(VObject(0, 0, [], map[], map[]))
    else
      var objectType, objectId := U32At(data, o), U32At(data, o + 4);
      var properties :- ParseProperties(T, objectId, data, o + 8, o + size);
      Ok(Assemble(T, objectType, objectId, properties))
  }

  /** `_parse_sequence`. */
  function ParseSequence(T: Tables, data: Bytes, o: nat, size: nat): Result<Value, Error>
    requires o + size <= |data|
    decreases size, 1
  {
    if size < 8 then Ok(VSequence(0, []))
    else
      var controls :- ParseControls(T, data, o + 8, o + size);
      Ok(VSequence(U32At(data, o), controls))
  }

  /** `_parse_embedded_pod`. */
  function ParseEmbedded(T: Tables, data: Bytes, o: nat, size: nat): Result<Value, Error>
    requires o + size <= |data|
    decreases size, 1
  {
    if size < 8 then Ok(VPod(VNone))
    else if Align8(8 + U32At(data, o)) > size then Err(EmbeddedTooLarge)
    else
      var pod :- ParseBody(T, data, o + 8, U32At(data, o), U32At(data, o + 4));
      Ok(VPod(pod))
  }

  /** The items of an array or choice: each is parsed as a pod of its own, cut out of the body. */
  function ParseItems(T: Tables, data: Bytes, current: nat, end: nat, childSize: nat, childType: int)
    : Result<seq<Value>, Error>
    requires current <= end <= |data|
    requires FitsU32(childSize) && FitsU32(childType)
    decreases end - current + 1, 0
  {
    if childSize == 0 || current + childSize > end then Ok([])
    else
      var podData := U32(childSize) + U32(childType) + data[current..current + childSize];
      Cons(ParseBody(T, podData, 8, childSize, childType),
           ParseItems(T, data, current + childSize, end, childSize, childType))
  }

  /** The padded pods of a struct body; a pod that overruns the body ends the list. */
  function ParsePods(T: Tables, data: Bytes, current: nat, end: nat): Result<seq<Value>, Error>
    requires current <= end <= |data|
    decreases end - current, 0
  {
    if current + 8 > end || current + Align8(8 + U32At(data, current)) > end then Ok([])
    else
      Cons(ParseBody(T, data, current + 8, U32At(data, current), U32At(data, current + 4)),
           ParsePods(T, data, current + Align8(8 + U32At(data, current)), end))
  }

  /** One property as it stands on the wire, with its value already in presented form. */
  datatype Property = Property(key: int, flags: int, value: Value)

  /** One property with its parsed value put in presented form. */
  function Present(T: Tables, objectId: int, key: int, flags: int, parsed: Result<Value, Error>): Result<Property, Error> {
    var pod :- parsed;
    var value :- Specialize(SpecByKey(T, objectId, key), pod);
    Ok(Property(key, flags, value))
  }

  function ParseProperties(T: Tables, objectId: int, data: Bytes, current: nat, end: nat)
    : Result<seq<Property>, Error>
    requires current <= end <= |data|
    decreases end - current, 0
  {
    if current + 16 > end || current + 8 + Align8(8 + U32At(data, current + 8)) > end then Ok([])
    else
      var parsed := ParseBody(T, data, current + 16, U32At(data, current + 8), U32At(data, current + 12));
      Cons(Present(T, objectId, U32At(data, current), U32At(data, current + 4), parsed),
           ParseProperties(T, objectId, data, current + 8 + Align8(8 + U32At(data, current + 8)), end))
  }

  function WithValue(offset: int, kind: int, parsed: Result<Value, Error>): Result<Control, Error> {
    var value :- parsed;
    Ok(Control(offset, kind, value))
  }

  function ParseControls(T: Tables, data: Bytes, current: nat, end: nat): Result<seq<Control>, Error>
    requires current <= end <= |data|
    decreases end - current, 0
  {
    if current + 16 > end || current + 8 + Align8(8 + U32At(data, current + 8)) > end then Ok([])
    else
      var parsed := ParseBody(T, data, current + 16, U32At(data, current + 8), U32At(data, current + 12));
      Cons(WithValue(U32At(data, current), U32At(data, current + 4), parsed),
           ParseControls(T, data, current + 8 + Align8(8 + U32At(data, current + 8)), end))
  }

  /** The dictionary key a numeric property key is filed under. */
  function StorageKey(T: Tables, objectId: int, key: int): Key {
    var spec := SpecByKey(T, objectId, key);
    if spec.Some? then Name(spec.value.name) else Num(key)
  }

  function AddProperty(T: Tables, v: Value, p: Property): (r: Value)
    requires v.VObject?
    ensures r.VObject?
  {
    var k := StorageKey(T, v.objectId, p.key);
    v.(properties := Put(v.properties, k, p.value),
       flags := v.flags[k := p.flags],
       keys := if k.Name? then v.keys[k.name := p.key] else v.keys)
  }

  function AddProperties(T: Tables, v: Value, properties: seq<Property>): (r: Value)
    requires v.VObject?
    ensures r.VObject?
    decreases |properties|
  {
    if properties == [] then v else AddProperties(T, AddProperty(T, v, properties[0]), properties[1..])
  }

  /** The object value with these properties, entered in order. */
  function Assemble(T: Tables, objectType: int, objectId: int, properties: seq<Property>): (r: Value)
    ensures r.VObject?
  {
    AddProperties(T, VObject(objectType, objectId, [], map[], map[]), properties)
  }

  // ---------------------------------------------------------------------------
  // Building
  // ---------------------------------------------------------------------------

  /** `_explicit_pod_type`: the type marker a structured value carries. */
  function ExplicitType(v: Value): Option<int> {
    match v
    case VRectangle(_, _) => Some(T_RECTANGLE)
    case VFraction(_, _) => Some(T_FRACTION)
    case VBitmap(_) => Some(T_BITMAP)
    case VArray(_, _, _) => Some(T_ARRAY)
    case VStruct(_) => Some(T_STRUCT)
    case VObject(_, _, _, _, _) => Some(T_OBJECT)
    case VSequence(_, _) => Some(T_SEQUENCE)
    case VPointer(_, _) => Some(T_POINTER)
    case VChoice(_, _, _, _, _) => Some(T_CHOICE)
    case VPod(_) => Some(T_POD)
    case VUnknown(podType, _, _) => Some(podType)
    case _ => None
  }

  /** `_infer_spa_type`. */
  function InferType(v: Value): Result<int, Error> {
    if ExplicitType(v).Some? then Ok(ExplicitType(v).value)
    else match v
      case VNone => Ok(T_NONE)
      case VBool(_) => Ok(T_BOOL)
      case VEnum(_) => Ok(T_ID)
      case VInt(i) => Ok(if FitsI32(i) then T_INT else T_LONG)
      case VFloat(_) => Ok(T_FLOAT)
      case VStr(_) => Ok(T_STRING)
      case VBytes(_) => Ok(T_BYTES)
      case VList(_) => Ok(T_STRUCT)
      case _ => Err(Mismatch)
  }

  /** Python truth of a value. */
  predicate Truthy(v: Value) {
    match v
    case VNone => false
    case VBool(b) => b
    case VInt(i) => i != 0
    case VEnum(i) => i != 0
    case VFloat(Single(bits)) => bits != 0 && bits != 0x8000_0000
    case VFloat(Double(bits)) => bits != 0 && bits != 0x8000_0000_0000_0000
    case VStr(s) => s != []
    case VBytes(b) => b != []
    case VList(items) => items != []
    case VDict(entries) => entries != []
    case VObject(_, _, properties, _, _) => properties != []
    case _ => true
  }

  /** `struct.pack` of unsigned words, refusing a value out of range. */
  function PackU32(n: int): Result<Bytes, Error> {
    if FitsU32(n) then Ok(U32(n)) else Err(StructError)
  }

  function PackU32Pair(a: int, b: int): Result<Bytes, Error> {
    if FitsU32(a) && FitsU32(b) then Ok(U32(a) + U32(b)) else Err(StructError)
  }

  /** `_pack_pod`: header, body, and zero padding up to a multiple of eight. */
  function PackPod(ty: int, body: Bytes): Result<Bytes, Error> {
    var header :- PackU32Pair(|body|, ty);
    Ok(header + body + Zeros(Align8(8 + |body|) - (8 + |body|)))
  }

  /** The list a container value is built from. */
  function ItemsOf(v: Value): Result<seq<Value>, Error> {
    match v
    case VArray(_, _, items) => Ok(items)
    case VStruct(items) => Ok(items)
    case VChoice(_, _, _, _, items) => Ok(items)
    case VList(items) => Ok(items)
    case _ => Err(Mismatch)
  }

  function ChildTypeOf(v: Value): Option<int> {
    match v
    case VArray(_, childType, _) => childType
    case VChoice(_, _, _, childType, _) => childType
    case _ => None
  }

  function ChildSizeOf(v: Value): Option<int> {
    match v
    case VArray(childSize, _, _) => childSize
    case VChoice(_, _, childSize, _, _) => childSize
    case _ => None
  }

  /** The type the items of a container are built with. */
  function ItemType(v: Value): Result<int, Error> {
    var items :- ItemsOf(v);
    if ChildTypeOf(v).Some? then Ok(ChildTypeOf(v).value)
    else if items != [] then InferType(items[0])
    else Err(MissingChildType)
  }

  /** `build_spa_pod` with an explicit pod type. */
  function BuildAs(T: Tables, v: Value, ty: int): Result<Bytes, Error>
    decreases Size(v), 3
  {
    var body :- BuildBody(T, v, ty);
    PackPod(ty, body)
  }

  /** `build_spa_pod` with an inferred pod type. */
  function Build(T: Tables, v: Value): Result<Bytes, Error>
    decreases Size(v), 4
  {
    var ty :- InferType(v);
    BuildAs(T, v, ty)
  }

  /** The body of the pod `build_spa_pod(v, ty)`, before `_pack_pod` frames it. */
  function BuildBody(T: Tables, v: Value, ty: int): Result<Bytes, Error>
    decreases Size(v), 2
  {
    if !IsContainer(ty) then BuildLeaf(v, ty)
    else if ty == T_ARRAY then BuildArray(T, v)
    else if ty == T_STRUCT then BuildStruct(T, v)
    else if ty == T_OBJECT then BuildObject(T, v)
    else if ty == T_SEQUENCE then BuildSequence(T, v)
    else if ty == T_CHOICE then BuildChoice(T, v)
    else BuildEmbedded(T, v)
  }

  function BuildLeaf(v: Value, ty: int): Result<Bytes, Error> {
    if ty == T_NONE then Ok([])
    else if ty == T_BOOL then Ok(U32(if Truthy(v) then 1 else 0))
    else if ty == T_ID then
      if AsInt(v).None? then Err(Mismatch) else PackU32(AsInt(v).value)
    else if ty == T_INT then
      if AsInt(v).None? then Err(Mismatch)
      else if !FitsI32(AsInt(v).value) then Err(StructError)
      else Ok(U32(Wrap(AsInt(v).value, U32_LIMIT)))
    else if ty == T_LONG || ty == T_FD then
      if AsInt(v).None? then Err(Mismatch)
      else if !FitsI64(AsInt(v).value) then Err(StructError)
      else Ok(U64(Wrap(AsInt(v).value, U64_LIMIT)))
    else if ty == T_FLOAT then
      if v.VFloat? && v.f.Single? then PackU32(v.f.bits) else Err(Mismatch)
    else if ty == T_DOUBLE then
      if v.VFloat? && v.f.Double? && FitsU64(v.f.bits) then Ok(U64(v.f.bits)) else Err(Mismatch)
    else if ty == T_STRING then
      if v.VStr? then Ok(v.s + [0]) else Err(Mismatch)
    else if ty == T_BYTES then
      if v.VBytes? then Ok(v.bytes) else Err(Mismatch)
    else if ty == T_RECTANGLE then
      if v.VRectangle? then PackU32Pair(v.width, v.height) else Err(Mismatch)
    else if ty == T_FRACTION then
      if v.VFraction? then PackU32Pair(v.num, v.denom) else Err(Mismatch)
    else if ty == T_BITMAP then
      if v.VBitmap? then Ok(v.bits) else if v.VBytes? then Ok(v.bytes) else Err(Mismatch)
    else if ty == T_POINTER then
      if !v.VPointer? then Err(Mismatch)
      else if !FitsU32(v.pointerType) || !FitsU64(v.address) then Err(StructError)
      else Ok(U32(v.pointerType) + U32(0) + U64(v.address))
    else Err(Unsupported)
  }

  /** `_build_array_pod`. */
  function BuildArray(T: Tables, v: Value): Result<Bytes, Error>
    decreases Size(v), 1
  {
    var items :- ItemsOf(v);
    var childType :- ItemType(v);
    var (childSize, bodies) :- BuildItems(T, items, childType, ChildSizeOf(v));
    var head :- PackU32Pair(childSize, childType);
    Ok(head + bodies)
  }

  /** `_build_choice_pod`. */
  function BuildChoice(T: Tables, v: Value): Result<Bytes, Error>
    decreases Size(v), 1
  {
    if !v.VChoice? then Err(Mismatch)
    else
      var childType :- ItemType(v);
      var (childSize, bodies) :- BuildItems(T, v.items, childType, v.childSize);
      var kind :- PackU32Pair(v.choiceType, v.choiceFlags);
      var head :- PackU32Pair(childSize, childType);
      Ok(kind + head + bodies)
  }

  /** `_build_struct_pod`. */
  function BuildStruct(T: Tables, v: Value): Result<Bytes, Error>
    decreases Size(v), 1
  {
    var items :- ItemsOf(v);
    BuildPods(T, items)
  }

  /** `_build_object_pod`. */
  function BuildObject(T: Tables, v: Value): Result<Bytes, Error>
    decreases Size(v), 1
  {
    if !v.VObject? then Err(Mismatch)
    else
      var head :- PackU32Pair(v.objectType, v.objectId);
      var chunks :- BuildProperties(T, v.objectId, v.properties, v.flags, v.keys);
      Ok(head + chunks)
  }

  /** `_build_sequence_pod`. */
  function BuildSequence(T: Tables, v: Value): Result<Bytes, Error>
    decreases Size(v), 1
  {
    if !v.VSequence? then Err(Mismatch)
    else
      var head :- PackU32Pair(v.unit, 0);
      var chunks :- BuildControls(T, v.controls);
      Ok(head + chunks)
  }

  /** `_build_embedded_pod`. */
  function BuildEmbedded(T: Tables, v: Value): Result<Bytes, Error>
    decreases Size(v), 1
  {
    if v.VBytes? then RawPod(v.bytes)
    else if !v.VPod? then Err(Mismatch)
    else if v.pod.VBytes? then RawPod(v.pod.bytes)
    else Build(T, v.pod)
  }

  /** Bytes given as an embedded pod: the header decides how many of them are kept. */
  function RawPod(raw: Bytes): Result<Bytes, Error> {
    if |raw| < 8 then Err(ShortHeader)
    else
      var total := Align8(8 + U32At(raw, 0));
      Ok(if total <= |raw| then raw[..total] else raw)
  }

  /** The unpadded bodies of array or choice items, which must agree on one size. */
  function BuildItems(T: Tables, items: seq<Value>, childType: int, childSize: Option<int>)
    : Result<(int, Bytes), Error>
    decreases SizeSeq(items), 0
  {
    if items == [] then Ok((if childSize.Some? then childSize.value else 0, []))
    else
      var body :- BuildBody(T, items[0], childType);
      if !FitsU32(|body|) || !FitsU32(childType) then Err(StructError)
      else if childSize.Some? && childSize.value != |body| then Err(MixedChildSize)
      else
        var (size, rest) :- BuildItems(T, items[1..], childType, Some(|body|));
        Ok((size, body + rest))
  }

  function BuildPods(T: Tables, items: seq<Value>): Result<Bytes, Error>
    decreases SizeSeq(items), 0
  {
    if items == [] then Ok([])
    else
      var head :- Build(T, items[0]);
      var tail :- BuildPods(T, items[1..]);
      Ok(head + tail)
  }

  function BuildControls(T: Tables, controls: seq<Control>): Result<Bytes, Error>
    decreases SizeControls(controls), 0
  {
    if controls == [] then Ok([])
    else
      var pod :- Build(T, controls[0].value);
      var head :- PackU32Pair(controls[0].offset, controls[0].kind);
      var tail :- BuildControls(T, controls[1..]);
      Ok(head + pod + tail)
  }

  /** The numeric key a property is written with. */
  function WireKey(T: Tables, objectId: int, key: Key, keys: map<Str, int>): Result<int, Error> {
    match key
    case Num(n) => Ok(n)
    case Name(name) =>
      if name in keys then Ok(keys[name])
      else if SpecByName(T, objectId, name).Some? then Ok(SpecByName(T, objectId, name).value.key)
      else Err(UnknownProperty)
  }

  /** The spec that supplies a property's pod type when its value carries none. */
  function TypeSpec(T: Tables, objectId: int, key: Key): Option<PropertySpec> {
    match key
    case Num(n) => SpecByKey(T, objectId, n)
    case Name(name) => SpecByName(T, objectId, name)
  }

  /** The pod type a prepared property value is built with. */
  function PropertyType(T: Tables, objectId: int, key: Key, prepared: Value): Result<int, Error> {
    var spec := TypeSpec(T, objectId, key);
    if ExplicitType(prepared).Some? then Ok(ExplicitType(prepared).value)
    else if spec.Some? && spec.value.podType.Some? then Ok(spec.value.podType.value)
    else InferType(prepared)
  }

  function FlagsOf(flags: map<Key, int>, key: Key): int {
    if key in flags then flags[key] else 0
  }

  /** The wire key, the prepared value and the pod type of one property. */
  function PrepareProperty(T: Tables, objectId: int, property: (Key, Value), keys: map<Str, int>)
    : (r: Result<(int, Value, int), Error>)
    ensures r.Ok? ==> Size(r.value.1) <= Size(property.1)
  {
    var key :- WireKey(T, objectId, property.0, keys);
    PrepareSize(T, SpecByKey(T, objectId, key), property.1);
    var prepared :- Prepare(T, SpecByKey(T, objectId, key), property.1);
    var ty :- PropertyType(T, objectId, property.0, prepared);
    Ok((key, prepared, ty))
  }

  function BuildProperties(T: Tables, objectId: int, properties: Dict<Key, Value>,
                           flags: map<Key, int>, keys: map<Str, int>): Result<Bytes, Error>
    decreases SizeDict(properties), 0
  {
    if properties == [] then Ok([])
    else
      var (key, prepared, ty) :- PrepareProperty(T, objectId, properties[0], keys);
      var pod :- BuildAs(T, prepared, ty);
      var head :- PackU32Pair(key, FlagsOf(flags, properties[0].0));
      var tail :- BuildProperties(T, objectId, properties[1..], flags, keys);
      Ok(head + pod + tail)
  }

  // ---------------------------------------------------------------------------
  // Meaning
  // ---------------------------------------------------------------------------

  /**
    * What the pod built from `v` as `ty` means once parsed: what survives the wire, told without bytes.
    * Raw bytes embedded as a pod have no such meaning of their own (a malformed scalar among them
    * reads on into whatever follows), so they are reported as `RawBytes`.
    */
  function Normalize(T: Tables, v: Value, ty: int): Result<Value, Error>
    decreases Size(v), 2
  {
    if !IsContainer(ty) then NormalizeLeaf(v, ty)
    else if ty == T_ARRAY then NormalizeArray(T, v)
    else if ty == T_STRUCT then NormalizeStruct(T, v)
    else if ty == T_OBJECT then NormalizeObject(T, v)
    else if ty == T_SEQUENCE then NormalizeSequence(T, v)
    else if ty == T_CHOICE then NormalizeChoice(T, v)
    else NormalizeEmbedded(T, v)
  }

  /** A leaf survives, except that integers forget their kind and strings end at a NUL. */
  function NormalizeLeaf(v: Value, ty: int): Result<Value, Error> {
    if ty == T_NONE then Ok(VNone)
    else if ty == T_BOOL then Ok(VBool(Truthy(v)))
    else if ty == T_ID || ty == T_INT || ty == T_LONG || ty == T_FD then
      if AsInt(v).None? then Err(Mismatch) else Ok(VInt(AsInt(v).value))
    else if ty == T_STRING then
      if v.VStr? then Ok(VStr(UntilNul(v.s))) else Err(Mismatch)
    else if ty == T_BITMAP && v.VBytes? then Ok(VBitmap(v.bytes))
    else Ok(v)
  }

  /** An array keeps its items unless they have no size, in which case it comes back empty. */
  function NormalizeArray(T: Tables, v: Value): Result<Value, Error>
    decreases Size(v), 1
  {
    var items :- ItemsOf(v);
    var childType :- ItemType(v);
    var (childSize, _) :- BuildItems(T, items, childType, ChildSizeOf(v));
    var normal :- if childSize == 0 then Ok([]) else NormalizeItems(T, items, childType);
    Ok(VArray(Some(childSize), Some(childType), normal))
  }

  function NormalizeChoice(T: Tables, v: Value): Result<Value, Error>
    decreases Size(v), 1
  {
    if !v.VChoice? then Err(Mismatch)
    else
      var childType :- ItemType(v);
      var (childSize, _) :- BuildItems(T, v.items, childType, v.childSize);
      var normal :- if childSize == 0 then Ok([]) else NormalizeItems(T, v.items, childType);
      Ok(VChoice(v.choiceType, v.choiceFlags, Some(childSize), Some(childType), normal))
  }

  function NormalizeStruct(T: Tables, v: Value): Result<Value, Error>
    decreases Size(v), 1
  {
    var items :- ItemsOf(v);
    var pods :- NormalizePods(T, items);
    Ok(VStruct(pods))
  }

  function NormalizeObject(T: Tables, v: Value): Result<Value, Error>
    decreases Size(v), 1
  {
    if !v.VObject? then Err(Mismatch)
    else
      var properties :- NormalizeProperties(T, v.objectId, v.properties, v.flags, v.keys);
      Ok(Assemble(T, v.objectType, v.objectId, properties))
  }

  function NormalizeSequence(T: Tables, v: Value): Result<Value, Error>
    decreases Size(v), 1
  {
    if !v.VSequence? then Err(Mismatch)
    else
      var controls :- NormalizeControls(T, v.controls);
      Ok(VSequence(v.unit, controls))
  }

  function NormalizeEmbedded(T: Tables, v: Value): Result<Value, Error>
    decreases Size(v), 1
  {
    if !v.VPod? || v.pod.VBytes? then Err(RawBytes)
    else
      var inner :- InferType(v.pod);
      var pod :- Normalize(T, v.pod, inner);
      Ok(VPod(pod))
  }

  function NormalizeItems(T: Tables, items: seq<Value>, childType: int): Result<seq<Value>, Error>
    decreases SizeSeq(items), 0
  {
    if items == [] then Ok([])
    else
      Cons(Normalize(T, items[0], childType), NormalizeItems(T, items[1..], childType))
  }

  function NormalizePods(T: Tables, items: seq<Value>): Result<seq<Value>, Error>
    decreases SizeSeq(items), 0
  {
    if items == [] then Ok([])
    else
      var ty :- InferType(items[0]);
      Cons(Normalize(T, items[0], ty), NormalizePods(T, items[1..]))
  }

  function NormalizeControls(T: Tables, controls: seq<Control>): Result<seq<Control>, Error>
    decreases SizeControls(controls), 0
  {
    if controls == [] then Ok([])
    else
      var ty :- InferType(controls[0].value);
      Cons(WithValue(controls[0].offset, controls[0].kind, Normalize(T, controls[0].value, ty)),
           NormalizeControls(T, controls[1..]))
  }

  function NormalizeProperties(T: Tables, objectId: int, properties: Dict<Key, Value>,
                               flags: map<Key, int>, keys: map<Str, int>): Result<seq<Property>, Error>
    decreases SizeDict(properties), 0
  {
    if properties == [] then Ok([])
    else
      var (key, prepared, ty) :- PrepareProperty(T, objectId, properties[0], keys);
      Cons(Present(T, objectId, key, FlagsOf(flags, properties[0].0), Normalize(T, prepared, ty)),
           NormalizeProperties(T, objectId, properties[1..], flags, keys))
  }
}
