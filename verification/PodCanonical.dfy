/** Exactly which values survive building and parsing unchanged. */
module PodCanonical {
  import opened Wrappers
  import opened Wire
  import opened PodValues
  import opened PodShapes
  import opened PodCodec
  import opened PodRoundTrip

  predicate IsIntType(ty: int) {
    ty == T_ID || ty == T_INT || ty == T_LONG || ty == T_FD
  }

  /** `v`, built as `ty`, comes back as itself. */
  predicate Canonical(T: Tables, v: Value, ty: int)
    decreases Size(v), 2
  {
    if !IsContainer(ty) then CanonicalLeaf(v, ty)
    else if ty == T_ARRAY then
      v.VArray? && v.childType.Some? && CanonicalItems(T, v.items, v.childSize, v.childType.value)
    else if ty == T_STRUCT then v.VStruct? && CanonicalPods(T, v.items)
    else if ty == T_OBJECT then
      v.VObject? && CanonicalKeys(T, v) && CanonicalProperties(T, v.objectId, v.properties, v.keys)
    else if ty == T_SEQUENCE then v.VSequence? && CanonicalControls(T, v.controls)
    else if ty == T_CHOICE then
      v.VChoice? && v.childType.Some? && CanonicalItems(T, v.items, v.childSize, v.childType.value)
    else
      && v.VPod? && !v.pod.VBytes?
      && InferType(v.pod).Ok? && Canonical(T, v.pod, InferType(v.pod).value)
  }

  /** No enum members and booleans as plain numbers, no NUL in strings, no bytes as a bitmap. */
  predicate CanonicalLeaf(v: Value, ty: int) {
    if ty == T_NONE then v.VNone?
    else if ty == T_BOOL then v.VBool?
    else if IsIntType(ty) then v.VInt?
    else if ty == T_STRING then v.VStr? && 0 !in v.s
    else if ty == T_BITMAP then !v.VBytes?
    else true
  }

  /** Items with a declared size, which is not zero unless there are none. */
  predicate CanonicalItems(T: Tables, items: seq<Value>, childSize: Option<int>, childType: int)
    decreases SizeSeq(items), 3
  {
    childSize.Some? && (items != [] ==> childSize.value != 0) && AllCanonical(T, items, childType)
  }

  predicate AllCanonical(T: Tables, items: seq<Value>, childType: int)
    decreases SizeSeq(items), 0
  {
    items != [] ==> Canonical(T, items[0], childType) && AllCanonical(T, items[1..], childType)
  }

  /** Pods built with inferred types. */
  predicate CanonicalPods(T: Tables, items: seq<Value>)
    decreases SizeSeq(items), 0
  {
    items != [] ==>
      && InferType(items[0]).Ok?
      && Canonical(T, items[0], InferType(items[0]).value)
      && CanonicalPods(T, items[1..])
  }

  predicate CanonicalControls(T: Tables, controls: seq<Control>)
    decreases SizeControls(controls), 0
  {
    controls != [] ==>
      && InferType(controls[0].value).Ok?
      && Canonical(T, controls[0].value, InferType(controls[0].value).value)
      && CanonicalControls(T, controls[1..])
  }

  /** Keys are distinct and filed where parsing files them; flags and numeric keys name just these. */
  predicate CanonicalKeys(T: Tables, v: Value)
    requires v.VObject?
  {
    && (forall i, j :: 0 <= i < j < |v.properties| ==> v.properties[i].0 != v.properties[j].0)
    && (forall i :: 0 <= i < |v.properties| ==> FiledRight(T, v.objectId, v.properties[i].0, v.keys))
    && v.flags.Keys == (set i | 0 <= i < |v.properties| :: v.properties[i].0)
    && v.keys.Keys == (set i | 0 <= i < |v.properties| && v.properties[i].0.Name? :: v.properties[i].0.name)
  }

  predicate FiledRight(T: Tables, objectId: int, key: Key, keys: map<Str, int>) {
    var n := WireKey(T, objectId, key, keys);
    n.Ok? && StorageKey(T, objectId, n.value) == key
  }

  predicate CanonicalProperties(T: Tables, objectId: int, properties: Dict<Key, Value>, keys: map<Str, int>)
    decreases SizeDict(properties), 0
  {
    properties != [] ==>
      var prepared := PrepareProperty(T, objectId, properties[0], keys);
      && prepared.Ok?
      && CanonicalSlot(T, SpecByKey(T, objectId, prepared.value.0), properties[0].1, prepared.value.2)
      && CanonicalProperties(T, objectId, properties[1..], keys)
  }

  /** A property value in the form its spec presents. */
  predicate CanonicalSlot(T: Tables, spec: Option<PropertySpec>, v: Value, ty: int)
    decreases Size(v), 4
  {
    if spec.None? then Canonical(T, v, ty)
    else if v.VChoice? then
      && v.childType.Some? && v.childSize.Some? && (v.items != [] ==> v.childSize.value != 0)
      && AllAlternatives(T, spec.value, v.items, v.childType.value)
    else match spec.value.shape
      case DictInfo =>
        if v.VDict? then PlainStrings(v.entries) else Canonical(T, v, ty) && StructToDictInfo(v) == v
      case Params =>
        if v.VDict? then CanonicalParams(T, v.entries) else Canonical(T, v, ty) && StructToParams(v) == v
      case Labels =>
        if v.VList? then CanonicalLabels(T, v.items) else Canonical(T, v, ty) && StructToLabels(v) == v
      case ProfileClasses =>
        if v.VList? then CanonicalClasses(v.items)
        else Canonical(T, v, ty) && StructToProfileClasses(v) == Ok(v)
      case ArrayInt => v.VList? && PlainElements(ToInt, None, v.items)
      case ArrayFloat => v.VList? && PlainElements(ToFloat, None, v.items)
      case ArrayId => v.VList? && PlainElements(ToInt, spec.value.members, v.items)
      case _ =>
        if spec.value.members.None? then Canonical(T, v, ty)
        else CanonicalMember(T, v, spec.value.members.value, ty)
  }

  /** A value on an enumerated property: the enum's numbers are members, all others are not. */
  predicate CanonicalMember(T: Tables, v: Value, members: set<int>, ty: int)
    decreases Size(v), 3
  {
    match v
    case VEnum(i) => i in members && (IsIntType(ty) || (ty == T_BOOL && (i == 0 || i == 1)))
    case VInt(i) => i !in members && IsIntType(ty)
    case VBool(b) => (if b then 1 else 0) !in members && ty == T_BOOL
    case _ => Canonical(T, v, ty)
  }

  /** One value of a choice on a typed property. */
  predicate CanonicalAlternative(T: Tables, spec: PropertySpec, v: Value, childType: int)
    decreases Size(v), 4
  {
    match spec.shape
    case ArrayInt => CanonicalArrayAlternative(T, ToInt, None, v, childType)
    case ArrayFloat => CanonicalArrayAlternative(T, ToFloat, None, v, childType)
    case ArrayId => CanonicalArrayAlternative(T, ToInt, spec.members, v, childType)
    case DictInfo => Canonical(T, v, childType)
    case Params => Canonical(T, v, childType)
    case Labels => Canonical(T, v, childType)
    case ProfileClasses => Canonical(T, v, childType)
    case _ =>
      if spec.members.None? then Canonical(T, v, childType)
      else CanonicalMember(T, v, spec.members.value, childType)
  }

  predicate CanonicalArrayAlternative(T: Tables, c: Conversion, members: Option<set<int>>, v: Value, childType: int)
    decreases Size(v), 3
  {
    if v.VList? then childType == T_ARRAY && PlainElements(c, members, v.items)
    else !v.VArray? && Canonical(T, v, childType)
  }

  predicate AllAlternatives(T: Tables, spec: PropertySpec, items: seq<Value>, childType: int)
    decreases SizeSeq(items), 0
  {
    items != [] ==> CanonicalAlternative(T, spec, items[0], childType) && AllAlternatives(T, spec, items[1..], childType)
  }

  /** Elements of an array-shaped property: plain numbers, or the members of its enum. */
  predicate PlainElement(c: Conversion, members: Option<set<int>>, v: Value) {
    if c.ToFloat? then v.VFloat?
    else if v.VEnum? then members.Some? && v.i in members.value
    else v.VInt? && (members.Some? ==> v.i !in members.value)
  }

  predicate PlainElements(c: Conversion, members: Option<set<int>>, items: seq<Value>) {
    items != [] ==> PlainElement(c, members, items[0]) && PlainElements(c, members, items[1..])
  }

  /** Distinct keys, none of them and none of the string values holding a NUL. */
  predicate DistinctPlainKeys(entries: Dict<Str, Value>) {
    && (forall i :: 0 <= i < |entries| ==> 0 !in entries[i].0)
    && (forall i, j :: 0 <= i < j < |entries| ==> entries[i].0 != entries[j].0)
  }

  predicate PlainStrings(entries: Dict<Str, Value>) {
    && DistinctPlainKeys(entries)
    && (forall i :: 0 <= i < |entries| ==> CanonicalLeaf(entries[i].1, T_STRING))
  }

  predicate CanonicalParams(T: Tables, entries: Dict<Str, Value>)
    decreases SizeDict(entries), 3
  {
    DistinctPlainKeys(entries) && CanonicalParamValues(T, entries)
  }

  predicate CanonicalParamValues(T: Tables, entries: Dict<Str, Value>)
    decreases SizeDict(entries), 0
  {
    entries != [] ==>
      && InferType(entries[0].1).Ok?
      && Canonical(T, entries[0].1, InferType(entries[0].1).value)
      && CanonicalParamValues(T, entries[1..])
  }

  /** Every label is exactly a value and a NUL-free text. */
  predicate CanonicalLabels(T: Tables, labels: seq<Value>)
    decreases SizeSeq(labels), 0
  {
    labels != [] ==>
      && labels[0].VDict? && |labels[0].entries| == 2
      && labels[0].entries[0].0 == K_VALUE && labels[0].entries[1].0 == K_LABEL
      && CanonicalLeaf(labels[0].entries[1].1, T_STRING)
      && (assert Size(labels[0]) == 3 + SizeDict(labels[0].entries);
          CanonicalLabelValue(T, labels[0].entries))
      && CanonicalLabels(T, labels[1..])
  }

  predicate CanonicalLabelValue(T: Tables, entries: Dict<Str, Value>)
    requires entries != []
    decreases SizeDict(entries), 0
  {
    var v := entries[0].1;
    InferType(v).Ok? && Canonical(T, v, InferType(v).value)
  }

  predicate CanonicalClass(v: Value) {
    && v.VDict? && |v.entries| == 4
    && v.entries[0].0 == K_CLASS && v.entries[1].0 == K_COUNT
    && v.entries[2].0 == K_PROPERTY && v.entries[3].0 == K_DEVICES
    && CanonicalLeaf(v.entries[0].1, T_STRING) && v.entries[1].1.VInt?
    && CanonicalLeaf(v.entries[2].1, T_STRING)
    && v.entries[3].1.VList? && PlainElements(ToInt, None, v.entries[3].1.items)
  }

  predicate CanonicalClasses(classes: seq<Value>) {
    forall i :: 0 <= i < |classes| ==> CanonicalClass(classes[i])
  }
}
