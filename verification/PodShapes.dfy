/** Presentation of typed object properties: the struct shapes, arrays and enum members. */
module PodShapes {
  import opened Wrappers
  import opened Wire
  import opened PodValues

  const K_VALUE: Str := [118, 97, 108, 117, 101]
  const K_LABEL: Str := [108, 97, 98, 101, 108]
  const K_CLASS: Str := [99, 108, 97, 115, 115]
  const K_COUNT: Str := [99, 111, 117, 110, 116]
  const K_PROPERTY: Str := [112, 114, 111, 112, 101, 114, 116, 121]
  const K_DEVICES: Str := [100, 101, 118, 105, 99, 101, 115]
  const K_POD_TYPE: Str := [95, 112, 111, 100, 95, 116, 121, 112, 101]

  /** The number behind `isinstance(v, int)`, which booleans and enum members satisfy too. */
  function AsInt(v: Value): Option<int> {
    match v
    case VInt(i) => Some(i)
    case VEnum(i) => Some(i)
    case VBool(b) => Some(if b then 1 else 0)
    case _ => None
  }

  datatype Conversion = ToInt | ToFloat

  /** `int(item)` or `float(item)` on a value that is already a number of that kind. */
  function Convert(c: Conversion, v: Value): Result<Value, Error> {
    match c
    case ToInt => if AsInt(v).Some? then Ok(VInt(AsInt(v).value)) else Err(Mismatch)
    case ToFloat => if v.VFloat? then Ok(v) else Err(Mismatch)
  }

  function ConvertAll(c: Conversion, items: seq<Value>): (r: Result<seq<Value>, Error>)
    ensures r.Ok? ==> |r.value| == |items|
  {
    if items == [] then Ok([])
    else
      var head :- Convert(c, items[0]);
      var tail :- ConvertAll(c, items[1..]);
      Ok([head] + tail)
  }

  /** `_coerce_enum_member`. */
  function Coerce(v: Value, members: set<int>): Value {
    if !v.VEnum? && AsInt(v).Some? && AsInt(v).value in members then VEnum(AsInt(v).value) else v
  }

  function CoerceAll(items: seq<Value>, members: set<int>): seq<Value> {
    seq(|items|, i requires 0 <= i < |items| => Coerce(items[i], members))
  }

  /** `_array_to_values`. */
  function ArrayToValues(c: Conversion, v: Value): Result<Value, Error> {
    if !v.VArray? then Ok(v)
    else
      var items :- ConvertAll(c, v.items);
      Ok(VList(items))
  }

  /** One candidate of `_specialize_array_property`. */
  function SpecializeCandidate(c: Conversion, members: Option<set<int>>, v: Value): Result<Value, Error> {
    var values :- ArrayToValues(c, v);
    if !v.VArray? || members.None? then Ok(values) else Ok(VList(CoerceAll(values.items, members.value)))
  }

  function SpecializeCandidates(c: Conversion, members: Option<set<int>>, items: seq<Value>)
    : Result<seq<Value>, Error>
  {
    if items == [] then Ok([])
    else
      var head :- SpecializeCandidate(c, members, items[0]);
      var tail :- SpecializeCandidates(c, members, items[1..]);
      Ok([head] + tail)
  }

  /** `_specialize_array_property`. */
  function SpecializeArray(c: Conversion, members: Option<set<int>>, v: Value): Result<Value, Error> {
    if !v.VChoice? then SpecializeCandidate(c, members, v)
    else
      var items :- SpecializeCandidates(c, members, v.items);
      Ok(v.(items := items))
  }

  /** `_coerce_enum_property_value`. */
  function CoerceProperty(v: Value, members: set<int>): Value {
    if v.VChoice? then v.(items := CoerceAll(v.items, members)) else Coerce(v, members)
  }

  /** Reads alternating keys and values into a dictionary; None when a key is not a string. */
  function PairUp(acc: Dict<Str, Value>, items: seq<Value>): Option<Dict<Str, Value>>
    requires |items| % 2 == 0
    decreases |items|
  {
    if items == [] then Some(acc)
    else if !items[0].VStr? then None
    else PairUp(Put(acc, items[0].s, items[1]), items[2..])
  }

  predicate AllStrings(items: seq<Value>) {
    forall i :: 0 <= i < |items| ==> items[i].VStr?
  }

  /** `_struct_to_dict_info`. */
  function StructToDictInfo(v: Value): Value {
    if !v.VStruct? || v.items == [] || AsInt(v.items[0]).None? then v
    else
      var values := v.items[1..];
      if |values| != 2 * AsInt(v.items[0]).value || !AllStrings(values) then v
      else
        var pairs := PairUp([], values);
        if pairs.None? then v else VDict(pairs.value)
  }

  /** `_struct_to_params`. */
  function StructToParams(v: Value): Value {
    if !v.VStruct? || |v.items| % 2 != 0 then v
    else
      var pairs := PairUp([], v.items);
      if pairs.None? then v else VDict(pairs.value)
  }

  /** One entry of a label list. */
  function Label(value: Value, text: Value): Value {
    VDict([(K_VALUE, value), (K_LABEL, text)])
  }

  function LabelsFrom(items: seq<Value>): Option<seq<Value>>
    requires |items| % 2 == 0
    decreases |items|
  {
    if items == [] then Some([])
    else if !items[1].VStr? then None
    else
      var rest := LabelsFrom(items[2..]);
      if rest.None? then None else Some([Label(items[0], items[1])] + rest.value)
  }

  /** `_struct_to_labels`. */
  function StructToLabels(v: Value): Value {
    if !v.VStruct? || |v.items| % 2 != 0 then v
    else
      var labels := LabelsFrom(v.items);
      if labels.None? then v else VList(labels.value)
  }

  /** One entry of a profile class list. */
  function ProfileClass(name: Value, count: Value, property: Value, devices: seq<Value>): Value {
    VDict([(K_CLASS, name), (K_COUNT, count), (K_PROPERTY, property), (K_DEVICES, VList(devices))])
  }

  predicate IsClassStruct(v: Value) {
    v.VStruct? && |v.items| == 4 && v.items[0].VStr? && AsInt(v.items[1]).Some? && v.items[2].VStr?
    && v.items[3].VArray?
  }

  function ClassesFrom(items: seq<Value>): Result<Option<seq<Value>>, Error> {
    if items == [] then Ok(Some([]))
    else if !IsClassStruct(items[0]) then Ok(None)
    else
      var entry := items[0].items;
      var devices :- ConvertAll(ToInt, entry[3].items);
      var rest :- ClassesFrom(items[1..]);
      if rest.None? then Ok(None)
      else Ok(Some([ProfileClass(entry[0], entry[1], entry[2], devices)] + rest.value))
  }

  /** `_struct_to_profile_classes`: both the counted and the uncounted wire form. */
  function StructToProfileClasses(v: Value): Result<Value, Error> {
    if !v.VStruct? || v.items == [] then Ok(v)
    else
      var counted := AsInt(v.items[0]).Some? && !v.items[0].VBool?;
      var nested := if counted then v.items[1..] else v.items;
      if counted && |nested| != AsInt(v.items[0]).value then Ok(v)
      else
        var classes :- ClassesFrom(nested);
        if classes.None? then Ok(v) else Ok(VList(classes.value))
  }

  /** `_specialize_property_value`: from the parsed pod to the presented value. */
  function Specialize(spec: Option<PropertySpec>, v: Value): Result<Value, Error> {
    if spec.None? then Ok(v)
    else match spec.value.shape
      case DictInfo => Ok(StructToDictInfo(v))
      case Params => Ok(StructToParams(v))
      case Labels => Ok(StructToLabels(v))
      case ProfileClasses => StructToProfileClasses(v)
      case ArrayInt => SpecializeArray(ToInt, None, v)
      case ArrayFloat => SpecializeArray(ToFloat, None, v)
      case ArrayId => SpecializeArray(ToInt, spec.value.members, v)
      case _ => Ok(if spec.value.members.None? then v else CoerceProperty(v, spec.value.members.value))
  }

  // The way back: from the presented value to the value that is built.

  function DictInfoItems(entries: Dict<Str, Value>): Result<seq<Value>, Error> {
    if entries == [] then Ok([])
    else if !entries[0].1.VStr? then Err(Mismatch)
    else
      var rest :- DictInfoItems(entries[1..]);
      Ok([VStr(entries[0].0), entries[0].1] + rest)
  }

  function ParamItems(entries: Dict<Str, Value>): seq<Value> {
    if entries == [] then []
    else [VStr(entries[0].0), entries[0].1] + ParamItems(entries[1..])
  }

  /** `entry.get(key)` with None as the default. */
  function GetOrNone(entries: Dict<Str, Value>, key: Str): Value {
    var r := Get(entries, key);
    if r.None? then VNone else r.value
  }

  /** The items of `_labels_to_struct`; None when an entry is neither a dictionary nor a pair. */
  function LabelItems(labels: seq<Value>): Option<seq<Value>> {
    if labels == [] then Some([])
    else
      var rest := LabelItems(labels[1..]);
      if rest.None? then None
      else if labels[0].VDict? then
        Some([GetOrNone(labels[0].entries, K_VALUE), GetOrNone(labels[0].entries, K_LABEL)] + rest.value)
      else if labels[0].VList? && |labels[0].items| == 2 then Some(labels[0].items + rest.value)
      else None
  }

  /** One entry of `_profile_classes_to_struct`. */
  function ClassStruct(entries: Dict<Str, Value>): Result<Value, Error> {
    var name := GetOrNone(entries, K_CLASS);
    var property := GetOrNone(entries, K_PROPERTY);
    var count := Get(entries, K_COUNT);
    var devices := Get(entries, K_DEVICES);
    if !name.VStr? || !property.VStr? then Err(Mismatch)
    else if count.Some? && AsInt(count.value).None? then Err(Mismatch)
    else if devices.Some? && !devices.value.VList? then Err(Mismatch)
    else
      Ok(VStruct([
        name,
        VInt(if count.None? then 0 else AsInt(count.value).value),
        property,
        VArray(None, Some(T_INT), if devices.None? then [] else devices.value.items)]))
  }

  function ClassItems(classes: seq<Value>): Result<Option<seq<Value>>, Error> {
    if classes == [] then Ok(Some([]))
    else if !classes[0].VDict? then Ok(None)
    else
      var head :- ClassStruct(classes[0].entries);
      var rest :- ClassItems(classes[1..]);
      Ok(if rest.None? then None else Some([head] + rest.value))
  }

  function NameEntries(entries: Dict<Str, Value>): (r: Dict<Key, Value>)
    ensures SizeDict(r) == SizeDict(entries)
  {
    if entries == [] then [] else [(Name(entries[0].0), entries[0].1)] + NameEntries(entries[1..])
  }

  /** `_ensure_object_value`: a plain dictionary becomes an object of the expected class. */
  function EnsureObject(T: Tables, v: Value, objectType: int, objectId: int): Value {
    if !v.VDict? then v
    else
      var names := set i | 0 <= i < |v.entries| :: v.entries[i].0;
      VObject(objectType, objectId, NameEntries(v.entries),
              map n | n in names :: Name(n) := 0,
              map n | n in names && SpecByName(T, objectId, n).Some? :: SpecByName(T, objectId, n).value.key)
  }

  /** `_prepare_property_value`: from the presented value to the value that is built. */
  function Prepare(T: Tables, spec: Option<PropertySpec>, v: Value): Result<Value, Error> {
    if spec.None? then Ok(v)
    else if v.VDict? && HasKey(v.entries, K_POD_TYPE) then Err(Mismatch)
    else if v.VChoice? then
      if v.childType.Some? then Ok(v)
      else if spec.value.podType.Some? then Ok(v.(childType := spec.value.podType))
      else if spec.value.members.Some? then Ok(v.(childType := Some(T_ID)))
      else Ok(v)
    else match spec.value.shape
      case DictInfo =>
        if !v.VDict? then Ok(v)
        else
          var items :- DictInfoItems(v.entries);
          Ok(VStruct([VInt(|v.entries|)] + items))
      case Params => Ok(if v.VDict? then VStruct(ParamItems(v.entries)) else v)
      case Labels =>
        if !v.VList? then Ok(v)
        else
          var items := LabelItems(v.items);
          Ok(if items.None? then v else VStruct(items.value))
      case ProfileClasses =>
        if !v.VList? then Ok(v)
        else
          var items :- ClassItems(v.items);
          Ok(if items.None? then v else VStruct([VInt(|v.items|)] + items.value))
      case ArrayInt => if v.VList? then Ok(VArray(None, Some(T_INT), v.items)) else Err(Mismatch)
      case ArrayFloat => if v.VList? then Ok(VArray(None, Some(T_FLOAT), v.items)) else Err(Mismatch)
      case ArrayId => if v.VList? then Ok(VArray(None, Some(T_ID), v.items)) else Err(Mismatch)
      case ObjectProps => Ok(EnsureObject(T, v, OBJECT_PROPS, PARAM_PROPS))
      case ObjectFormat => Ok(EnsureObject(T, v, OBJECT_FORMAT, PARAM_FORMAT))
      case Plain => Ok(v)
  }

  // Preparation never grows a value, which is what makes building terminate.

  lemma DictInfoItemsSize(entries: Dict<Str, Value>)
    ensures DictInfoItems(entries).Ok? ==> SizeSeq(DictInfoItems(entries).value) <= SizeDict(entries)
  {
    if entries != [] && DictInfoItems(entries).Ok? {
      DictInfoItemsSize(entries[1..]);
      SizeSeqConcat([VStr(entries[0].0), entries[0].1], DictInfoItems(entries[1..]).value);
      SizeSeqPair(VStr(entries[0].0), entries[0].1);
    }
  }

  lemma SizeSeqPair(a: Value, b: Value)
    ensures SizeSeq([a, b]) == 2 + Size(a) + Size(b)
  {
    assert [a, b][1..] == [b];
    assert SizeSeq([b]) == 1 + Size(b) + SizeSeq([]);
  }

  lemma ParamItemsSize(entries: Dict<Str, Value>)
    ensures SizeSeq(ParamItems(entries)) <= SizeDict(entries)
  {
    if entries != [] {
      ParamItemsSize(entries[1..]);
      SizeSeqConcat([VStr(entries[0].0), entries[0].1], ParamItems(entries[1..]));
      SizeSeqPair(VStr(entries[0].0), entries[0].1);
    }
  }

  lemma GetSize(entries: Dict<Str, Value>, key: Str)
    ensures Get(entries, key).Some? ==> Size(Get(entries, key).value) + 4 <= SizeDict(entries)
  {
    if Get(entries, key).Some? {
      var i :| 0 <= i < |entries| && entries[i] == (key, Get(entries, key).value);
      SizeDictAt(entries, i);
    }
  }

  /** Two different keys found in one dictionary account for two different entries. */
  lemma GetTwoSize(entries: Dict<Str, Value>, a: Str, b: Str)
    requires a != b && Get(entries, a).Some? && Get(entries, b).Some?
    ensures Size(Get(entries, a).value) + Size(Get(entries, b).value) + 8 <= SizeDict(entries)
  {
    if entries[0].0 == a {
      GetSize(entries[1..], b);
    } else if entries[0].0 == b {
      GetSize(entries[1..], a);
    } else {
      GetTwoSize(entries[1..], a, b);
    }
  }

  lemma LabelItemsSize(labels: seq<Value>)
    ensures LabelItems(labels).Some? ==> SizeSeq(LabelItems(labels).value) <= SizeSeq(labels)
  {
    if labels != [] && LabelItems(labels).Some? {
      LabelItemsSize(labels[1..]);
      var rest := LabelItems(labels[1..]).value;
      if labels[0].VDict? {
        var entries := labels[0].entries;
        var a, b := GetOrNone(entries, K_VALUE), GetOrNone(entries, K_LABEL);
        SizeSeqConcat([a, b], rest);
        SizeSeqPair(a, b);
        GetSize(entries, K_VALUE);
        GetSize(entries, K_LABEL);
        if Get(entries, K_VALUE).Some? && Get(entries, K_LABEL).Some? {
          GetTwoSize(entries, K_VALUE, K_LABEL);
        }
      } else {
        SizeSeqConcat(labels[0].items, rest);
      }
    }
  }

  lemma GetThreeSize(entries: Dict<Str, Value>, a: Str, b: Str, c: Str)
    requires a != b && b != c && a != c
    requires Get(entries, a).Some? && Get(entries, b).Some? && Get(entries, c).Some?
    ensures Size(Get(entries, a).value) + Size(Get(entries, b).value) + Size(Get(entries, c).value) + 12
         <= SizeDict(entries)
  {
    if entries[0].0 == a {
      GetTwoSize(entries[1..], b, c);
    } else if entries[0].0 == b {
      GetTwoSize(entries[1..], a, c);
    } else if entries[0].0 == c {
      GetTwoSize(entries[1..], a, b);
    } else {
      GetThreeSize(entries[1..], a, b, c);
    }
  }

  lemma SizeSeqFour(a: Value, b: Value, c: Value, d: Value)
    ensures SizeSeq([a, b, c, d]) == Size(a) + Size(b) + Size(c) + Size(d) + 4
  {
    assert [a, b, c, d] == [a, b] + [c, d];
    SizeSeqConcat([a, b], [c, d]);
    SizeSeqPair(a, b);
    SizeSeqPair(c, d);
  }

  /** The size of a class struct, field by field. */
  lemma ClassStructParts(entries: Dict<Str, Value>)
    requires ClassStruct(entries).Ok?
    ensures Get(entries, K_CLASS).Some? && Get(entries, K_PROPERTY).Some?
    ensures var devices := Get(entries, K_DEVICES);
      && (devices.Some? ==> devices.value.VList?)
      && Size(ClassStruct(entries).value)
         == 7 + Size(Get(entries, K_CLASS).value) + Size(Get(entries, K_PROPERTY).value)
            + (if devices.Some? then SizeSeq(devices.value.items) else 0)
  {
    var items := ClassStruct(entries).value.items;
    assert items == [items[0], items[1], items[2], items[3]];
    SizeSeqFour(items[0], items[1], items[2], items[3]);
    NoSize();
    hide SizeSeq, SizeDict;
  }

  lemma ClassKeysDiffer()
    ensures K_CLASS != K_PROPERTY && K_PROPERTY != K_DEVICES && K_CLASS != K_DEVICES
  {
  }

  lemma ClassStructSize(entries: Dict<Str, Value>)
    ensures ClassStruct(entries).Ok? ==> Size(ClassStruct(entries).value) <= Size(VDict(entries))
  {
    if ClassStruct(entries).Ok? {
      ClassStructParts(entries);
      ClassKeysDiffer();
      hide ClassStruct, SizeSeq, SizeDict, Get;
      if Get(entries, K_DEVICES).Some? {
        GetThreeSize(entries, K_CLASS, K_PROPERTY, K_DEVICES);
      } else {
        GetTwoSize(entries, K_CLASS, K_PROPERTY);
      }
    }
  }

  lemma NoSize()
    ensures SizeSeq([]) == 0
  {
  }

  lemma ClassItemsSize(classes: seq<Value>)
    ensures ClassItems(classes).Ok? && ClassItems(classes).value.Some?
        ==> SizeSeq(ClassItems(classes).value.value) <= SizeSeq(classes)
  {
    if classes != [] && ClassItems(classes).Ok? && ClassItems(classes).value.Some? {
      ClassStructSize(classes[0].entries);
      ClassItemsSize(classes[1..]);
      SizeSeqConcat([ClassStruct(classes[0].entries).value], ClassItems(classes[1..]).value.value);
    }
  }

  lemma PrepareDictSize(T: Tables, spec: PropertySpec, v: Value)
    requires v.VDict?
    ensures Prepare(T, Some(spec), v).Ok? ==> Size(Prepare(T, Some(spec), v).value) <= Size(v)
  {
    if spec.shape == DictInfo {
      DictInfoItemsSize(v.entries);
      if DictInfoItems(v.entries).Ok? {
        SizeSeqConcat([VInt(|v.entries|)], DictInfoItems(v.entries).value);
      }
    } else if spec.shape == Params {
      ParamItemsSize(v.entries);
    }
  }

  lemma PrepareListSize(T: Tables, spec: PropertySpec, v: Value)
    requires v.VList?
    ensures Prepare(T, Some(spec), v).Ok? ==> Size(Prepare(T, Some(spec), v).value) <= Size(v)
  {
    if spec.shape == Labels {
      LabelItemsSize(v.items);
    } else if spec.shape == ProfileClasses {
      ClassItemsSize(v.items);
      var classes := ClassItems(v.items);
      if classes.Ok? && classes.value.Some? {
        SizeSeqConcat([VInt(|v.items|)], classes.value.value);
      }
    }
  }

  lemma PrepareSize(T: Tables, spec: Option<PropertySpec>, v: Value)
    ensures Prepare(T, spec, v).Ok? ==> Size(Prepare(T, spec, v).value) <= Size(v)
  {
    if spec.Some? {
      if v.VDict? {
        PrepareDictSize(T, spec.value, v);
      } else if v.VList? {
        PrepareListSize(T, spec.value, v);
      }
    }
  }
}
