/** The Python values that stand for SPA pods, and the property tables of typed objects. */
module PodValues {
  import opened Wrappers
  import opened Wire

  // Pod type identifiers.
  const T_NONE := 1
  const T_BOOL := 2
  const T_ID := 3
  const T_INT := 4
  const T_LONG := 5
  const T_FLOAT := 6
  const T_DOUBLE := 7
  const T_STRING := 8
  const T_BYTES := 9
  const T_RECTANGLE := 10
  const T_FRACTION := 11
  const T_BITMAP := 12
  const T_ARRAY := 13
  const T_STRUCT := 14
  const T_OBJECT := 15
  const T_SEQUENCE := 16
  const T_POINTER := 17
  const T_FD := 18
  const T_CHOICE := 19
  const T_POD := 20

  // Object types and parameter identifiers that property preparation names.
  const OBJECT_PROPS := 0x40002
  const OBJECT_FORMAT := 0x40003
  const PARAM_PROPS := 2
  const PARAM_FORMAT := 4

  /** A string, as its UTF-8 bytes. */
  type Str = Bytes

  /** A number held as the bit pattern it is packed to. */
  datatype Float = Single(bits: int) | Double(bits: int)

  /** A key of an object's property dictionary. */
  datatype Key = Name(name: Str) | Num(num: int)

  /** One Python dictionary, in insertion order. */
  type Dict<K, V> = seq<(K, V)>

  datatype Control = Control(offset: int, kind: int, value: Value)

  datatype Value =
    | VNone
    | VBool(b: bool)
    | VInt(i: int)
    | VEnum(i: int)                       // an IntEnum member
    | VFloat(f: Float)
    | VStr(s: Str)
    | VBytes(bytes: Bytes)
    | VRectangle(width: int, height: int)
    | VFraction(num: int, denom: int)
    | VBitmap(bits: Bytes)
    | VArray(childSize: Option<int>, childType: Option<int>, items: seq<Value>)
    | VStruct(items: seq<Value>)
    | VObject(objectType: int, objectId: int, properties: Dict<Key, Value>,
              flags: map<Key, int>, keys: map<Str, int>)
    | VSequence(unit: int, controls: seq<Control>)
    | VPointer(pointerType: int, address: int)
    | VChoice(choiceType: int, choiceFlags: int, childSize: Option<int>,
              childType: Option<int>, items: seq<Value>)
    | VPod(pod: Value)
    | VUnknown(podType: int, size: int, data: Bytes)
    | VList(items: seq<Value>)            // a plain list
    | VDict(entries: Dict<Str, Value>)    // a plain dictionary, without a pod type marker

  /** How a property's value is presented, beside its pod type. */
  datatype Shape =
    | Plain | DictInfo | Params | Labels | ProfileClasses
    | ArrayInt | ArrayFloat | ArrayId | ObjectProps | ObjectFormat

  datatype PropertySpec = PropertySpec(
    key: int, name: Str, podType: Option<int>, shape: Shape, members: Option<set<int>>)

  /** The two indexes `_make_property_table` derives from one list of property specs. */
  datatype Table = Table(byKey: map<int, PropertySpec>, byName: map<Str, PropertySpec>)

  /** The property tables, by object id. */
  type Tables = map<int, Table>

  function SpecByKey(T: Tables, objectId: int, key: int): Option<PropertySpec> {
    if objectId in T && key in T[objectId].byKey then Some(T[objectId].byKey[key]) else None
  }

  function SpecByName(T: Tables, objectId: int, name: Str): Option<PropertySpec> {
    if objectId in T && name in T[objectId].byName then Some(T[objectId].byName[name]) else None
  }

  /** Every spec is filed under its own key and name, and both indexes hold the same specs. */
  ghost predicate ValidTable(t: Table) {
    && (forall k <- t.byKey :: t.byKey[k].key == k)
    && (forall k <- t.byKey :: t.byKey[k].name in t.byName && t.byName[t.byKey[k].name] == t.byKey[k])
    && (forall n <- t.byName :: t.byName[n].name == n)
    && (forall n <- t.byName :: t.byName[n].key in t.byKey && t.byKey[t.byName[n].key] == t.byName[n])
  }

  ghost predicate ValidTables(T: Tables) {
    forall id <- T :: ValidTable(T[id])
  }

  // Dictionary access in insertion order.

  predicate HasKey<K(==), V>(d: Dict<K, V>, k: K) {
    exists i :: 0 <= i < |d| && d[i].0 == k
  }

  /** `d[k] = v`: an existing key keeps its place, a new one goes to the end. */
  function Put<K(==), V>(d: Dict<K, V>, k: K, v: V): (r: Dict<K, V>)
    ensures !HasKey(d, k) ==> r == d + [(k, v)]
  {
    if d == [] then [(k, v)]
    else if d[0].0 == k then [(k, v)] + d[1..]
    else [d[0]] + Put(d[1..], k, v)
  }

  /** `d.get(k)`. */
  function Get<K(==), V>(d: Dict<K, V>, k: K): (r: Option<V>)
    ensures r.Some? ==> exists i :: 0 <= i < |d| && d[i] == (k, r.value)
  {
    if d == [] then None
    else if d[0].0 == k then Some(d[0].1)
    else
      var r := Get(d[1..], k);
      assert r.Some? ==> exists i :: 0 <= i < |d[1..]| && d[1..][i] == (k, r.value);
      assert forall i :: 0 <= i < |d[1..]| ==> d[1..][i] == d[i + 1];
      r
  }

  ghost predicate UniqueKeys<K, V>(d: Dict<K, V>) {
    forall i, j :: 0 <= i < j < |d| ==> d[i].0 != d[j].0
  }

  // A size that bounds every value the builder derives from another one.

  function Size(v: Value): (n: nat)
    ensures n > 0
    decreases v
  {
    match v
    case VArray(_, _, items) => 1 + SizeSeq(items)
    case VStruct(items) => 1 + SizeSeq(items)
    case VChoice(_, _, _, _, items) => 1 + SizeSeq(items)
    case VList(items) => 3 + SizeSeq(items)
    case VObject(_, _, properties, _, _) => 1 + SizeDict(properties)
    case VDict(entries) => 3 + SizeDict(entries)
    case VSequence(_, controls) => 1 + SizeControls(controls)
    case VPod(pod) => 1 + Size(pod)
    case _ => 1
  }

  function SizeSeq(items: seq<Value>): nat
    decreases items
  {
    if items == [] then 0 else 1 + Size(items[0]) + SizeSeq(items[1..])
  }

  function SizeDict<K>(d: Dict<K, Value>): nat
    decreases d
  {
    if d == [] then 0
    else
      var entry := d[0];
      assert entry.1 < entry;
      4 + Size(entry.1) + SizeDict(d[1..])
  }

  function SizeControls(controls: seq<Control>): nat
    decreases controls
  {
    if controls == [] then 0
    else
      var control := controls[0];
      assert control.value < control;
      1 + Size(control.value) + SizeControls(controls[1..])
  }

  lemma SizeSeqConcat(a: seq<Value>, b: seq<Value>)
    ensures SizeSeq(a + b) == SizeSeq(a) + SizeSeq(b)
  {
    if a == [] {
      assert a + b == b;
    } else {
      assert (a + b)[1..] == a[1..] + b;
      SizeSeqConcat(a[1..], b);
    }
  }

  lemma SizeSeqAt(items: seq<Value>, i: nat)
    requires i < |items|
    ensures Size(items[i]) < SizeSeq(items)
  {
    if i > 0 {
      SizeSeqAt(items[1..], i - 1);
    }
  }

  lemma SizeDictAt<K>(d: Dict<K, Value>, i: nat)
    requires i < |d|
    ensures Size(d[i].1) + 4 <= SizeDict(d)
  {
    if i > 0 {
      SizeDictAt(d[1..], i - 1);
    }
  }
}
