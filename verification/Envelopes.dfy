/**
 * Versioned JSON envelopes of runtime values: serialization, decoding with its error codes, and
 * exactly which values come back unchanged.
 */
module Envelopes {
  import opened Wrappers

  datatype Scalar =
    | Null
    | Bool(flag: bool)
    | Int(number: int)
    | Float(amount: real)
    | NonFinite
    | Str(text: string)

  datatype Json = JScalar(scalar: Scalar) | JList(items: seq<Json>) | JObject(members: seq<Member>)
  datatype Member = Member(name: string, value: Json)

  /** Frozen field values; an enumeration member is the string it extends. */
  datatype Value =
    | Plain(scalar: Scalar)
    | Tuple(items: seq<Value>)
    | Frozen(entries: seq<Field>)
    | Record(kind: string, fields: seq<Field>)
  datatype Field = Field(name: string, value: Value)

  /** A declared field; `fallback` is its default. */
  datatype Declared = Declared(name: string, omitNone: bool, fallback: Option<Value>)

  /** A registered value class: its serialized fields and the checks of its constructor. */
  datatype Class = Class(declared: seq<Declared>, accepts: seq<Field> -> bool)
  type Registry = map<string, Class>

  datatype Code =
    | UnsupportedSchemaVersion | UnsupportedValueType | UnknownFields | InvalidValue | InvalidJsonValue

  const SCHEMA_VERSION := "schema_version"
  const VALUE_TYPE := "value_type"
  const VERSION: Json := JScalar(Int(1))

  // ----- objects -----

  function Lookup(members: seq<Member>, name: string): (r: Option<Json>)
    ensures r.Some? ==> exists i :: 0 <= i < |members| && members[i] == Member(name, r.value)
  {
    if members == [] then None
    else if members[0].name == name then Some(members[0].value)
    else Lookup(members[1..], name)
  }

  predicate HasMember(members: seq<Member>, name: string) {
    exists i :: 0 <= i < |members| && members[i].name == name
  }

  predicate HasEntry(entries: seq<Field>, name: string) {
    exists i :: 0 <= i < |entries| && entries[i].name == name
  }

  predicate IsEnvelope(members: seq<Member>) {
    HasMember(members, SCHEMA_VERSION) && HasMember(members, VALUE_TYPE)
  }

  predicate IsNone(v: Value) { v == Plain(Null) }

  // ----- serialization -----

  /** `to_dict` and `_serialize` */
  function Serialize(registry: Registry, v: Value): Json
    decreases v, 0
  {
    match v
    case Plain(s) => JScalar(s)
    case Tuple(items) => JList(seq(|items|, i requires 0 <= i < |items| => Serialize(registry, items[i])))
    case Frozen(entries) => JObject(SerializeAll(registry, entries))
    case Record(kind, fields) =>
      var declared := if kind in registry then registry[kind].declared else [];
      JObject([Member(SCHEMA_VERSION, VERSION), Member(VALUE_TYPE, JScalar(Str(kind)))]
              + SerializeFields(registry, declared, fields))
  }

  function SerializeAll(registry: Registry, entries: seq<Field>): (r: seq<Member>)
    ensures |r| == |entries|
    decreases entries, 1
  {
    seq(|entries|, i requires 0 <= i < |entries| =>
      Member(entries[i].name, Serialize(registry, entries[i].value)))
  }

  /** A field declared so is left out when it is None. */
  function SerializeFields(registry: Registry, declared: seq<Declared>, fields: seq<Field>): seq<Member>
    decreases fields, 1
  {
    if fields == [] || declared == [] then []
    else
      var rest := SerializeFields(registry, declared[1..], fields[1..]);
      if declared[0].omitNone && IsNone(fields[0].value) then rest
      else [Member(fields[0].name, Serialize(registry, fields[0].value))] + rest
  }

  // ----- decoding -----

  /** What a frozen mapping may hold. */
  predicate FrozenJson(v: Value) {
    match v
    case Plain(_) => true
    case Tuple(items) => forall i :: 0 <= i < |items| ==> FrozenJson(items[i])
    case Frozen(entries) => forall i :: 0 <= i < |entries| ==> FrozenJson(entries[i].value)
    case Record(_, _) => false
  }

  /** `_deserialize` */
  function Deserialize(registry: Registry, j: Json): Result<Value, Code>
    decreases j, 2
  {
    match j
    case JScalar(s) => if s.NonFinite? then Err(InvalidJsonValue) else Ok(Plain(s))
    case JList(items) =>
      (match DeserializeItems(registry, items)
       case Err(e) => Err(e)
       case Ok(values) => Ok(Tuple(values)))
    case JObject(members) =>
      if IsEnvelope(members) then FromEnvelope(registry, members)
      else match DeserializeEntries(registry, members)
        case Err(e) => Err(e)
        case Ok(entries) => Ok(Frozen(entries))
  }

  function DeserializeItems(registry: Registry, items: seq<Json>): Result<seq<Value>, Code>
    decreases items, 0
  {
    if items == [] then Ok([])
    else match Deserialize(registry, items[0])
      case Err(e) => Err(e)
      case Ok(v) =>
        match DeserializeItems(registry, items[1..])
        case Err(e) => Err(e)
        case Ok(rest) => Ok([v] + rest)
  }

  /** The entries of a frozen mapping; a runtime value is not JSON and is refused. */
  function DeserializeEntries(registry: Registry, members: seq<Member>): Result<seq<Field>, Code>
    decreases members, 0
  {
    if members == [] then Ok([])
    else match Deserialize(registry, members[0].value)
      case Err(e) => Err(e)
      case Ok(v) =>
        if !FrozenJson(v) then Err(InvalidJsonValue)
        else match DeserializeEntries(registry, members[1..])
          case Err(e) => Err(e)
          case Ok(rest) => Ok([Field(members[0].name, v)] + rest)
  }

  /** The version comparison is numeric, so 1.0 is as good as 1; a boolean is not. */
  predicate SupportedVersion(j: Option<Json>) {
    j == Some(JScalar(Int(1))) || j == Some(JScalar(Float(1.0)))
  }

  predicate IsDeclared(declared: seq<Declared>, name: string) {
    exists i :: 0 <= i < |declared| && declared[i].name == name
  }

  predicate OnlyDeclared(declared: seq<Declared>, members: seq<Member>) {
    forall i :: 0 <= i < |members| && members[i].name != SCHEMA_VERSION && members[i].name != VALUE_TYPE ==>
      IsDeclared(declared, members[i].name)
  }

  /** `runtime_value_from_dict` */
  function FromEnvelope(registry: Registry, members: seq<Member>): Result<Value, Code>
    decreases members, 1
  {
    var kind := Lookup(members, VALUE_TYPE);
    if !SupportedVersion(Lookup(members, SCHEMA_VERSION)) then Err(UnsupportedSchemaVersion)
    else if !(kind.Some? && kind.value.JScalar? && kind.value.scalar.Str? && kind.value.scalar.text in registry) then
      Err(UnsupportedValueType)
    else
      var class_ := registry[kind.value.scalar.text];
      if !OnlyDeclared(class_.declared, members) then Err(UnknownFields)
      else match ReadFields(registry, class_.declared, members)
        case Err(e) => Err(e)
        case Ok(fields) =>
          if class_.accepts(fields) then Ok(Record(kind.value.scalar.text, fields)) else Err(InvalidValue)
  }

  /** The supplied fields, and the defaults of the others. */
  function ReadFields(registry: Registry, declared: seq<Declared>, members: seq<Member>): Result<seq<Field>, Code>
    decreases members, 0, |declared|
  {
    if declared == [] then Ok([])
    else
      var first := ReadField(registry, declared[0], members);
      match first
      case Err(e) => Err(e)
      case Ok(v) =>
        match ReadFields(registry, declared[1..], members)
        case Err(e) => Err(e)
        case Ok(rest) => Ok([Field(declared[0].name, v)] + rest)
  }

  function ReadField(registry: Registry, declared: Declared, members: seq<Member>): Result<Value, Code>
    decreases members, 0, 0
  {
    var supplied := Lookup(members, declared.name);
    if supplied.Some? then
      assert exists i :: 0 <= i < |members| && members[i] == Member(declared.name, supplied.value);
      Deserialize(registry, supplied.value)
    else if declared.fallback.Some? then Ok(declared.fallback.value)
    else Err(InvalidValue)
  }

  // ----- which values are well formed, and which come back -----

  predicate DistinctNames(declared: seq<Declared>) {
    && (forall i, j :: 0 <= i < j < |declared| ==> declared[i].name != declared[j].name)
    && (forall i :: 0 <= i < |declared| ==>
         declared[i].name != SCHEMA_VERSION && declared[i].name != VALUE_TYPE)
    && (forall i :: 0 <= i < |declared| && declared[i].omitNone ==> declared[i].fallback == Some(Plain(Null)))
  }

  predicate FitsDeclaration(declared: seq<Declared>, fields: seq<Field>) {
    |fields| == |declared| && forall i :: 0 <= i < |fields| ==> fields[i].name == declared[i].name
  }

  /** A value that the constructors can have built. */
  predicate WellFormed(registry: Registry, v: Value) {
    match v
    case Plain(s) => !s.NonFinite?
    case Tuple(items) => forall i :: 0 <= i < |items| ==> WellFormed(registry, items[i])
    case Frozen(entries) =>
      forall i :: 0 <= i < |entries| ==> WellFormed(registry, entries[i].value) && FrozenJson(entries[i].value)
    case Record(kind, fields) =>
      && kind in registry
      && DistinctNames(registry[kind].declared)
      && FitsDeclaration(registry[kind].declared, fields)
      && registry[kind].accepts(fields)
      && forall i :: 0 <= i < |fields| ==> WellFormed(registry, fields[i].value)
  }

  /** No plain mapping anywhere in the value carries both envelope markers. */
  predicate Unmarked(v: Value) {
    match v
    case Plain(_) => true
    case Tuple(items) => forall i :: 0 <= i < |items| ==> Unmarked(items[i])
    case Frozen(entries) =>
      && !(HasEntry(entries, SCHEMA_VERSION) && HasEntry(entries, VALUE_TYPE))
      && forall i :: 0 <= i < |entries| ==> Unmarked(entries[i].value)
    case Record(_, fields) => forall i :: 0 <= i < |fields| ==> Unmarked(fields[i].value)
  }

  predicate Returns(registry: Registry, v: Value) {
    Deserialize(registry, Serialize(registry, v)) == Ok(v)
  }

  // ----- lists -----

  lemma {:induction false} ItemsReturn(registry: Registry, items: seq<Value>, from: nat)
    requires from <= |items|
    ensures DeserializeItems(registry, seq(|items|, i requires 0 <= i < |items| => Serialize(registry, items[i]))[from..])
        == Ok(items[from..])
       <==> forall i :: from <= i < |items| ==> Returns(registry, items[i])
    decreases |items| - from
  {
    var js := seq(|items|, i requires 0 <= i < |items| => Serialize(registry, items[i]));
    if from < |items| {
      assert js[from..][1..] == js[from + 1..] && js[from..][0] == Serialize(registry, items[from]);
      assert items[from..] == [items[from]] + items[from + 1..];
      ItemsReturn(registry, items, from + 1);
      hide Serialize, Deserialize;
      var first := Deserialize(registry, js[from]);
      var rest := DeserializeItems(registry, js[from + 1..]);
      if first.Ok? && rest.Ok? {
        assert ([first.value] + rest.value)[0] == first.value && ([first.value] + rest.value)[1..] == rest.value;
        assert items[from..][0] == items[from] && items[from..][1..] == items[from + 1..];
      }
    }
  }

  // ----- mappings -----

  lemma {:induction false} EntriesReturn(registry: Registry, entries: seq<Field>, from: nat)
    requires from <= |entries|
    requires forall i :: 0 <= i < |entries| ==> FrozenJson(entries[i].value)
    ensures DeserializeEntries(registry, SerializeAll(registry, entries)[from..]) == Ok(entries[from..])
       <==> forall i :: from <= i < |entries| ==> Returns(registry, entries[i].value)
    decreases |entries| - from
  {
    var js := SerializeAll(registry, entries);
    if from < |entries| {
      var tail := js[from..];
      assert tail[1..] == js[from + 1..];
      assert tail[0] == Member(entries[from].name, Serialize(registry, entries[from].value));
      EntriesReturn(registry, entries, from + 1);
      hide Serialize, Deserialize, SerializeAll;
      var first := Deserialize(registry, tail[0].value);
      var rest := DeserializeEntries(registry, js[from + 1..]);
      assert entries[from..][0] == entries[from] && entries[from..][1..] == entries[from + 1..];
      assert entries[from..] == [entries[from]] + entries[from + 1..];
      if first.Ok? && rest.Ok? {
        var whole := [Field(tail[0].name, first.value)] + rest.value;
        assert whole[0] == Field(tail[0].name, first.value) && whole[1..] == rest.value;
      }
      assert Returns(registry, entries[from].value) <==> first == Ok(entries[from].value);
    } else {
      assert js[from..] == [] && entries[from..] == [];
    }
  }

  lemma {:induction false} SameMarkers(registry: Registry, entries: seq<Field>)
    ensures IsEnvelope(SerializeAll(registry, entries))
       <==> HasEntry(entries, SCHEMA_VERSION) && HasEntry(entries, VALUE_TYPE)
  {
    hide Serialize;
    var js := SerializeAll(registry, entries);
    forall name: string
      ensures HasMember(js, name) <==> HasEntry(entries, name)
    {
      assert forall i :: 0 <= i < |js| ==> js[i].name == entries[i].name;
    }
  }

  /** A mapping decoded as an envelope never comes back as a mapping. */
  lemma {:induction false} EnvelopeIsNoMapping(registry: Registry, members: seq<Member>)
    ensures var r := FromEnvelope(registry, members);
      r.Ok? ==> r.value.Record?
  {
  }

  // ----- records -----

  /** The members written for the fields from `from` on. */
  function Written(registry: Registry, declared: seq<Declared>, fields: seq<Field>, from: nat): seq<Member>
    requires from <= |fields| && from <= |declared|
  {
    SerializeFields(registry, declared[from..], fields[from..])
  }

  lemma {:induction false} WrittenNames(registry: Registry, declared: seq<Declared>, fields: seq<Field>, from: nat)
    requires FitsDeclaration(declared, fields) && from <= |fields|
    ensures forall m :: m in Written(registry, declared, fields, from) ==>
      exists i :: from <= i < |declared| && declared[i].name == m.name
    decreases |fields| - from
  {
    if from < |fields| {
      assert declared[from..][1..] == declared[from + 1..] && fields[from..][1..] == fields[from + 1..];
      WrittenNames(registry, declared, fields, from + 1);
      hide Serialize;
    }
  }

  lemma {:induction false} LookupAbsent(members: seq<Member>, name: string)
    requires forall m :: m in members ==> m.name != name
    ensures Lookup(members, name) == None
  {
    if members != [] { LookupAbsent(members[1..], name); }
  }

  /** A written field is found by its name; an omitted one is not. */
  lemma {:induction false} LookupWritten(
      registry: Registry, declared: seq<Declared>, fields: seq<Field>, from: nat, k: nat)
    requires DistinctNames(declared) && FitsDeclaration(declared, fields) && from <= k < |fields|
    ensures Lookup(Written(registry, declared, fields, from), declared[k].name)
      == if declared[k].omitNone && IsNone(fields[k].value) then None
         else Some(Serialize(registry, fields[k].value))
    decreases |fields| - from
  {
    assert declared[from..][1..] == declared[from + 1..] && fields[from..][1..] == fields[from + 1..];
    assert declared[from..][0] == declared[from] && fields[from..][0] == fields[from];
    hide Serialize;
    var written, rest := Written(registry, declared, fields, from), Written(registry, declared, fields, from + 1);
    if k == from {
      WrittenNames(registry, declared, fields, from + 1);
      if declared[k].omitNone && IsNone(fields[k].value) {
        assert written == rest;
        LookupAbsent(rest, declared[k].name);
      } else {
        assert written[0] == Member(fields[k].name, Serialize(registry, fields[k].value));
      }
    } else {
      LookupWritten(registry, declared, fields, from + 1, k);
      assert written == rest || (written[1..] == rest && written[0].name == declared[from].name);
    }
  }

  /** The whole envelope of a record. */
  function EnvelopeOf(registry: Registry, kind: string, declared: seq<Declared>, fields: seq<Field>): seq<Member> {
    [Member(SCHEMA_VERSION, VERSION), Member(VALUE_TYPE, JScalar(Str(kind)))]
      + SerializeFields(registry, declared, fields)
  }

  lemma {:induction false} EnvelopeLookups(registry: Registry, kind: string, declared: seq<Declared>, fields: seq<Field>)
    requires DistinctNames(declared) && FitsDeclaration(declared, fields)
    ensures var ms := EnvelopeOf(registry, kind, declared, fields);
      && IsEnvelope(ms)
      && Lookup(ms, SCHEMA_VERSION) == Some(VERSION)
      && Lookup(ms, VALUE_TYPE) == Some(JScalar(Str(kind)))
      && OnlyDeclared(declared, ms)
  {
    var ms := EnvelopeOf(registry, kind, declared, fields);
    assert declared[0..] == declared && fields[0..] == fields;
    WrittenNames(registry, declared, fields, 0);
    hide SerializeFields;
    assert ms[0] == Member(SCHEMA_VERSION, VERSION) && ms[1] == Member(VALUE_TYPE, JScalar(Str(kind)));
    assert ms[1..][0] == ms[1];
    assert SCHEMA_VERSION[0] != VALUE_TYPE[0];
    forall i | 0 <= i < |ms| && ms[i].name != SCHEMA_VERSION && ms[i].name != VALUE_TYPE
      ensures IsDeclared(declared, ms[i].name)
    {
      assert i >= 2 && ms[i] == ms[2..][i - 2];
      assert ms[2..] == SerializeFields(registry, declared, fields);
      assert ms[i] in Written(registry, declared, fields, 0);
    }
  }

  lemma {:induction false} EnvelopeField(
      registry: Registry, kind: string, declared: seq<Declared>, fields: seq<Field>, k: nat)
    requires DistinctNames(declared) && FitsDeclaration(declared, fields) && k < |fields|
    ensures Lookup(EnvelopeOf(registry, kind, declared, fields), declared[k].name)
      == if declared[k].omitNone && IsNone(fields[k].value) then None
         else Some(Serialize(registry, fields[k].value))
  {
    var ms := EnvelopeOf(registry, kind, declared, fields);
    assert declared[0..] == declared && fields[0..] == fields;
    LookupWritten(registry, declared, fields, 0, k);
    hide SerializeFields, Serialize;
    assert ms[0].name == SCHEMA_VERSION && ms[1..][0].name == VALUE_TYPE;
    assert ms[1..][1..] == SerializeFields(registry, declared, fields);
  }

  lemma {:induction false} FieldReturns(
      registry: Registry, kind: string, declared: seq<Declared>, fields: seq<Field>, k: nat)
    requires DistinctNames(declared) && FitsDeclaration(declared, fields) && k < |fields|
    ensures ReadField(registry, declared[k], EnvelopeOf(registry, kind, declared, fields)) == Ok(fields[k].value)
       <==> Returns(registry, fields[k].value)
  {
    EnvelopeField(registry, kind, declared, fields, k);
    hide EnvelopeOf;
  }

  lemma {:induction false} FieldsReturn(
      registry: Registry, kind: string, declared: seq<Declared>, fields: seq<Field>, from: nat)
    requires DistinctNames(declared) && FitsDeclaration(declared, fields) && from <= |fields|
    ensures ReadFields(registry, declared[from..], EnvelopeOf(registry, kind, declared, fields)) == Ok(fields[from..])
       <==> forall k :: from <= k < |fields| ==> Returns(registry, fields[k].value)
    decreases |fields| - from
  {
    var ms := EnvelopeOf(registry, kind, declared, fields);
    if from < |fields| {
      assert declared[from..][1..] == declared[from + 1..] && declared[from..][0] == declared[from];
      assert fields[from..] == [fields[from]] + fields[from + 1..];
      FieldReturns(registry, kind, declared, fields, from);
      FieldsReturn(registry, kind, declared, fields, from + 1);
      hide ReadField, EnvelopeOf, Returns;
      var first := ReadField(registry, declared[from], ms);
      var rest := ReadFields(registry, declared[from + 1..], ms);
      if first.Ok? && rest.Ok? {
        var whole := [Field(declared[from].name, first.value)] + rest.value;
        assert whole[0] == Field(declared[from].name, first.value) && whole[1..] == rest.value;
        assert fields[from..][0] == fields[from] && fields[from..][1..] == fields[from + 1..];
      }
    } else {
      assert declared[from..] == [] && fields[from..] == [];
    }
  }

  lemma {:induction false} RecordReturns(registry: Registry, kind: string, fields: seq<Field>)
    requires WellFormed(registry, Record(kind, fields))
    ensures Returns(registry, Record(kind, fields))
       <==> forall k :: 0 <= k < |fields| ==> Returns(registry, fields[k].value)
  {
    var declared := registry[kind].declared;
    var ms := EnvelopeOf(registry, kind, declared, fields);
    EnvelopeLookups(registry, kind, declared, fields);
    FieldsReturn(registry, kind, declared, fields, 0);
    assert declared[0..] == declared && fields[0..] == fields;
    assert Serialize(registry, Record(kind, fields)) == JObject(ms);
    hide Serialize, SerializeFields, WellFormed, ReadFields, Lookup;
    assert Deserialize(registry, JObject(ms)) == FromEnvelope(registry, ms);
  }

  /**
   * A runtime value decodes from its serialized form to an equal value exactly when no plain
   * mapping in it carries both envelope markers.
   */
  lemma {:induction false} EnvelopeRoundTripIff(registry: Registry, v: Value)
    requires WellFormed(registry, v)
    ensures Returns(registry, v) <==> Unmarked(v)
    decreases v
  {
    match v
    case Plain(_) =>
    case Tuple(items) =>
      forall i | 0 <= i < |items| ensures Returns(registry, items[i]) <==> Unmarked(items[i]) {
        EnvelopeRoundTripIff(registry, items[i]);
      }
      TupleReturns(registry, items);
    case Frozen(entries) =>
      forall i | 0 <= i < |entries| ensures Returns(registry, entries[i].value) <==> Unmarked(entries[i].value) {
        EnvelopeRoundTripIff(registry, entries[i].value);
      }
      FrozenReturns(registry, entries);
    case Record(kind, fields) =>
      forall i | 0 <= i < |fields| ensures Returns(registry, fields[i].value) <==> Unmarked(fields[i].value) {
        EnvelopeRoundTripIff(registry, fields[i].value);
      }
      RecordReturns(registry, kind, fields);
  }

  lemma {:induction false} TupleReturns(registry: Registry, items: seq<Value>)
    ensures Returns(registry, Tuple(items)) <==> forall i :: 0 <= i < |items| ==> Returns(registry, items[i])
  {
    ItemsReturn(registry, items, 0);
    var js := seq(|items|, i requires 0 <= i < |items| => Serialize(registry, items[i]));
    assert js[0..] == js && items[0..] == items;
    assert Serialize(registry, Tuple(items)) == JList(js);
    hide DeserializeItems;
  }

  lemma {:induction false} FrozenReturns(registry: Registry, entries: seq<Field>)
    requires forall i :: 0 <= i < |entries| ==> FrozenJson(entries[i].value)
    ensures Returns(registry, Frozen(entries)) <==>
      && !(HasEntry(entries, SCHEMA_VERSION) && HasEntry(entries, VALUE_TYPE))
      && forall i :: 0 <= i < |entries| ==> Returns(registry, entries[i].value)
  {
    EntriesReturn(registry, entries, 0);
    SameMarkers(registry, entries);
    var ms := SerializeAll(registry, entries);
    EnvelopeIsNoMapping(registry, ms);
    assert ms[0..] == ms && entries[0..] == entries;
    assert Serialize(registry, Frozen(entries)) == JObject(ms);
    hide DeserializeEntries, FromEnvelope, SerializeAll, HasEntry;
  }

  // ----- the wire form -----

  /** Scalars are themselves, sequences lists and mappings objects, in their order. */
  lemma {:induction false} PlainForms(registry: Registry, s: Scalar, items: seq<Value>, entries: seq<Field>)
    ensures Serialize(registry, Plain(s)) == JScalar(s)
    ensures var j := Serialize(registry, Tuple(items));
      && j.JList? && |j.items| == |items|
      && forall i :: 0 <= i < |items| ==> j.items[i] == Serialize(registry, items[i])
    ensures var j := Serialize(registry, Frozen(entries));
      && j.JObject? && |j.members| == |entries|
      && forall i :: 0 <= i < |entries| ==>
           j.members[i] == Member(entries[i].name, Serialize(registry, entries[i].value))
  {
  }

  /**
   * An envelope begins with version 1 and the kind, and besides has each field under its name, but for
   * those declared to be left out when they are None.
   */
  lemma {:induction false} EnvelopeForm(registry: Registry, kind: string, fields: seq<Field>)
    requires WellFormed(registry, Record(kind, fields))
    ensures var j, declared := Serialize(registry, Record(kind, fields)), registry[kind].declared;
      && j.JObject? && |j.members| >= 2
      && j.members[0] == Member("schema_version", JScalar(Int(1)))
      && j.members[1] == Member("value_type", JScalar(Str(kind)))
      && (forall i :: 2 <= i < |j.members| ==> IsDeclared(declared, j.members[i].name))
      && (forall k :: 0 <= k < |fields| ==>
           Lookup(j.members, fields[k].name)
           == if declared[k].omitNone && fields[k].value == Plain(Null) then None
              else Some(Serialize(registry, fields[k].value)))
  {
    var declared := registry[kind].declared;
    var ms := EnvelopeOf(registry, kind, declared, fields);
    assert Serialize(registry, Record(kind, fields)) == JObject(ms);
    assert declared[0..] == declared && fields[0..] == fields;
    WrittenNames(registry, declared, fields, 0);
    assert ms[2..] == SerializeFields(registry, declared, fields);
    hide Serialize, SerializeFields, Lookup;
    forall k | 0 <= k < |fields|
      ensures Lookup(ms, fields[k].name)
        == if declared[k].omitNone && fields[k].value == Plain(Null) then None
           else Some(Serialize(registry, fields[k].value))
    {
      EnvelopeField(registry, kind, declared, fields, k);
    }
    forall i | 2 <= i < |ms|
      ensures IsDeclared(declared, ms[i].name)
    {
      assert ms[i] == ms[2..][i - 2];
      assert ms[i] in Written(registry, declared, fields, 0);
    }
  }

  predicate KnownVersion(members: seq<Member>) {
    var version := Lookup(members, "schema_version");
    version == Some(JScalar(Int(1))) || version == Some(JScalar(Float(1.0)))
  }

  predicate KnownKind(registry: Registry, members: seq<Member>) {
    exists kind :: kind in registry && Lookup(members, "value_type") == Some(JScalar(Str(kind)))
  }

  predicate KnownNames(declared: seq<Declared>, members: seq<Member>) {
    forall i :: 0 <= i < |members| ==>
      || members[i].name == "schema_version" || members[i].name == "value_type"
      || IsDeclared(declared, members[i].name)
  }

  /** What is refused before any field is read, in this order: the version, the kind, the field names. */
  lemma {:induction false} DecodeRefusals(registry: Registry, members: seq<Member>, kind: string)
    requires HasMember(members, "schema_version") && HasMember(members, "value_type")
    ensures var r := Deserialize(registry, JObject(members));
      && (!KnownVersion(members) ==> r == Err(UnsupportedSchemaVersion))
      && (KnownVersion(members) && !KnownKind(registry, members) ==> r == Err(UnsupportedValueType))
      && (KnownVersion(members) && kind in registry && Lookup(members, "value_type") == Some(JScalar(Str(kind))) ==>
           && (!KnownNames(registry[kind].declared, members) ==> r == Err(UnknownFields))
           && (KnownNames(registry[kind].declared, members) ==>
                var fields := ReadFields(registry, registry[kind].declared, members);
                && (fields.Err? ==> r == Err(fields.error))
                && (fields.Ok? && registry[kind].accepts(fields.value) ==> r == Ok(Record(kind, fields.value)))
                && (fields.Ok? && !registry[kind].accepts(fields.value) ==> r == Err(InvalidValue))))
  {
    assert Deserialize(registry, JObject(members)) == FromEnvelope(registry, members);
    hide Deserialize, ReadFields, Lookup;
  }

  /** A field is decoded where supplied, takes its default where not, and is missed if it has none. */
  lemma {:induction false} FieldsRead(registry: Registry, declared: seq<Declared>, members: seq<Member>, k: nat)
    requires ReadFields(registry, declared, members).Ok? && k < |declared|
    ensures var fields := ReadFields(registry, declared, members).value;
      && |fields| == |declared| && fields[k].name == declared[k].name
      && var supplied := Lookup(members, declared[k].name);
         && (supplied.Some? ==> Deserialize(registry, supplied.value) == Ok(fields[k].value))
         && (supplied.None? ==> declared[k].fallback == Some(fields[k].value))
    decreases |declared|
  {
    hide Deserialize, Lookup;
    if k > 0 {
      FieldsRead(registry, declared[1..], members, k - 1);
    } else if |declared| > 1 {
      FieldsRead(registry, declared[1..], members, 0);
    }
  }
}
