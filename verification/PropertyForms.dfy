/** What typed property values are written as: the struct shapes, arrays and objects, field by field. */
module PropertyForms {
  import opened Wrappers
  import opened Wire
  import opened PodValues
  import opened PodShapes

  /** The bytes of an ASCII text. */
  function Ascii(text: string): Bytes
    requires forall i :: 0 <= i < |text| ==> text[i] < 128 as char
  {
    seq(|text|, i requires 0 <= i < |text| => text[i] as int)
  }

  lemma {:induction false} EntryNames()
    ensures K_VALUE == Ascii("value") && K_LABEL == Ascii("label")
    ensures K_CLASS == Ascii("class") && K_COUNT == Ascii("count")
    ensures K_PROPERTY == Ascii("property") && K_DEVICES == Ascii("devices")
    ensures K_POD_TYPE == Ascii("_pod_type")
  {
  }

  /** A value with no marker of its own and no alternatives. */
  predicate Single(v: Value) {
    !v.VChoice? && !(v.VDict? && HasKey(v.entries, Ascii("_pod_type")))
  }

  lemma {:induction false} PreparesSingle(T: Tables, spec: PropertySpec, v: Value)
    ensures v.VDict? && HasKey(v.entries, Ascii("_pod_type")) ==> Prepare(T, Some(spec), v) == Err(Mismatch)
    ensures Prepare(T, None, v) == Ok(v)
    ensures spec.shape == Shape.Plain && Single(v) ==> Prepare(T, Some(spec), v) == Ok(v)
  {
    EntryNames();
    hide HasKey;
  }

  /** Lists on array properties become arrays of Int 4, Float 6 or Id 3; nothing else is taken. */
  lemma {:induction false} ArrayForms(T: Tables, spec: PropertySpec, v: Value)
    requires Single(v)
    ensures var r := Prepare(T, Some(spec), v);
      && (spec.shape == ArrayInt && v.VList? ==> r == Ok(VArray(None, Some(4), v.items)))
      && (spec.shape == ArrayFloat && v.VList? ==> r == Ok(VArray(None, Some(6), v.items)))
      && (spec.shape == ArrayId && v.VList? ==> r == Ok(VArray(None, Some(3), v.items)))
      && (spec.shape in {ArrayInt, ArrayFloat, ArrayId} && !v.VList? ==> r == Err(Mismatch))
  {
    EntryNames();
    hide HasKey;
  }

  /** Alternatives without a type of their own take the property's, or Id 3 for enumerated ones. */
  lemma {:induction false} ChoiceForms(T: Tables, spec: PropertySpec, v: Value)
    requires v.VChoice?
    ensures var r := Prepare(T, Some(spec), v);
      && (v.childType.Some? ==> r == Ok(v))
      && (v.childType.None? && spec.podType.Some? ==>
           r == Ok(VChoice(v.choiceType, v.choiceFlags, v.childSize, spec.podType, v.items)))
      && (v.childType.None? && spec.podType.None? && spec.members.Some? ==>
           r == Ok(VChoice(v.choiceType, v.choiceFlags, v.childSize, Some(3), v.items)))
      && (v.childType.None? && spec.podType.None? && spec.members.None? ==> r == Ok(v))
  {
  }

  // ----- mappings -----

  /** Keys and values in turn, from place `first` on. */
  predicate Alternates(entries: Dict<Str, Value>, items: seq<Value>, first: nat) {
    && |items| == first + 2 * |entries|
    && forall i :: 0 <= i < |entries| ==>
         items[first + 2 * i] == VStr(entries[i].0) && items[first + 2 * i + 1] == entries[i].1
  }

  lemma {:induction false} AlternatesCons(entries: Dict<Str, Value>, rest: seq<Value>)
    requires entries != [] && Alternates(entries[1..], rest, 0)
    ensures Alternates(entries, [VStr(entries[0].0), entries[0].1] + rest, 0)
  {
    var items := [VStr(entries[0].0), entries[0].1] + rest;
    forall i | 0 <= i < |entries|
      ensures items[2 * i] == VStr(entries[i].0) && items[2 * i + 1] == entries[i].1
    {
      if i > 0 {
        assert entries[1..][i - 1] == entries[i];
        assert rest[2 * (i - 1)] == VStr(entries[i].0) && rest[2 * (i - 1) + 1] == entries[i].1;
      }
    }
  }

  lemma {:induction false} ParamItemsAlternate(entries: Dict<Str, Value>)
    ensures Alternates(entries, ParamItems(entries), 0)
    decreases |entries|
  {
    if entries != [] {
      ParamItemsAlternate(entries[1..]);
      AlternatesCons(entries, ParamItems(entries[1..]));
    }
  }

  predicate StringValues(entries: Dict<Str, Value>) {
    forall i :: 0 <= i < |entries| ==> entries[i].1.VStr?
  }

  lemma {:induction false} DictInfoItemsAlternate(entries: Dict<Str, Value>)
    ensures DictInfoItems(entries).Ok? <==> StringValues(entries)
    ensures DictInfoItems(entries).Ok? ==> Alternates(entries, DictInfoItems(entries).value, 0)
    decreases |entries|
  {
    if entries != [] {
      DictInfoItemsAlternate(entries[1..]);
      hide Alternates;
      assert StringValues(entries) <==> entries[0].1.VStr? && StringValues(entries[1..]);
      if DictInfoItems(entries).Ok? { AlternatesCons(entries, DictInfoItems(entries[1..]).value); }
    }
  }

  /** A dict-info struct is the number of entries and then keys and values in turn; all are strings. */
  lemma {:induction false} DictInfoForms(T: Tables, spec: PropertySpec, v: Value)
    requires spec.shape == DictInfo && Single(v)
    ensures var r := Prepare(T, Some(spec), v);
      && (!v.VDict? ==> r == Ok(v))
      && (v.VDict? ==> (r.Ok? <==> StringValues(v.entries)))
      && (v.VDict? && r.Ok? ==>
           r.value.VStruct? && Alternates(v.entries, r.value.items, 1) && r.value.items[0] == VInt(|v.entries|))
  {
    EntryNames();
    if v.VDict? {
      DictInfoItemsAlternate(v.entries);
      hide HasKey, StringValues;
    }
  }

  /** A params struct is keys and values in turn. */
  lemma {:induction false} ParamsForms(T: Tables, spec: PropertySpec, v: Value)
    requires spec.shape == Params && Single(v)
    ensures var r := Prepare(T, Some(spec), v);
      && r.Ok?
      && (!v.VDict? ==> r.value == v)
      && (v.VDict? ==> r.value.VStruct? && Alternates(v.entries, r.value.items, 0))
  {
    EntryNames();
    if v.VDict? { ParamItemsAlternate(v.entries); }
    hide HasKey;
  }

  // ----- lists of mappings -----

  /** What an entry of a list of labels gives: the values under "value" and "label", or a pair. */
  function LabelPair(entry: Value): Option<(Value, Value)> {
    match entry
    case VDict(entries) => Some((GetOrNone(entries, Ascii("value")), GetOrNone(entries, Ascii("label"))))
    case VList(items) => if |items| == 2 then Some((items[0], items[1])) else None
    case _ => None
  }

  predicate AllPairs(labels: seq<Value>) {
    forall i :: 0 <= i < |labels| ==> LabelPair(labels[i]).Some?
  }

  /** The pairs of the entries in turn. */
  predicate InPairs(labels: seq<Value>, items: seq<Value>) {
    && |items| == 2 * |labels|
    && forall i :: 0 <= i < |labels| ==> LabelPair(labels[i]) == Some((items[2 * i], items[2 * i + 1]))
  }

  lemma {:induction false} InPairsCons(labels: seq<Value>, a: Value, b: Value, rest: seq<Value>)
    requires labels != [] && LabelPair(labels[0]) == Some((a, b)) && InPairs(labels[1..], rest)
    ensures InPairs(labels, [a, b] + rest)
  {
    hide LabelPair;
    var items, tail := [a, b] + rest, labels[1..];
    forall i | 0 <= i < |labels|
      ensures LabelPair(labels[i]) == Some((items[2 * i], items[2 * i + 1]))
    {
      if i > 0 {
        assert tail[i - 1] == labels[i];
        assert LabelPair(tail[i - 1]) == Some((rest[2 * (i - 1)], rest[2 * (i - 1) + 1]));
      }
    }
  }

  lemma {:induction false} LabelItemsPairs(labels: seq<Value>)
    ensures LabelItems(labels).Some? <==> AllPairs(labels)
    ensures LabelItems(labels).Some? ==> InPairs(labels, LabelItems(labels).value)
  {
    EntryNames();
    if labels != [] {
      var tail := labels[1..];
      LabelItemsPairs(tail);
      hide InPairs, GetOrNone;
      assert AllPairs(labels) <==> LabelPair(labels[0]).Some? && AllPairs(tail);
      if LabelItems(labels).Some? {
        var pair := LabelPair(labels[0]).value;
        assert LabelItems(labels).value == [pair.0, pair.1] + LabelItems(tail).value;
        InPairsCons(labels, pair.0, pair.1, LabelItems(tail).value);
      }
    }
  }

  /** A labels struct is the values and texts of the entries in turn, if each entry has both. */
  lemma {:induction false} LabelsForms(T: Tables, spec: PropertySpec, v: Value)
    requires spec.shape == Labels && Single(v)
    ensures var r := Prepare(T, Some(spec), v);
      && r.Ok?
      && (v.VList? && AllPairs(v.items) ==> r.value.VStruct? && InPairs(v.items, r.value.items))
      && (!(v.VList? && AllPairs(v.items)) ==> r.value == v)
  {
    EntryNames();
    if v.VList? { LabelItemsPairs(v.items); }
    hide HasKey, AllPairs, InPairs;
  }

  /** The struct of one profile class: name, number, property, and the devices as an array of Int 4. */
  predicate ClassAs(entries: Dict<Str, Value>, v: Value) {
    var name, property := Get(entries, Ascii("class")), Get(entries, Ascii("property"));
    var count, devices := Get(entries, Ascii("count")), Get(entries, Ascii("devices"));
    && name.Some? && name.value.VStr? && property.Some? && property.value.VStr?
    && (count.Some? ==> AsInt(count.value).Some?)
    && (devices.Some? ==> devices.value.VList?)
    && v == VStruct([
         name.value, VInt(if count.None? then 0 else AsInt(count.value).value), property.value,
         VArray(None, Some(4), if devices.None? then [] else devices.value.items)])
  }

  lemma {:induction false} ClassStructAs(entries: Dict<Str, Value>)
    ensures ClassStruct(entries).Ok? ==> ClassAs(entries, ClassStruct(entries).value)
    ensures forall v :: ClassAs(entries, v) ==> ClassStruct(entries) == Ok(v)
  {
    EntryNames();
    hide Get;
  }

  predicate AllMappings(classes: seq<Value>) {
    forall i :: 0 <= i < |classes| ==> classes[i].VDict?
  }

  /** One struct for each class. */
  predicate EachClass(classes: seq<Value>, items: seq<Value>)
    requires AllMappings(classes)
  {
    |items| == |classes| && forall i :: 0 <= i < |classes| ==> ClassAs(classes[i].entries, items[i])
  }

  lemma {:induction false} EachClassCons(classes: seq<Value>, first: Value, rest: seq<Value>)
    requires classes != [] && AllMappings(classes) && AllMappings(classes[1..])
    requires ClassAs(classes[0].entries, first) && EachClass(classes[1..], rest)
    ensures EachClass(classes, [first] + rest)
  {
    hide ClassAs;
    var items, tail := [first] + rest, classes[1..];
    forall i | 0 <= i < |classes| ensures ClassAs(classes[i].entries, items[i]) {
      if i > 0 { assert classes[i] == tail[i - 1] && items[i] == rest[i - 1]; }
    }
  }

  lemma {:induction false} ClassItemsEach(classes: seq<Value>)
    ensures AllMappings(classes) && ClassItems(classes).Ok? ==>
      ClassItems(classes).value.Some? && EachClass(classes, ClassItems(classes).value.value)
    ensures ClassItems(classes).Ok? && ClassItems(classes).value.Some? ==> AllMappings(classes)
  {
    if classes != [] {
      var tail := classes[1..];
      ClassItemsEach(tail);
      if classes[0].VDict? { ClassStructAs(classes[0].entries); }
      hide ClassStruct, ClassAs;
      assert AllMappings(classes) <==> classes[0].VDict? && AllMappings(tail);
      hide AllMappings, EachClass;
      if AllMappings(classes) && ClassItems(classes).Ok? {
        EachClassCons(classes, ClassStruct(classes[0].entries).value, ClassItems(tail).value.value);
      }
    }
  }

  /** A profile-classes struct is the number of classes and a struct for each. */
  lemma {:induction false} ClassesForms(T: Tables, spec: PropertySpec, v: Value)
    requires spec.shape == ProfileClasses && Single(v)
    ensures var r := Prepare(T, Some(spec), v);
      && (!v.VList? ==> r == Ok(v))
      && (v.VList? && AllMappings(v.items) && r.Ok? ==>
           && r.value.VStruct? && |r.value.items| == 1 + |v.items| && r.value.items[0] == VInt(|v.items|)
           && EachClass(v.items, r.value.items[1..]))
      && (v.VList? && !AllMappings(v.items) && r.Ok? ==> r.value == v)
  {
    EntryNames();
    if v.VList? { ClassItemsEach(v.items); }
    hide HasKey, AllMappings, EachClass;
  }

  // ----- nested objects -----

  /** An object made of a mapping: its entries in order, clear flags, and the numbers its table knows. */
  ghost predicate ObjectOf(T: Tables, entries: Dict<Str, Value>, v: Value) {
    && v.VObject? && |v.properties| == |entries|
    && (forall i :: 0 <= i < |entries| ==> v.properties[i] == (Name(entries[i].0), entries[i].1))
    && (forall k :: k in v.flags <==> exists i :: 0 <= i < |entries| && k == Name(entries[i].0))
    && (forall k :: k in v.flags ==> v.flags[k] == 0)
    && (forall n ::
          n in v.keys <==>
            && v.objectId in T && n in T[v.objectId].byName
            && exists i :: 0 <= i < |entries| && n == entries[i].0)
    && (forall n :: n in v.keys ==> v.keys[n] == T[v.objectId].byName[n].key)
  }

  lemma {:induction false} NamedEntries(entries: Dict<Str, Value>)
    ensures |NameEntries(entries)| == |entries|
    ensures forall i :: 0 <= i < |entries| ==> NameEntries(entries)[i] == (Name(entries[i].0), entries[i].1)
    decreases |entries|
  {
    if entries != [] {
      NamedEntries(entries[1..]);
      assert forall i :: 0 <= i < |entries| - 1 ==> entries[1..][i] == entries[i + 1];
    }
  }

  lemma {:induction false} EnsuredObject(T: Tables, entries: Dict<Str, Value>, objectType: int, objectId: int)
    ensures ObjectOf(T, entries, EnsureObject(T, VDict(entries), objectType, objectId))
  {
    NamedEntries(entries);
    hide NameEntries;
  }

  /** A mapping on a nested-object property becomes Props (0x40002, id 2) or Format (0x40003, id 4). */
  lemma {:induction false} ObjectForms(T: Tables, spec: PropertySpec, v: Value)
    requires (spec.shape == ObjectProps || spec.shape == ObjectFormat) && Single(v)
    ensures var r := Prepare(T, Some(spec), v);
      && r.Ok?
      && (!v.VDict? ==> r.value == v)
      && (v.VDict? ==>
           && ObjectOf(T, v.entries, r.value)
           && r.value.objectType == (if spec.shape == ObjectProps then 0x40002 else 0x40003)
           && r.value.objectId == (if spec.shape == ObjectProps then 2 else 4))
  {
    EntryNames();
    if v.VDict? {
      EnsuredObject(T, v.entries, 0x40002, 2);
      EnsuredObject(T, v.entries, 0x40003, 4);
    }
    hide HasKey, ObjectOf;
  }

  // ----- and back: what parsed values are presented as -----

  /** The i-th pair has key `k`, and no later one has. */
  ghost predicate LastWith(items: seq<Value>, k: Str, i: nat) {
    && 2 * i + 1 < |items| && items[2 * i] == VStr(k)
    && forall j :: i < j && 2 * j + 1 < |items| ==> items[2 * j] != VStr(k)
  }

  /** Every second item, from the first on, is a string. */
  ghost predicate StringKeys(items: seq<Value>) {
    forall i :: 0 <= i && 2 * i + 1 < |items| ==> items[2 * i].VStr?
  }

  /** Each key is presented once, with the value of its last pair. */
  ghost predicate PairsOf(items: seq<Value>, d: Dict<Str, Value>) {
    && (forall k: Str, i: nat :: LastWith(items, k, i) ==> Get(d, k) == Some(items[2 * i + 1]))
    && (forall k: Str :: Get(d, k).Some? ==> exists i: nat :: LastWith(items, k, i))
  }

  lemma {:induction false} GetAfterPut(d: Dict<Str, Value>, k: Str, v: Value, q: Str)
    ensures Get(Put(d, k, v), q) == if q == k then Some(v) else Get(d, q)
    decreases |d|
  {
    if d != [] {
      GetAfterPut(d[1..], k, v, q);
      var r := Put(d, k, v);
      assert r[1..] == if d[0].0 == k then d[1..] else Put(d[1..], k, v);
    } else {
      assert [(k, v)][1..] == d;
    }
  }

  lemma {:induction false} KeysSplit(items: seq<Value>)
    requires |items| >= 2
    ensures StringKeys(items) <==> items[0].VStr? && StringKeys(items[2..])
  {
    var rest := items[2..];
    assert forall i :: 0 <= i && 2 * i + 1 < |rest| ==> rest[2 * i] == items[2 * (i + 1)];
    assert StringKeys(items) ==> items[2 * 0].VStr?;
    if items[0].VStr? && StringKeys(rest) {
      forall i | 0 <= i && 2 * i + 1 < |items| ensures items[2 * i].VStr? {
        if i > 0 { assert items[2 * i] == rest[2 * (i - 1)]; }
      }
    }
  }

  lemma {:induction false} PairUpReads(acc: Dict<Str, Value>, items: seq<Value>, k: Str)
    requires |items| % 2 == 0
    ensures PairUp(acc, items).Some? <==> StringKeys(items)
    ensures PairUp(acc, items).Some? ==>
      && (forall i: nat :: LastWith(items, k, i) ==> Get(PairUp(acc, items).value, k) == Some(items[2 * i + 1]))
      && ((forall i: nat :: !LastWith(items, k, i)) ==> Get(PairUp(acc, items).value, k) == Get(acc, k))
    decreases |items|
  {
    if items != [] {
      var rest := items[2..];
      KeysSplit(items);
      if items[0].VStr? {
        var next := Put(acc, items[0].s, items[1]);
        assert PairUp(acc, items) == PairUp(next, rest);
        assert forall i :: i > 0 && 2 * i + 1 < |items| ==> items[2 * i + 1] == rest[2 * (i - 1) + 1];
        PairUpReads(next, rest, k);
        GetAfterPut(acc, items[0].s, items[1], k);
        LastSplits(items, k);
        hide StringKeys, PairUp, Put, Get, LastWith;
        forall i: nat | LastWith(items, k, i) && PairUp(acc, items).Some?
          ensures 2 * i + 1 < |items| && Get(PairUp(acc, items).value, k) == Some(items[2 * i + 1])
        {
          LastInside(items, k, i);
          if i > 0 { assert LastWith(rest, k, i - 1); }
        }
        if forall i: nat :: !LastWith(items, k, i) {
          assert forall j: nat :: LastWith(rest, k, j) ==> LastWith(items, k, j + 1);
          assert items[0] != VStr(k);
        }
      }
    }
  }

  lemma LastInside(items: seq<Value>, k: Str, i: nat)
    requires LastWith(items, k, i)
    ensures 2 * i + 1 < |items| && items[2 * i] == VStr(k)
  {
  }

  lemma {:induction false} LastSplits(items: seq<Value>, k: Str)
    requires |items| >= 2
    ensures forall i: nat :: i > 0 ==> (LastWith(items, k, i) <==> LastWith(items[2..], k, i - 1))
    ensures LastWith(items, k, 0) <==> items[0] == VStr(k) && forall i: nat :: !LastWith(items[2..], k, i)
  {
    var rest := items[2..];
    forall i: nat | i > 0 ensures LastWith(items, k, i) <==> LastWith(rest, k, i - 1) {
      LastShift(items, k, i);
    }
    if items[0] == VStr(k) && forall i: nat :: !LastWith(rest, k, i) {
      if j: nat :| 0 < j && 2 * j + 1 < |items| && items[2 * j] == VStr(k) {
        assert rest[2 * (j - 1)] == VStr(k);
        SomeLast(rest, k, j - 1);
        assert false;
      }
    }
    if LastWith(items, k, 0) {
      forall i: nat ensures !LastWith(rest, k, i) {
        assert 2 * i + 1 < |rest| ==> rest[2 * i] == items[2 * (i + 1)];
      }
    }
  }

  lemma {:induction false} LastShift(items: seq<Value>, k: Str, i: nat)
    requires |items| >= 2 && i > 0
    ensures LastWith(items, k, i) <==> LastWith(items[2..], k, i - 1)
  {
    var rest := items[2..];
    assert forall j :: 0 <= j && 2 * j + 1 < |rest| ==> rest[2 * j] == items[2 * (j + 1)];
    if LastWith(rest, k, i - 1) {
      forall j | i < j && 2 * j + 1 < |items| ensures items[2 * j] != VStr(k) {
        assert rest[2 * (j - 1)] == items[2 * j];
      }
    }
  }

  lemma {:induction false} SomeLast(items: seq<Value>, k: Str, i: nat)
    requires 2 * i + 1 < |items| && items[2 * i] == VStr(k)
    ensures exists j: nat :: LastWith(items, k, j)
    decreases |items| - i
  {
    if !LastWith(items, k, i) {
      var j :| i < j && 2 * j + 1 < |items| && items[2 * j] == VStr(k);
      SomeLast(items, k, j);
    }
  }

  lemma {:induction false} PairsRead(items: seq<Value>)
    requires |items| % 2 == 0 && PairUp([], items).Some?
    ensures PairsOf(items, PairUp([], items).value)
  {
    forall k: Str
      ensures forall i: nat :: LastWith(items, k, i) ==> Get(PairUp([], items).value, k) == Some(items[2 * i + 1])
      ensures Get(PairUp([], items).value, k).Some? ==> exists i: nat :: LastWith(items, k, i)
    {
      PairUpReads([], items, k);
      assert Get<Str, Value>([], k).None?;
    }
    hide PairUp, Get, LastWith;
  }

  /** A parsed params struct is presented as a mapping exactly when it has pairs only, all keys strings. */
  lemma {:induction false} ReadsParams(v: Value)
    ensures var r := StructToParams(v);
      if v.VStruct? && |v.items| % 2 == 0 && StringKeys(v.items) then r.VDict? && PairsOf(v.items, r.entries) else r == v
  {
    if v.VStruct? && |v.items| % 2 == 0 {
      PairUpReads([], v.items, []);
      if PairUp([], v.items).Some? { PairsRead(v.items); }
      hide PairUp, PairsOf, StringKeys;
    }
  }

  /** A dict-info struct, when the number in front is that of the pairs, and all of them are strings. */
  lemma {:induction false} ReadsDictInfo(v: Value)
    ensures var r := StructToDictInfo(v);
      if v.VStruct? && v.items != [] && AsInt(v.items[0]).Some? && |v.items| == 1 + 2 * AsInt(v.items[0]).value
        && (forall i :: 0 < i < |v.items| ==> v.items[i].VStr?) then r.VDict? && PairsOf(v.items[1..], r.entries)
      else r == v
  {
    if v.VStruct? && v.items != [] && AsInt(v.items[0]).Some? {
      var values := v.items[1..];
      assert (forall i :: 0 < i < |v.items| ==> v.items[i].VStr?) <==> AllStrings(values) by {
        assert forall i :: 0 <= i < |values| ==> values[i] == v.items[i + 1];
        if AllStrings(values) { assert forall i :: 0 < i < |v.items| ==> v.items[i] == values[i - 1]; }
      }
      if |values| == 2 * AsInt(v.items[0]).value && AllStrings(values) {
        PairUpReads([], values, []);
        assert StringKeys(values);
        PairsRead(values);
        hide PairUp, PairsOf;
      }
    }
  }

  /** A labels struct, when every second item from the second on is a string: one mapping for each pair. */
  lemma {:induction false} ReadsLabels(v: Value)
    ensures var r := StructToLabels(v);
      if v.VStruct? && |v.items| % 2 == 0 && StringTexts(v.items) then r.VList? && EachLabel(v.items, r.items) else r == v
  {
    if v.VStruct? && |v.items| % 2 == 0 { LabelsRead(v.items); }
    hide StringTexts, EachLabel;
  }

  ghost predicate StringTexts(items: seq<Value>) {
    forall i :: 0 <= i && 2 * i + 1 < |items| ==> items[2 * i + 1].VStr?
  }

  predicate EachLabel(items: seq<Value>, labels: seq<Value>) {
    && |items| == 2 * |labels|
    && forall i :: 0 <= i < |labels| ==>
         labels[i] == VDict([(Ascii("value"), items[2 * i]), (Ascii("label"), items[2 * i + 1])])
  }

  lemma {:induction false} LabelsRead(items: seq<Value>)
    requires |items| % 2 == 0
    ensures LabelsFrom(items).Some? <==> StringTexts(items)
    ensures LabelsFrom(items).Some? ==> EachLabel(items, LabelsFrom(items).value)
    decreases |items|
  {
    EntryNames();
    if items != [] {
      var rest := items[2..];
      LabelsRead(rest);
      TextsSplit(items);
      if LabelsFrom(items).Some? {
        var labels, tail := LabelsFrom(items).value, LabelsFrom(rest).value;
        assert labels == [Label(items[0], items[1])] + tail;
        hide LabelsFrom, StringTexts;
        forall i | 0 <= i < |labels|
          ensures labels[i] == VDict([(Ascii("value"), items[2 * i]), (Ascii("label"), items[2 * i + 1])])
        {
          if i > 0 {
            assert labels[i] == tail[i - 1];
            assert rest[2 * (i - 1)] == items[2 * i] && rest[2 * (i - 1) + 1] == items[2 * i + 1];
          }
        }
      }
    }
  }

  lemma {:induction false} TextsSplit(items: seq<Value>)
    requires |items| >= 2
    ensures StringTexts(items) <==> items[1].VStr? && StringTexts(items[2..])
  {
    var rest := items[2..];
    assert forall i :: 0 <= i && 2 * i + 1 < |rest| ==> rest[2 * i + 1] == items[2 * (i + 1) + 1];
    assert StringTexts(items) ==> items[2 * 0 + 1].VStr?;
    if items[1].VStr? && StringTexts(rest) {
      forall i | 0 <= i && 2 * i + 1 < |items| ensures items[2 * i + 1].VStr? {
        if i > 0 { assert items[2 * i + 1] == rest[2 * (i - 1) + 1]; }
      }
    }
    if StringTexts(items) {
      forall i | 0 <= i && 2 * i + 1 < |rest| ensures rest[2 * i + 1].VStr? {
        assert rest[2 * i + 1] == items[2 * (i + 1) + 1];
      }
    }
  }

  /** A number on an enumerated property is presented as the member with it, if there is one. */
  lemma {:induction false} ReadsMembers(i: int, b: bool, members: set<int>, v: Value)
    ensures Coerce(VInt(i), members) == if i in members then VEnum(i) else VInt(i)
    ensures Coerce(VBool(b), members) == if (if b then 1 else 0) in members then VEnum(if b then 1 else 0) else VBool(b)
    ensures !v.VInt? && !v.VBool? ==> Coerce(v, members) == v
  {
  }

  /** A parsed array of numbers is presented as the list of them, members coerced where there are any. */
  lemma {:induction false} ReadsNumbers(size: Option<int>, ty: Option<int>, items: seq<Value>, members: Option<set<int>>)
    ensures var r := SpecializeArray(ToInt, members, VArray(size, ty, items));
      && (r.Ok? <==> forall i :: 0 <= i < |items| ==> items[i].VInt? || items[i].VEnum? || items[i].VBool?)
      && (r.Ok? ==>
           && r.value.VList? && |r.value.items| == |items|
           && forall i :: 0 <= i < |items| ==>
                var n := AsInt(items[i]);
                n.Some? && r.value.items[i]
                  == if members.Some? && n.value in members.value then VEnum(n.value) else VInt(n.value))
    ensures var r := SpecializeArray(ToFloat, None, VArray(size, ty, items));
      && (r.Ok? <==> forall i :: 0 <= i < |items| ==> items[i].VFloat?)
      && (r.Ok? ==> r.value == VList(items))
  {
    ConvertsInts(items);
    ConvertsFloats(items);
    hide ConvertAll;
  }

  lemma {:induction false} ConvertsInts(items: seq<Value>)
    ensures var r := ConvertAll(ToInt, items);
      && (r.Ok? <==> forall i :: 0 <= i < |items| ==> items[i].VInt? || items[i].VEnum? || items[i].VBool?)
      && (r.Ok? ==> forall i :: 0 <= i < |items| ==> AsInt(items[i]).Some? && r.value[i] == VInt(AsInt(items[i]).value))
  {
    if items != [] {
      ConvertsInts(items[1..]);
      assert forall i :: 0 < i < |items| ==> items[i] == items[1..][i - 1];
      assert forall i :: 0 <= i < |items| - 1 ==> items[1..][i] == items[i + 1];
    }
  }

  lemma {:induction false} ConvertsFloats(items: seq<Value>)
    ensures var r := ConvertAll(ToFloat, items);
      && (r.Ok? <==> forall i :: 0 <= i < |items| ==> items[i].VFloat?)
      && (r.Ok? ==> r.value == items)
  {
    if items != [] {
      ConvertsFloats(items[1..]);
      assert forall i :: 0 < i < |items| ==> items[i] == items[1..][i - 1];
      assert forall i :: 0 <= i < |items| - 1 ==> items[1..][i] == items[i + 1];
    }
  }
}
