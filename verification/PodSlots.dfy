/** How the presented shapes of typed properties read back what was built for them. */
module PodSlots {
  import opened Wrappers
  import opened Wire
  import opened PodValues
  import opened PodShapes
  import opened PodCodec
  import opened PodRoundTrip
  import opened PodCanonical

  lemma ConsOk<A>(head: Result<A, Error>, tail: Result<seq<A>, Error>, items: seq<A>)
    requires items != []
    ensures Cons(head, tail) == Ok(items) <==> head == Ok(items[0]) && tail == Ok(items[1..])
  {
    if Cons(head, tail) == Ok(items) {
      assert items[1..] == tail.value;
    }
    if head == Ok(items[0]) && tail == Ok(items[1..]) {
      assert items == [items[0]] + items[1..];
    }
  }

  // Dictionaries filled entry by entry.

  function PutAll<K(==), V>(acc: Dict<K, V>, entries: Dict<K, V>): Dict<K, V>
    decreases |entries|
  {
    if entries == [] then acc else PutAll(Put(acc, entries[0].0, entries[0].1), entries[1..])
  }

  lemma {:induction false} PutKeys<K, V>(d: Dict<K, V>, k: K, v: V)
    requires UniqueKeys(d)
    ensures UniqueKeys(Put(d, k, v))
    ensures |Put(d, k, v)| == |d| + (if HasKey(d, k) then 0 else 1)
    ensures forall q :: HasKey(Put(d, k, v), q) <==> q == k || HasKey(d, q)
  {
    if HasKey(d, k) {
      if d[0].0 == k {
        var r := [(k, v)] + d[1..];
        assert forall i :: 0 <= i < |d| ==> r[i].0 == d[i].0;
      } else {
        assert forall i :: 0 <= i < |d[1..]| ==> d[1..][i] == d[i + 1];
        assert HasKey(d[1..], k) by {
          var i :| 0 <= i < |d| && d[i].0 == k;
          assert d[1..][i - 1].0 == k;
        }
        PutKeys(d[1..], k, v);
        var tail := Put(d[1..], k, v);
        var r := [d[0]] + tail;
        assert r[0] == d[0];
        assert forall i :: 0 < i < |r| ==> r[i] == tail[i - 1];
        forall i | 0 < i < |r|
          ensures r[i].0 != r[0].0
        {
          assert HasKey(tail, r[i].0);
        }
        forall q
          ensures HasKey(r, q) <==> q == k || HasKey(d, q)
        {
          HasKeyCons(d, q);
          HasKeyCons(r, q);
          assert r[1..] == tail;
        }
      }
    } else {
      var r := d + [(k, v)];
      assert forall i :: 0 <= i < |d| ==> r[i] == d[i];
      assert r[|d|].0 == k;
    }
  }

  lemma {:induction false} HasKeyCons<K, V>(d: Dict<K, V>, q: K)
    requires d != []
    ensures HasKey(d, q) <==> d[0].0 == q || HasKey(d[1..], q)
  {
    if HasKey(d, q) && d[0].0 != q {
      var i :| 0 <= i < |d| && d[i].0 == q;
      assert d[1..][i - 1].0 == q;
    }
    if HasKey(d[1..], q) {
      var i :| 0 <= i < |d[1..]| && d[1..][i].0 == q;
      assert d[i + 1].0 == q;
    }
  }

  /** Entering distinct new keys lists them; a repeated key loses an entry. */
  lemma {:induction false} PutAllLists<K, V>(acc: Dict<K, V>, entries: Dict<K, V>)
    requires UniqueKeys(acc)
    ensures |PutAll(acc, entries)| <= |acc| + |entries|
    ensures |PutAll(acc, entries)| == |acc| + |entries| <==> UniqueKeys(acc + entries)
    ensures UniqueKeys(acc + entries) ==> PutAll(acc, entries) == acc + entries
    decreases |entries|
  {
    if entries == [] {
      assert acc + entries == acc;
    } else {
      var k, v := entries[0].0, entries[0].1;
      PutKeys(acc, k, v);
      PutAllLists(Put(acc, k, v), entries[1..]);
      if HasKey(acc, k) {
        var i :| 0 <= i < |acc| && acc[i].0 == k;
        assert (acc + entries)[i].0 == (acc + entries)[|acc|].0;
      } else {
        assert acc + [(k, v)] + entries[1..] == acc + entries;
      }
    }
  }

  /** A dictionary of as many entries as were put into it holds just these, under distinct keys. */
  lemma {:induction false} PutAllIff<K, V>(entries: Dict<K, V>, d: Dict<K, V>)
    requires |d| == |entries|
    ensures PutAll([], entries) == d <==> entries == d && UniqueKeys(d)
  {
    PutAllLists([], entries);
    assert [] + entries == entries;
  }

  lemma {:induction false} PairUpPuts(acc: Dict<Str, Value>, entries: Dict<Str, Value>)
    ensures |ParamItems(entries)| == 2 * |entries|
    ensures PairUp(acc, ParamItems(entries)) == Some(PutAll(acc, entries))
    decreases |entries|
  {
    if entries != [] {
      var items := ParamItems(entries);
      PairUpPuts(Put(acc, entries[0].0, entries[0].1), entries[1..]);
      assert items[2..] == ParamItems(entries[1..]);
    }
  }

  lemma {:induction false} ParamItemsInjective(a: Dict<Str, Value>, b: Dict<Str, Value>)
    requires ParamItems(a) == ParamItems(b)
    ensures a == b
  {
    if a != [] && b != [] {
      assert ParamItems(a)[0] == VStr(a[0].0) && ParamItems(a)[1] == a[0].1;
      assert ParamItems(b)[0] == VStr(b[0].0) && ParamItems(b)[1] == b[0].1;
      assert ParamItems(a)[2..] == ParamItems(a[1..]) && ParamItems(b)[2..] == ParamItems(b[1..]);
      ParamItemsInjective(a[1..], b[1..]);
      assert a == [a[0]] + a[1..] && b == [b[0]] + b[1..];
    }
  }

  lemma {:induction false} DictInfoItemsAre(entries: Dict<Str, Value>)
    ensures DictInfoItems(entries).Ok? <==> forall i :: 0 <= i < |entries| ==> entries[i].1.VStr?
    ensures DictInfoItems(entries).Ok? ==> DictInfoItems(entries).value == ParamItems(entries)
  {
    if entries != [] {
      DictInfoItemsAre(entries[1..]);
      assert forall i :: 0 < i < |entries| ==> entries[i] == entries[1..][i - 1];
      assert forall i :: 0 <= i < |entries[1..]| ==> entries[1..][i] == entries[i + 1];
    }
  }

  // Number arrays.

  /** The plain numbers behind integers and enum members. */
  function Numbers(items: seq<Value>): seq<Value> {
    if items == [] then []
    else [if AsInt(items[0]).Some? then VInt(AsInt(items[0]).value) else items[0]] + Numbers(items[1..])
  }

  /** What array specialization makes of the array's items. */
  function PresentItems(c: Conversion, members: Option<set<int>>, items: seq<Value>): Result<seq<Value>, Error> {
    var numbers :- ConvertAll(c, items);
    Ok(if members.None? then numbers else CoerceAll(numbers, members.value))
  }

  lemma {:induction false} PresentedArray(c: Conversion, members: Option<set<int>>, v: Value)
    requires v.VArray?
    ensures SpecializeCandidate(c, members, v)
         == (if PresentItems(c, members, v.items).Ok? then Ok(VList(PresentItems(c, members, v.items).value))
             else Err(PresentItems(c, members, v.items).error))
  {
  }

  /** Whatever an array specializes to consists of plain elements. */
  lemma {:induction false} PresentedPlain(c: Conversion, members: Option<set<int>>, items: seq<Value>)
    requires PresentItems(c, members, items).Ok?
    requires c.ToFloat? ==> members.None?
    ensures PlainElements(c, members, PresentItems(c, members, items).value)
  {
    var r := PresentItems(c, members, items).value;
    if items != [] {
      PresentedPlain(c, members, items[1..]);
      var tail := ConvertAll(c, items[1..]).value;
      var all := ConvertAll(c, items).value;
      assert all[1..] == tail;
      if members.Some? {
        assert CoerceAll(all, members.value)[1..] == CoerceAll(tail, members.value);
      }
      assert r[1..] == PresentItems(c, members, items[1..]).value;
      assert PlainElement(c, members, r[0]);
    }
  }

  /** Plain elements are what their numbers specialize to. */
  lemma {:induction false} PlainPresented(c: Conversion, members: Option<set<int>>, items: seq<Value>)
    requires PlainElements(c, members, items)
    requires c.ToFloat? ==> members.None?
    ensures PresentItems(c, members, Numbers(items)) == Ok(items)
  {
    if items == [] {
      assert members.Some? ==> CoerceAll([], members.value) == [];
    } else {
      PlainPresented(c, members, items[1..]);
      var numbers := Numbers(items);
      assert numbers[1..] == Numbers(items[1..]);
      var tail := ConvertAll(c, numbers[1..]).value;
      assert Convert(c, numbers[0]) == Ok(numbers[0]);
      var all := ConvertAll(c, numbers).value;
      assert all == [numbers[0]] + tail;
      if members.Some? {
        var coerced := CoerceAll(all, members.value);
        assert coerced[1..] == CoerceAll(tail, members.value) == items[1..];
        assert coerced == [coerced[0]] + coerced[1..];
        assert coerced[0] == items[0];
      } else {
        assert tail == items[1..];
        assert numbers[0] == items[0];
      }
      assert items == [items[0]] + items[1..];
    }
  }

  /** Items built as numbers come back as the numbers they are. */
  lemma {:induction false} NumbersNormal(T: Tables, items: seq<Value>, childType: int, given: Option<int>)
    requires IsIntType(childType) || childType == T_FLOAT
    requires BuildItems(T, items, childType, given).Ok?
    ensures NormalizeItems(T, items, childType) == Ok(Numbers(items))
    ensures items != [] ==> BuildItems(T, items, childType, given).value.0 in {4, 8}
    ensures IsIntType(childType) ==> ConvertAll(ToInt, Numbers(items)) == Ok(Numbers(items))
    decreases |items|
  {
    if items != [] {
      var body := BuildLeaf(items[0], childType).value;
      NumbersNormal(T, items[1..], childType, Some(|body|));
      assert |body| == 4 || |body| == 8;
      assert Numbers(items)[1..] == Numbers(items[1..]);
    }
  }

  /** An array of numbers normalizes to the array of its numbers. */
  lemma NumberArrayNormal(T: Tables, v: Value, childType: int)
    requires v.VArray? || v.VList?
    requires BuildArray(T, v).Ok? && ItemType(v) == Ok(childType)
    requires IsIntType(childType) || childType == T_FLOAT
    ensures NormalizeArray(T, v).Ok? && NormalizeArray(T, v).value.VArray?
    ensures NormalizeArray(T, v).value.items == Numbers(v.items)
  {
    hide BuildItems, NormalizeItems;
    NumbersNormal(T, v.items, childType, ChildSizeOf(v));
  }

  /** A list on an array-shaped property returns exactly when its elements are plain. */
  lemma NumberListIff(T: Tables, c: Conversion, members: Option<set<int>>, v: Value, items: seq<Value>)
    requires v == VList(items) || exists ct :: v == VArray(None, Some(ct), items)
    requires BuildArray(T, v).Ok?
    requires c.ToFloat? ==> members.None?
    requires v.VArray? ==> v.childType == Some(T_FLOAT) || (c.ToInt? && IsIntType(v.childType.value))
    ensures var parsed := NormalizeArray(T, v);
      (parsed.Ok? && SpecializeCandidate(c, members, parsed.value) == Ok(VList(items)))
      <==> PlainElements(c, members, items)
  {
    hide BuildItems, NormalizeItems, ConvertAll, PlainElements;
    var parsed := NormalizeArray(T, v);
    if parsed.Ok? && SpecializeCandidate(c, members, parsed.value) == Ok(VList(items)) {
      PresentedArray(c, members, parsed.value);
      PresentedPlain(c, members, parsed.value.items);
    }
    if PlainElements(c, members, items) {
      PlainItemType(T, c, members, v, items);
      NumberArrayNormal(T, v, ItemType(v).value);
      PresentedArray(c, members, parsed.value);
      PlainPresented(c, members, items);
    }
  }

  lemma PlainItemType(T: Tables, c: Conversion, members: Option<set<int>>, v: Value, items: seq<Value>)
    requires v == VList(items) || exists ct :: v == VArray(None, Some(ct), items)
    requires BuildArray(T, v).Ok? && PlainElements(c, members, items)
    requires v.VArray? ==> v.childType == Some(T_FLOAT) || (c.ToInt? && IsIntType(v.childType.value))
    ensures ItemType(v).Ok? && (IsIntType(ItemType(v).value) || ItemType(v).value == T_FLOAT)
  {
  }

  // String dictionaries.

  /** String entries as they come back: everything after a NUL is gone. */
  function CutStrings(entries: Dict<Str, Value>): (r: Dict<Str, Value>)
    requires forall i :: 0 <= i < |entries| ==> entries[i].1.VStr?
    ensures |r| == |entries|
    ensures forall i :: 0 <= i < |r| ==> r[i] == (UntilNul(entries[i].0), VStr(UntilNul(entries[i].1.s)))
  {
    seq(|entries|, i requires 0 <= i < |entries| => (UntilNul(entries[i].0), VStr(UntilNul(entries[i].1.s))))
  }

  lemma {:induction false} CutStringsPlain(entries: Dict<Str, Value>)
    requires forall i :: 0 <= i < |entries| ==> entries[i].1.VStr?
    ensures CutStrings(entries) == entries && UniqueKeys(entries) <==> PlainStrings(entries)
  {
    var cut := CutStrings(entries);
    if cut == entries {
      forall i | 0 <= i < |entries|
        ensures 0 !in entries[i].0 && 0 !in entries[i].1.s
      {
        assert cut[i] == entries[i];
      }
    }
    if PlainStrings(entries) {
      forall i | 0 <= i < |entries|
        ensures cut[i] == entries[i]
      {
        assert 0 !in entries[i].0;
        assert CanonicalLeaf(entries[i].1, T_STRING);
      }
    }
  }

  lemma {:induction false} ParamItemsStrings(entries: Dict<Str, Value>)
    requires forall i :: 0 <= i < |entries| ==> entries[i].1.VStr?
    ensures AllStrings(ParamItems(entries))
  {
    if entries != [] {
      assert forall i :: 0 <= i < |entries[1..]| ==> entries[1..][i] == entries[i + 1];
      ParamItemsStrings(entries[1..]);
      var rest := ParamItems(entries[1..]);
      assert forall i :: 2 <= i < |ParamItems(entries)| ==> ParamItems(entries)[i] == rest[i - 2];
    }
  }

  /** The pod types of a list's first two items matter before those of the rest. */
  lemma {:induction false} NormalPair(T: Tables, a: Value, b: Value, rest: seq<Value>)
    requires InferType(a).Ok? && InferType(b).Ok?
    ensures NormalizePods(T, [a, b] + rest)
         == Cons(Normalize(T, a, InferType(a).value), Cons(Normalize(T, b, InferType(b).value), NormalizePods(T, rest)))
  {
    hide Normalize, Cons;
    assert ([a, b] + rest)[1..] == [b] + rest;
    assert ([b] + rest)[1..] == rest;
  }

  lemma {:induction false} NormalString(T: Tables, s: Str)
    ensures Normalize(T, VStr(s), T_STRING) == Ok(VStr(UntilNul(s)))
  {
  }

  lemma {:induction false} ParamItemsCons(entries: Dict<Str, Value>)
    requires entries != []
    ensures ParamItems(entries) == [VStr(entries[0].0)] + ([entries[0].1] + ParamItems(entries[1..]))
  {
  }

  lemma {:induction false} StringsNormal(T: Tables, entries: Dict<Str, Value>)
    requires forall i :: 0 <= i < |entries| ==> entries[i].1.VStr?
    ensures NormalizePods(T, ParamItems(entries)) == Ok(ParamItems(CutStrings(entries)))
    decreases |entries|
  {
    hide Normalize;
    if entries != [] {
      assert forall i :: 0 <= i < |entries[1..]| ==> entries[1..][i] == entries[i + 1];
      StringsNormal(T, entries[1..]);
      var k, v := VStr(entries[0].0), entries[0].1;
      NormalPair(T, k, v, ParamItems(entries[1..]));
      NormalString(T, k.s);
      NormalString(T, v.s);
      var cut := CutStrings(entries);
      assert cut[1..] == CutStrings(entries[1..]);
      ParamItemsCons(cut);
      hide NormalizePods, CutStrings, ParamItems;
    }
  }

  /** A property value is presented again as it was. */
  ghost predicate Returns(T: Tables, spec: Option<PropertySpec>, prepared: Value, ty: int, v: Value) {
    var parsed := Normalize(T, prepared, ty);
    parsed.Ok? && Specialize(spec, parsed.value) == Ok(v)
  }

  lemma {:induction false} DictInfoReads(entries: Dict<Str, Value>)
    requires forall i :: 0 <= i < |entries| ==> entries[i].1.VStr?
    ensures StructToDictInfo(VStruct([VInt(|entries|)] + ParamItems(entries))) == VDict(PutAll([], entries))
  {
    hide PairUp, AllStrings;
    var items := [VInt(|entries|)] + ParamItems(entries);
    PairUpPuts([], entries);
    ParamItemsStrings(entries);
    assert items[1..] == ParamItems(entries);
  }

  lemma {:induction false} DictInfoNormal(T: Tables, entries: Dict<Str, Value>)
    requires forall i :: 0 <= i < |entries| ==> entries[i].1.VStr?
    ensures Normalize(T, VStruct([VInt(|entries|)] + ParamItems(entries)), T_STRUCT)
         == Ok(VStruct([VInt(|entries|)] + ParamItems(CutStrings(entries))))
  {
    var items := [VInt(|entries|)] + ParamItems(entries);
    StringsNormal(T, entries);
    assert items[1..] == ParamItems(entries);
    assert NormalizePods(T, items) == Cons(Ok(VInt(|entries|)), NormalizePods(T, items[1..]));
  }

  lemma {:induction false} DictInfoIff(T: Tables, spec: PropertySpec, v: Value, prepared: Value)
    requires spec.shape == DictInfo && v.VDict? && Prepare(T, Some(spec), v) == Ok(prepared)
    ensures Returns(T, Some(spec), prepared, T_STRUCT, v) <==> PlainStrings(v.entries)
  {
    hide Normalize, StructToDictInfo;
    DictInfoItemsAre(v.entries);
    DictInfoNormal(T, v.entries);
    var cut := CutStrings(v.entries);
    DictInfoReads(cut);
    CutStringsPlain(v.entries);
    PutAllIff(cut, v.entries);
  }

  // Parameter dictionaries.

  /** One parameter as it comes back. */
  function NormalEntry(T: Tables, entry: (Str, Value)): Result<(Str, Value), Error> {
    var ty :- InferType(entry.1);
    var value :- Normalize(T, entry.1, ty);
    Ok((UntilNul(entry.0), value))
  }

  function NormalEntries(T: Tables, entries: Dict<Str, Value>): Result<Dict<Str, Value>, Error> {
    if entries == [] then Ok([]) else Cons(NormalEntry(T, entries[0]), NormalEntries(T, entries[1..]))
  }

  lemma {:induction false} ParamsNormal(T: Tables, entries: Dict<Str, Value>)
    requires BuildPods(T, ParamItems(entries)).Ok?
    ensures var normal, back := NormalizePods(T, ParamItems(entries)), NormalEntries(T, entries);
      && (normal.Ok? <==> back.Ok?)
      && (back.Ok? ==> normal.value == ParamItems(back.value) && |back.value| == |entries|)
    decreases |entries|
  {
    hide Normalize, BuildBody;
    if entries != [] {
      var k, v, rest := VStr(entries[0].0), entries[0].1, ParamItems(entries[1..]);
      PairBuilt(T, k, v, rest);
      ParamsNormal(T, entries[1..]);
      NormalPair(T, k, v, rest);
      NormalString(T, k.s);
      var back := NormalEntries(T, entries);
      if back.Ok? {
        assert back.value[1..] == NormalEntries(T, entries[1..]).value;
      }
    }
  }

  /** A list of pods that builds consists of pods that build. */
  lemma {:induction false} PairBuilt(T: Tables, a: Value, b: Value, rest: seq<Value>)
    requires BuildPods(T, [a, b] + rest).Ok?
    ensures Build(T, a).Ok? && Build(T, b).Ok? && BuildPods(T, rest).Ok?
    ensures InferType(a).Ok? && InferType(b).Ok?
  {
    hide BuildBody;
    assert ([a, b] + rest)[1..] == [b] + rest;
    assert ([b] + rest)[1..] == rest;
  }

  // Profile classes.

  /** A profile class as it comes back. */
  function NormalClass(entries: Dict<Str, Value>): Value
    requires ClassStruct(entries).Ok?
  {
    var items := ClassStruct(entries).value.items;
    ProfileClass(VStr(UntilNul(items[0].s)), items[1], VStr(UntilNul(items[2].s)), Numbers(items[3].items))
  }

  predicate AllInts(items: seq<Value>) {
    items != [] ==> AsInt(items[0]).Some? && AllInts(items[1..])
  }

  lemma {:induction false} NumbersFixed(items: seq<Value>)
    requires AllInts(items)
    ensures Numbers(items) == items <==> PlainElements(ToInt, None, items)
  {
    if items != [] {
      NumbersFixed(items[1..]);
      assert Numbers(items)[1..] == Numbers(items[1..]);
      assert items == [items[0]] + items[1..];
    }
  }

  lemma {:induction false} CanonicalClassReturns(v: Value)
    requires CanonicalClass(v) && ClassStruct(v.entries).Ok?
    requires AllInts(ClassStruct(v.entries).value.items[3].items)
    ensures NormalClass(v.entries) == v
  {
    hide Numbers, PlainElements, Get, AllInts;
    ClassFields(v.entries);
    var items := ClassStruct(v.entries).value.items;
    NumbersFixed(items[3].items);
    assert v.entries == [v.entries[0], v.entries[1], v.entries[2], v.entries[3]];
  }

  lemma {:induction false} ReturningClassIsCanonical(v: Value)
    requires v.VDict? && ClassStruct(v.entries).Ok?
    requires AllInts(ClassStruct(v.entries).value.items[3].items)
    requires NormalClass(v.entries) == v
    ensures CanonicalClass(v)
  {
    hide Numbers, PlainElements, Get, AllInts, UntilNul;
    var items := ClassStruct(v.entries).value.items;
    NumbersFixed(items[3].items);
    ClassFields(v.entries);
  }

  /** A class comes back as itself exactly when it names, in order, a class, a count, a property and devices. */
  lemma {:induction false} ClassIff(v: Value)
    requires v.VDict? && ClassStruct(v.entries).Ok?
    requires AllInts(ClassStruct(v.entries).value.items[3].items)
    ensures NormalClass(v.entries) == v <==> CanonicalClass(v)
  {
    hide NormalClass, CanonicalClass, ClassStruct, AllInts;
    if NormalClass(v.entries) == v {
      ReturningClassIsCanonical(v);
    }
    if CanonicalClass(v) {
      CanonicalClassReturns(v);
    }
  }

  lemma {:induction false} ClassFields(entries: Dict<Str, Value>)
    requires |entries| == 4 && entries[0].0 == K_CLASS && entries[1].0 == K_COUNT
    requires entries[2].0 == K_PROPERTY && entries[3].0 == K_DEVICES
    ensures Get(entries, K_CLASS) == Some(entries[0].1)
    ensures Get(entries, K_COUNT) == Some(entries[1].1)
    ensures Get(entries, K_PROPERTY) == Some(entries[2].1)
    ensures Get(entries, K_DEVICES) == Some(entries[3].1)
  {
    assert entries[1..][1..] == entries[2..];
    assert Get(entries[1..], K_COUNT) == Some(entries[1].1);
    assert Get(entries[2..], K_PROPERTY) == Some(entries[2].1);
    assert entries[2..][1..] == entries[3..];
    assert Get(entries[3..], K_DEVICES) == Some(entries[3].1);
    assert Get(entries[2..], K_DEVICES) == Some(entries[3].1);
    assert Get(entries[1..], K_PROPERTY) == Some(entries[2].1);
  }

  function NormalClasses(classes: seq<Value>): (r: seq<Value>)
    requires ClassItems(classes).Ok? && ClassItems(classes).value.Some?
    ensures |r| == |classes|
  {
    if classes == [] then [] else [NormalClass(classes[0].entries)] + NormalClasses(classes[1..])
  }

  lemma {:induction false} FourNormal(T: Tables, a: Value, b: Value, c: Value, d: Value,
                                      a': Value, b': Value, c': Value, d': Value)
    requires InferType(a).Ok? && Normalize(T, a, InferType(a).value) == Ok(a')
    requires InferType(b).Ok? && Normalize(T, b, InferType(b).value) == Ok(b')
    requires InferType(c).Ok? && Normalize(T, c, InferType(c).value) == Ok(c')
    requires InferType(d).Ok? && Normalize(T, d, InferType(d).value) == Ok(d')
    ensures NormalizePods(T, [a, b, c, d]) == Ok([a', b', c', d'])
  {
    hide Normalize, InferType;
    assert [c, d] == [c, d] + [];
    NormalPair(T, c, d, []);
    assert NormalizePods(T, []) == Ok([]);
    assert [d'] + [] == [d'] && [c'] + [d'] == [c', d'];
    assert NormalizePods(T, [c, d]) == Ok([c', d']);
    assert [b'] + [c', d'] == [b', c', d'] && [a'] + [b', c', d'] == [a', b', c', d'];
    assert [a, b, c, d] == [a, b] + [c, d];
    NormalPair(T, a, b, [c, d]);
  }

  lemma {:induction false} DevicesNormal(T: Tables, items: seq<Value>) returns (back: Value)
    requires Build(T, VArray(None, Some(T_INT), items)).Ok?
    ensures Normalize(T, VArray(None, Some(T_INT), items), T_ARRAY) == Ok(back)
    ensures back.VArray? && back.items == Numbers(items) && AllInts(items)
    ensures ConvertAll(ToInt, Numbers(items)) == Ok(Numbers(items))
  {
    hide NormalizeItems, BuildItems, Numbers, ConvertAll, AllInts;
    var v := VArray(None, Some(T_INT), items);
    BuildInferred(T, v);
    assert BuildArray(T, v).Ok?;
    NumberArrayNormal(T, v, T_INT);
    NumbersNormal(T, items, T_INT, None);
    BuiltInts(T, items, T_INT, None);
    back := NormalizeArray(T, v).value;
  }

  /** The class structs that build come back as the normal classes, one for one. */
  lemma {:induction false} ClassStructNormal(T: Tables, entries: Dict<Str, Value>)
    returns (back: Value)
    requires ClassStruct(entries).Ok? && BuildStruct(T, ClassStruct(entries).value).Ok?
    ensures NormalizeStruct(T, ClassStruct(entries).value) == Ok(back)
    ensures AllInts(ClassStruct(entries).value.items[3].items)
    ensures IsClassStruct(back)
    ensures ConvertAll(ToInt, back.items[3].items).Ok?
    ensures ProfileClass(back.items[0], back.items[1], back.items[2],
                         ConvertAll(ToInt, back.items[3].items).value) == NormalClass(entries)
  {
    hide Normalize, BuildBody, Numbers, ConvertAll, AllInts, UntilNul;
    var items := ClassStruct(entries).value.items;
    var a, b, c, d := items[0], items[1], items[2], items[3];
    assert items == [a, b] + [c, d];
    PairBuilt(T, a, b, [c, d]);
    assert [c, d] == [c, d] + [];
    PairBuilt(T, c, d, []);
    var devices := DevicesNormal(T, d.items);
    NormalString(T, a.s);
    NormalString(T, c.s);
    NormalInt(T, b.i);
    FourNormal(T, a, b, c, d, VStr(UntilNul(a.s)), b, VStr(UntilNul(c.s)), devices);
    back := VStruct([VStr(UntilNul(a.s)), b, VStr(UntilNul(c.s)), devices]);
  }

  lemma {:induction false} NormalInt(T: Tables, i: int)
    ensures Normalize(T, VInt(i), InferType(VInt(i)).value) == Ok(VInt(i))
  {
  }

  lemma {:induction false} BuiltInts(T: Tables, items: seq<Value>, childType: int, given: Option<int>)
    requires IsIntType(childType) && BuildItems(T, items, childType, given).Ok?
    ensures AllInts(items)
    decreases |items|
  {
    if items != [] {
      BuiltInts(T, items[1..], childType, Some(|BuildLeaf(items[0], childType).value|));
    }
  }

  lemma {:induction false} ClassesNormal(T: Tables, classes: seq<Value>)
    returns (back: seq<Value>)
    requires ClassItems(classes).Ok? && ClassItems(classes).value.Some?
    requires BuildPods(T, ClassItems(classes).value.value).Ok?
    ensures NormalizePods(T, ClassItems(classes).value.value) == Ok(back)
    ensures |back| == |classes|
    ensures ClassesFrom(back) == Ok(Some(NormalClasses(classes)))
    ensures NormalClasses(classes) == classes <==> CanonicalClasses(classes)
    decreases |classes|
  {
    hide NormalizeStruct, BuildStruct, ClassStruct, CanonicalClass, IsClassStruct, ProfileClass, NormalClass, ConvertAll;
    if classes == [] {
      back := [];
    } else {
      var items := ClassItems(classes).value.value;
      assert items[1..] == ClassItems(classes[1..]).value.value;
      assert ClassStruct(classes[0].entries) == Ok(items[0]);
      StructBuilt(T, items, classes[0].entries);
      var head := ClassStructNormal(T, classes[0].entries);
      var tail := ClassesNormal(T, classes[1..]);
      back := [head] + tail;
      assert Normalize(T, items[0], T_STRUCT) == NormalizeStruct(T, items[0]);
      assert back[1..] == tail;
      ClassIff(classes[0]);
      assert NormalClasses(classes)[1..] == NormalClasses(classes[1..]);
      assert classes == [classes[0]] + classes[1..];
      assert forall i :: 0 <= i < |classes[1..]| ==> classes[1..][i] == classes[i + 1];
      assert forall i :: 0 < i < |classes| ==> classes[i] == classes[1..][i - 1];
    }
  }

  lemma {:induction false} StructBuilt(T: Tables, items: seq<Value>, entries: Dict<Str, Value>)
    requires items != [] && BuildPods(T, items).Ok? && ClassStruct(entries) == Ok(items[0])
    ensures BuildStruct(T, items[0]).Ok? && BuildPods(T, items[1..]).Ok?
    ensures InferType(items[0]) == Ok(T_STRUCT) && items[0].VStruct?
  {
    assert Build(T, items[0]).Ok?;
    assert BuildAs(T, items[0], T_STRUCT).Ok?;
    assert BuildBody(T, items[0], T_STRUCT).Ok?;
  }

  lemma {:induction false} ClassesIff(T: Tables, spec: PropertySpec, v: Value, prepared: Value)
    requires spec.shape == ProfileClasses && v.VList? && Prepare(T, Some(spec), v) == Ok(prepared)
    requires ClassItems(v.items).value.Some? && BuildStruct(T, prepared).Ok?
    ensures Returns(T, Some(spec), prepared, T_STRUCT, v) <==> CanonicalClasses(v.items)
  {
    hide ClassItems, ClassesFrom, CanonicalClass, NormalClasses, BuildBody, Normalize;
    var items := ClassItems(v.items).value.value;
    assert prepared == VStruct([VInt(|v.items|)] + items);
    assert prepared.items[1..] == items;
    assert BuildPods(T, items).Ok?;
    var back := ClassesNormal(T, v.items);
    CountNormal(T, |v.items|, items, back);
    var all := [VInt(|v.items|)] + back;
    assert all[1..] == back;
  }

  lemma {:induction false} CountNormal(T: Tables, n: int, items: seq<Value>, back: seq<Value>)
    requires NormalizePods(T, items) == Ok(back)
    ensures Normalize(T, VStruct([VInt(n)] + items), T_STRUCT) == Ok(VStruct([VInt(n)] + back))
  {
    var all := [VInt(n)] + items;
    assert all[1..] == items;
    assert NormalizePods(T, all) == Cons(Ok(VInt(n)), NormalizePods(T, all[1..]));
  }

  // Choices on typed properties.

  /** How one value of a choice on a typed property is presented. */
  function AlternativeOf(spec: PropertySpec, v: Value): Result<Value, Error> {
    match spec.shape
    case ArrayInt => SpecializeCandidate(ToInt, None, v)
    case ArrayFloat => SpecializeCandidate(ToFloat, None, v)
    case ArrayId => SpecializeCandidate(ToInt, spec.members, v)
    case DictInfo => Ok(v)
    case Params => Ok(v)
    case Labels => Ok(v)
    case ProfileClasses => Ok(v)
    case _ => Ok(if spec.members.None? then v else Coerce(v, spec.members.value))
  }

  function Alternatives(spec: PropertySpec, items: seq<Value>): Result<seq<Value>, Error> {
    if items == [] then Ok([]) else Cons(AlternativeOf(spec, items[0]), Alternatives(spec, items[1..]))
  }

  lemma {:induction false} CandidatesAre(spec: PropertySpec, c: Conversion, members: Option<set<int>>, items: seq<Value>)
    requires forall v :: AlternativeOf(spec, v) == SpecializeCandidate(c, members, v)
    ensures SpecializeCandidates(c, members, items) == Alternatives(spec, items)
  {
    hide AlternativeOf, SpecializeCandidate;
    if items != [] {
      assert AlternativeOf(spec, items[0]) == SpecializeCandidate(c, members, items[0]);
      CandidatesAre(spec, c, members, items[1..]);
    }
  }

  lemma {:induction false} CoercedAre(spec: PropertySpec, members: set<int>, items: seq<Value>)
    requires forall v :: AlternativeOf(spec, v) == Ok(Coerce(v, members))
    ensures Alternatives(spec, items) == Ok(CoerceAll(items, members))
  {
    hide AlternativeOf, Coerce;
    if items == [] {
      assert CoerceAll(items, members) == [];
    } else {
      assert AlternativeOf(spec, items[0]) == Ok(Coerce(items[0], members));
      CoercedAre(spec, members, items[1..]);
      assert CoerceAll(items, members) == [Coerce(items[0], members)] + CoerceAll(items[1..], members);
    }
  }

  lemma {:induction false} UntouchedAre(spec: PropertySpec, items: seq<Value>)
    requires forall v :: AlternativeOf(spec, v) == Ok(v)
    ensures Alternatives(spec, items) == Ok(items)
  {
    hide AlternativeOf;
    if items != [] {
      assert AlternativeOf(spec, items[0]) == Ok(items[0]);
      UntouchedAre(spec, items[1..]);
      assert items == [items[0]] + items[1..];
    }
  }

  /** A choice is presented by presenting each of its values. */
  lemma {:induction false} PresentedChoice(spec: PropertySpec, v: Value, w: Value)
    requires v.VChoice?
    ensures Specialize(Some(spec), v) == Ok(w)
       <==> Alternatives(spec, v.items).Ok? && w == v.(items := Alternatives(spec, v.items).value)
  {
    hide Alternatives, SpecializeCandidates, CoerceAll;
    match spec.shape
    case ArrayInt => CandidatesAre(spec, ToInt, None, v.items);
    case ArrayFloat => CandidatesAre(spec, ToFloat, None, v.items);
    case ArrayId => CandidatesAre(spec, ToInt, spec.members, v.items);
    case DictInfo => UntouchedAre(spec, v.items);
    case Params => UntouchedAre(spec, v.items);
    case Labels => UntouchedAre(spec, v.items);
    case ProfileClasses => UntouchedAre(spec, v.items);
    case _ =>
      if spec.members.None? {
        UntouchedAre(spec, v.items);
      } else {
        CoercedAre(spec, spec.members.value, v.items);
      }
  }

  // Lists that are not in presented form.

  predicate AllDicts(items: seq<Value>) {
    items != [] ==> items[0].VDict? && AllDicts(items[1..])
  }

  lemma {:induction false} LabelsAreDicts(items: seq<Value>)
    requires |items| % 2 == 0 && LabelsFrom(items).Some?
    ensures AllDicts(LabelsFrom(items).value)
    decreases |items|
  {
    if items != [] {
      LabelsAreDicts(items[2..]);
      assert LabelsFrom(items).value[1..] == LabelsFrom(items[2..]).value;
    }
  }

  lemma {:induction false} ClassesAreDicts(items: seq<Value>)
    requires ClassesFrom(items).Ok? && ClassesFrom(items).value.Some?
    ensures AllDicts(ClassesFrom(items).value.value)
  {
    if items != [] {
      ClassesAreDicts(items[1..]);
      assert ClassesFrom(items).value.value[1..] == ClassesFrom(items[1..]).value.value;
    }
  }

  lemma {:induction false} DictsConvert(items: seq<Value>)
    requires AllDicts(items)
    ensures LabelItems(items).Some?
    ensures ClassItems(items) != Ok(None)
  {
    if items != [] {
      DictsConvert(items[1..]);
    }
  }

  lemma {:induction false} CanonicalListsAreDicts(T: Tables, items: seq<Value>)
    ensures CanonicalLabels(T, items) ==> AllDicts(items)
    ensures CanonicalClasses(items) ==> AllDicts(items)
  {
    if items != [] {
      CanonicalListsAreDicts(T, items[1..]);
      assert forall i :: 0 <= i < |items[1..]| ==> items[1..][i] == items[i + 1];
    }
  }

  lemma ClassListRead(parsed: Value, v: Value)
    requires !parsed.VList? && v.VList? && StructToProfileClasses(parsed) == Ok(v)
    ensures AllDicts(v.items)
  {
    hide ClassesFrom, AllDicts;
    var counted := AsInt(parsed.items[0]).Some? && !parsed.items[0].VBool?;
    ClassesAreDicts(if counted then parsed.items[1..] else parsed.items);
  }

  /** The list a profile class property shows for class structs. */
  function ClassList(nested: seq<Value>): Result<Value, Error> {
    var classes :- ClassesFrom(nested);
    if classes.Some? then Ok(VList(classes.value)) else Err(Mismatch)
  }

  /** Every entry is a class struct with whole-number devices. */
  predicate ClassEntries(nested: seq<Value>) {
    forall i :: 0 <= i < |nested| ==> IsClassStruct(nested[i]) && ConvertAll(ToInt, nested[i].items[3].items).Ok?
  }

  /** The entries read as classes, one for one, exactly when all of them are class structs. */
  lemma {:induction false} ClassEntriesIff(nested: seq<Value>)
    ensures ClassList(nested).Ok? <==> ClassEntries(nested)
    ensures ClassEntries(nested) ==>
      && ClassList(nested).value.VList? && |ClassList(nested).value.items| == |nested|
      && forall i :: 0 <= i < |nested| ==>
           var entry := nested[i].items;
           ClassList(nested).value.items[i] == ProfileClass(entry[0], entry[1], entry[2], ConvertAll(ToInt, entry[3].items).value)
  {
    hide ConvertAll, ProfileClass;
    if nested != [] {
      var rest := nested[1..];
      ClassEntriesIff(rest);
      assert forall i :: 0 <= i < |rest| ==> rest[i] == nested[i + 1];
      assert ClassEntries(nested) ==> ClassEntries(rest);
      assert forall i :: 0 < i < |nested| ==> nested[i] == rest[i - 1];
    }
  }

  /**
    * A counted and an uncounted profile class struct of the same entries read as one and the same
    * list exactly when there are entries and all of them are class structs. Entries that are not
    * read alike too, where the first is no number: with the same failure, or not as classes at all.
    */
  lemma {:induction false} CountedAndUncounted(nested: seq<Value>)
    ensures var counted, plain := VStruct([VInt(|nested|)] + nested), VStruct(nested);
      && ((StructToProfileClasses(counted) == StructToProfileClasses(plain)
           && StructToProfileClasses(counted).Ok? && StructToProfileClasses(counted).value.VList?)
          <==> nested != [] && ClassEntries(nested))
      && (ClassEntries(nested) ==> StructToProfileClasses(counted) == ClassList(nested))
      && (nested != [] && AsInt(nested[0]).None? ==>
           || (StructToProfileClasses(counted) == StructToProfileClasses(plain) != Ok(plain))
           || (StructToProfileClasses(counted) == Ok(counted) && StructToProfileClasses(plain) == Ok(plain)))
  {
    ClassEntriesIff(nested);
    hide ClassesFrom;
    assert ([VInt(|nested|)] + nested)[1..] == nested;
    if ClassEntries(nested) && nested != [] {
      assert IsClassStruct(nested[0]);
    }
  }

  /** With no entries the counted form reads as the empty list and the uncounted one is left a struct. */
  lemma NoClassEntries()
    ensures StructToProfileClasses(VStruct([VInt(0)])) == Ok(VList([]))
    ensures StructToProfileClasses(VStruct([])) == Ok(VStruct([]))
  {
  }
}
