/** Values that hold raw bytes as an embedded pod, at any depth: they never come back unchanged. */
module PodRawBytes {
  import opened Wrappers
  import opened Wire
  import opened PodValues
  import opened PodShapes
  import opened PodCodec
  import opened PodRoundTrip
  import opened PodCanonical
  import opened PodSlots
  import opened PodObjects

  // What parsing can yield at all.

  predicate ParsedKind(w: Value, ty: int) {
    && !w.VList? && !w.VDict?
    && (w.VArray? ==> ty == T_ARRAY)
    && (ty == T_STRUCT <==> w.VStruct?)
  }

  lemma KindParsed(T: Tables, data: Bytes, o: nat, size: nat, ty: int)
    requires o + size <= |data|
    ensures ParseBody(T, data, o, size, ty).Ok? ==> ParsedKind(ParseBody(T, data, o, size, ty).value, ty)
  {
    hide ParseItems, ParsePods, ParseProperties, ParseControls, Assemble, U32At, U64At, Unwrap, UntilNul;
  }

  lemma BytesOfSize(T: Tables, data: Bytes, o: nat, size: nat, ty: int)
    requires o + size <= |data|
    ensures var r := ParseBody(T, data, o, size, ty);
      r.Ok? && r.value.VBytes? ==> |r.value.bytes| == size
  {
    hide ParseItems, ParsePods, ParseProperties, ParseControls, Assemble;
  }

  lemma EmbeddedIsShorter(T: Tables, data: Bytes, o: nat, size: nat)
    requires o + size <= |data|
    ensures var r := ParseBody(T, data, o, size, T_POD);
      r.Ok? ==> r.value.VPod? && (r.value.pod.VBytes? ==> |r.value.pod.bytes| < size)
  {
    if size >= 8 && Align8(8 + U32At(data, o)) <= size {
      BytesOfSize(T, data, o + 8, U32At(data, o), U32At(data, o + 4));
    }
  }

  // Values without embedded pods hold no raw bytes.

  lemma {:induction false} LeafItemsNotRaw(T: Tables, items: seq<Value>, childType: int)
    requires !IsContainer(childType)
    ensures NormalizeItems(T, items, childType) != Err(RawBytes)
  {
    if items != [] {
      assert Normalize(T, items[0], childType) == NormalizeLeaf(items[0], childType);
      LeafItemsNotRaw(T, items[1..], childType);
    }
  }

  lemma {:induction false} LeafArrayNotRaw(T: Tables, v: Value)
    requires BuildArray(T, v).Ok? && !IsContainer(ItemType(v).value)
    ensures Normalize(T, v, T_ARRAY) != Err(RawBytes)
  {
    hide NormalizeItems, BuildItems;
    LeafItemsNotRaw(T, ItemsOf(v).value, ItemType(v).value);
    assert Normalize(T, v, T_ARRAY) == NormalizeArray(T, v);
  }

  lemma EnumNotRaw(T: Tables, v: Value, ty: int)
    requires v.VEnum? && BuildBody(T, v, ty).Ok?
    ensures Normalize(T, v, ty) != Err(RawBytes)
  {
    assert !IsContainer(ty);
  }

  predicate Numeral(v: Value) { v.VInt? || v.VEnum? || v.VFloat? }

  /** Whatever an array candidate is shown as, it is a list of numbers. */
  lemma {:induction false} ShownNumbers(c: Conversion, members: Option<set<int>>, items: seq<Value>)
    ensures var r := PresentItems(c, members, items);
      r.Ok? ==> forall i :: 0 <= i < |r.value| ==> Numeral(r.value[i])
  {
    ConvertedNumbers(c, items);
  }

  lemma {:induction false} ConvertedNumbers(c: Conversion, items: seq<Value>)
    ensures var r := ConvertAll(c, items);
      r.Ok? ==> forall i :: 0 <= i < |r.value| ==> Numeral(r.value[i])
  {
    if items != [] {
      ConvertedNumbers(c, items[1..]);
      var r, tail := ConvertAll(c, items), ConvertAll(c, items[1..]);
      assert r.Ok? ==> forall i :: 0 < i < |r.value| ==> r.value[i] == tail.value[i - 1];
    }
  }

  /** A choice's value that is shown as itself was parsed as itself, or holds no raw bytes. */
  lemma {:induction false} AlternativeReflects(T: Tables, spec: PropertySpec, w: Value, v: Value, ty: int)
    requires AlternativeOf(spec, w) == Ok(v) && ParsedKind(w, ty) && BuildBody(T, v, ty).Ok?
    ensures w == v || Normalize(T, v, ty) != Err(RawBytes)
  {
    hide BuildBody, Normalize;
    match spec.shape
    case ArrayInt => CandidateReflects(T, ToInt, None, w, v, ty);
    case ArrayFloat => CandidateReflects(T, ToFloat, None, w, v, ty);
    case ArrayId => CandidateReflects(T, ToInt, spec.members, w, v, ty);
    case _ => if w != v && v.VEnum? { EnumNotRaw(T, v, ty); }
  }

  lemma {:induction false} CandidateReflects(
    T: Tables, c: Conversion, members: Option<set<int>>, w: Value, v: Value, ty: int)
    requires SpecializeCandidate(c, members, w) == Ok(v) && ParsedKind(w, ty) && BuildBody(T, v, ty).Ok?
    ensures w == v || Normalize(T, v, ty) != Err(RawBytes)
  {
    if w.VArray? {
      PresentedArray(c, members, w);
      ShownNumbers(c, members, w.items);
      assert BuildArray(T, v).Ok?;
      hide PresentItems, Normalize, BuildItems;
      assert v.items != [];
      assert Numeral(v.items[0]);
      LeafArrayNotRaw(T, v);
    }
  }

  lemma {:induction false} SpecializeNotRaw(spec: Option<PropertySpec>, w: Value)
    ensures Specialize(spec, w) != Err(RawBytes)
  {
    if spec.Some? {
      match spec.value.shape
      case ProfileClasses =>
        if w.VStruct? && w.items != [] {
          hide ClassesFrom;
          ClassesNotRaw(w.items);
          ClassesNotRaw(w.items[1..]);
        }
      case ArrayInt => ArrayNotRaw(ToInt, None, w);
      case ArrayFloat => ArrayNotRaw(ToFloat, None, w);
      case ArrayId => ArrayNotRaw(ToInt, spec.value.members, w);
      case _ =>
    }
  }

  lemma {:induction false} ConvertNotRaw(c: Conversion, items: seq<Value>)
    ensures ConvertAll(c, items) != Err(RawBytes)
  {
    if items != [] { ConvertNotRaw(c, items[1..]); }
  }

  lemma {:induction false} ClassesNotRaw(items: seq<Value>)
    ensures ClassesFrom(items) != Err(RawBytes)
  {
    if items != [] && IsClassStruct(items[0]) {
      ConvertNotRaw(ToInt, items[0].items[3].items);
      ClassesNotRaw(items[1..]);
    }
  }

  lemma {:induction false} ArrayNotRaw(c: Conversion, members: Option<set<int>>, w: Value)
    ensures SpecializeArray(c, members, w) != Err(RawBytes)
  {
    hide SpecializeCandidates, SpecializeCandidate;
    CandidateNotRaw(c, members, w);
    if w.VChoice? { CandidatesNotRaw(c, members, w.items); }
  }

  lemma {:induction false} CandidateNotRaw(c: Conversion, members: Option<set<int>>, w: Value)
    ensures SpecializeCandidate(c, members, w) != Err(RawBytes)
  {
    if w.VArray? { ConvertNotRaw(c, w.items); }
  }

  lemma {:induction false} CandidatesNotRaw(c: Conversion, members: Option<set<int>>, items: seq<Value>)
    ensures SpecializeCandidates(c, members, items) != Err(RawBytes)
  {
    hide SpecializeCandidate;
    if items != [] {
      CandidateNotRaw(c, members, items[0]);
      CandidatesNotRaw(c, members, items[1..]);
    }
  }

  // What a property's presentation says of what was parsed.

  /** The pairs behind an alternating list. */
  function Paired(items: seq<Value>): (r: Dict<Str, Value>)
    requires |items| % 2 == 0
    ensures 2 * |r| == |items|
    decreases |items|
  {
    if items == [] then []
    else [(if items[0].VStr? then items[0].s else [], items[1])] + Paired(items[2..])
  }

  lemma {:induction false} PairedBack(acc: Dict<Str, Value>, items: seq<Value>)
    requires |items| % 2 == 0 && PairUp(acc, items).Some?
    ensures ParamItems(Paired(items)) == items
    decreases |items|
  {
    if items != [] {
      PairedBack(Put(acc, items[0].s, items[1]), items[2..]);
      var d := Paired(items);
      assert d[1..] == Paired(items[2..]);
      ParamItemsCons(d);
      assert items == [items[0]] + ([items[1]] + items[2..]);
    }
  }

  /** A mapping of half as many entries as there were items was read from just these items. */
  lemma {:induction false} ParamsReflect(items: seq<Value>, entries: Dict<Str, Value>)
    requires |items| == 2 * |entries| && PairUp([], items) == Some(entries)
    ensures items == ParamItems(entries)
  {
    PairedBack([], items);
    PairUpPuts([], Paired(items));
    PutAllIff(Paired(items), entries);
    hide PairUp, ParamItems;
  }

  lemma {:induction false} LabelsReflect(items: seq<Value>)
    requires |items| % 2 == 0 && LabelsFrom(items).Some?
    ensures LabelItems(LabelsFrom(items).value) == Some(items)
    decreases |items|
  {
    if items != [] {
      LabelsReflect(items[2..]);
      var labels := LabelsFrom(items).value;
      assert labels[1..] == LabelsFrom(items[2..]).value;
      LabelReflects(items[0], items[1]);
      hide Label, LabelsFrom, GetOrNone;
      assert items == [items[0], items[1]] + items[2..];
    }
  }

  lemma LabelReflects(a: Value, b: Value)
    ensures Label(a, b).VDict?
    ensures GetOrNone(Label(a, b).entries, K_VALUE) == a && GetOrNone(Label(a, b).entries, K_LABEL) == b
  {
    var entries := Label(a, b).entries;
    assert entries[1..] == [(K_LABEL, b)];
    assert Get(entries[1..], K_LABEL) == Some(b);
  }

  /** The items of a struct are counted by their headers, whatever they hold. */
  predicate SameCount(prepared: Value, w: Value) {
    prepared.VStruct? && w.VStruct? ==> |w.items| == |prepared.items|
  }

  /** A property value shown as itself was parsed as what was built for it, or holds no raw bytes. */
  lemma {:induction false} SlotReflects(
    T: Tables, spec: Option<PropertySpec>, v: Value, prepared: Value, ty: int, w: Value)
    requires Prepare(T, spec, v) == Ok(prepared) && BuildBody(T, prepared, ty).Ok?
    requires ExplicitType(prepared).Some? ==> ty == ExplicitType(prepared).value
    requires spec.Some? ==> !v.VChoice?
    requires ParsedKind(w, ty) && SameCount(prepared, w) && Specialize(spec, w) == Ok(v)
    ensures w == prepared || Normalize(T, prepared, ty) != Err(RawBytes)
  {
    hide BuildBody, Normalize, PairUp, LabelsFrom, ClassesFrom, LabelItems, ClassItems, DictInfoItems, AllStrings;
    if spec.Some? {
      match spec.value.shape
      case DictInfo =>
        if v.VDict? {
          DictInfoItemsAre(v.entries);
          DictInfoNormal(T, v.entries);
        }
      case Params => if v.VDict? {
          PairUpPuts([], v.entries);
          ParamsReflect(w.items, v.entries);
        }
      case Labels => if v.VList? { LabelSlotReflects(v, prepared, w); }
      case ProfileClasses => if v.VList? { ClassSlotNotRaw(T, v, prepared, ty, w); }
      case ArrayInt => NumberSlotNotRaw(T, spec.value, v, prepared);
      case ArrayFloat => NumberSlotNotRaw(T, spec.value, v, prepared);
      case ArrayId => NumberSlotNotRaw(T, spec.value, v, prepared);
      case _ => if w != v && v.VEnum? { EnumNotRaw(T, v, ty); }
    }
  }

  lemma {:induction false} LabelSlotReflects(v: Value, prepared: Value, w: Value)
    requires v.VList? && !w.VList? && StructToLabels(w) == v
    requires prepared == if LabelItems(v.items).None? then v else VStruct(LabelItems(v.items).value)
    ensures w == prepared
  {
    LabelsReflect(w.items);
    hide LabelItems, LabelsFrom;
  }

  lemma {:induction false} ClassSlotNotRaw(T: Tables, v: Value, prepared: Value, ty: int, w: Value)
    requires v.VList? && !w.VList? && StructToProfileClasses(w) == Ok(v)
    requires ClassItems(v.items).Ok?
    requires prepared == (if ClassItems(v.items).value.None? then v
                          else VStruct([VInt(|v.items|)] + ClassItems(v.items).value.value))
    requires BuildBody(T, prepared, ty).Ok? && (ExplicitType(prepared).Some? ==> ty == ExplicitType(prepared).value)
    ensures Normalize(T, prepared, ty) != Err(RawBytes)
  {
    ClassListRead(w, v);
    DictsConvert(v.items);
    var items := [VInt(|v.items|)] + ClassItems(v.items).value.value;
    assert prepared == VStruct(items);
    hide ClassItems, ClassesFrom, Normalize, AllDicts, StructToProfileClasses, BuildPods;
    StructBuilds(T, items);
    hide BuildBody;
    ClassStructsNotRaw(T, v.items, |v.items|);
  }

  lemma {:induction false} StructBuilds(T: Tables, items: seq<Value>)
    ensures ExplicitType(VStruct(items)) == Some(T_STRUCT) && BuildBody(T, VStruct(items), T_STRUCT) == BuildPods(T, items)
  {
    hide BuildPods;
    assert BuildBody(T, VStruct(items), T_STRUCT) == BuildStruct(T, VStruct(items));
  }

  lemma {:induction false} ClassStructsNotRaw(T: Tables, classes: seq<Value>, n: int)
    requires ClassItems(classes).Ok? && ClassItems(classes).value.Some?
    requires BuildPods(T, [VInt(n)] + ClassItems(classes).value.value).Ok?
    ensures Normalize(T, VStruct([VInt(n)] + ClassItems(classes).value.value), T_STRUCT) != Err(RawBytes)
  {
    hide ClassItems, Normalize, ClassesFrom, CanonicalClass, NormalClasses, Build;
    var items := ClassItems(classes).value.value;
    assert ([VInt(n)] + items)[1..] == items;
    assert BuildPods(T, items).Ok?;
    hide BuildPods;
    var back := ClassesNormal(T, classes);
    CountNormal(T, n, items, back);
  }

  lemma {:induction false} NumberSlotNotRaw(T: Tables, spec: PropertySpec, v: Value, prepared: Value)
    requires spec.shape in {ArrayInt, ArrayFloat, ArrayId} && !v.VChoice?
    requires Prepare(T, Some(spec), v) == Ok(prepared) && BuildBody(T, prepared, T_ARRAY).Ok?
    ensures Normalize(T, prepared, T_ARRAY) != Err(RawBytes)
  {
    hide Normalize, BuildItems;
    assert BuildArray(T, prepared).Ok?;
    LeafArrayNotRaw(T, prepared);
  }

  // The nested induction.

  /** Where a body that holds raw bytes lies, parsing it does not yield the value it was built from. */
  lemma {:induction false} NeverReturns(T: Tables, v: Value, ty: int, data: Bytes, o: nat)
    requires BuildBody(T, v, ty).Ok? && Has(data, o, BuildBody(T, v, ty).value)
    requires Normalize(T, v, ty) == Err(RawBytes)
    ensures ParseBody(T, data, o, |BuildBody(T, v, ty).value|, ty) != Ok(v)
    decreases Size(v), 2
  {
    hide ParseLeaf, BuildLeaf, ParseItems, ParsePods, ParseControls, ParseProperties;
    if ty == T_ARRAY {
      ArrayNeverReturns(T, v, data, o);
    } else if ty == T_STRUCT {
      StructNeverReturns(T, v, data, o);
    } else if ty == T_OBJECT {
      ObjectNeverReturns(T, v, data, o);
    } else if ty == T_SEQUENCE {
      SequenceNeverReturns(T, v, data, o);
    } else if ty == T_CHOICE {
      ChoiceNeverReturns(T, v, data, o);
    } else if ty == T_POD {
      EmbeddedNeverReturns(T, v, data, o);
    }
  }

  lemma {:induction false} EmbeddedNeverReturns(T: Tables, v: Value, data: Bytes, o: nat)
    requires BuildEmbedded(T, v).Ok? && Has(data, o, BuildEmbedded(T, v).value)
    requires NormalizeEmbedded(T, v) == Err(RawBytes)
    ensures ParseEmbedded(T, data, o, |BuildEmbedded(T, v).value|) != Ok(v)
    decreases Size(v), 1
  {
    hide ParseBody, BuildBody, Normalize;
    if v.VPod? {
      if v.pod.VBytes? {
        var kept := RawPod(v.pod.bytes).value;
        EmbeddedParse(T, data, o, |kept|);
        EmbeddedIsShorter(T, data, o, |kept|);
      } else {
        BuildInferred(T, v.pod);
        var inner := InferType(v.pod).value;
        FramedPod(inner, BuildBody(T, v.pod, inner).value, data, o);
        NeverReturns(T, v.pod, inner, data, o + 8);
      }
    }
  }

  lemma EmbeddedParse(T: Tables, data: Bytes, o: nat, size: nat)
    requires o + size <= |data|
    ensures ParseBody(T, data, o, size, T_POD) == ParseEmbedded(T, data, o, size)
  {
  }

  lemma {:induction false} StructNeverReturns(T: Tables, v: Value, data: Bytes, o: nat)
    requires BuildStruct(T, v).Ok? && Has(data, o, BuildStruct(T, v).value)
    requires NormalizeStruct(T, v) == Err(RawBytes)
    ensures ParseStruct(T, data, o, |BuildStruct(T, v).value|) != Ok(v)
    decreases Size(v), 1
  {
    hide ParsePods, BuildPods, NormalizePods, Has;
    if v.VStruct? {
      PodsNeverReturn(T, v.items, data, o, o + |BuildStruct(T, v).value|);
    }
  }

  lemma {:induction false} PodsNeverReturn(T: Tables, items: seq<Value>, data: Bytes, current: nat, end: nat)
    requires BuildPods(T, items).Ok? && Has(data, current, BuildPods(T, items).value)
    requires end == current + |BuildPods(T, items).value|
    requires NormalizePods(T, items) == Err(RawBytes)
    ensures ParsePods(T, data, current, end) != Ok(items)
    decreases SizeSeq(items), 0
  {
    hide ParseBody, BuildBody, Normalize, PackPod, U32At, Cons;
    BuildInferred(T, items[0]);
    var ty := InferType(items[0]).value;
    var body := BuildBody(T, items[0], ty).value;
    var next := current + Align8(8 + |body|);
    FramedPodThen(ty, body, BuildPods(T, items[1..]).value, data, current);
    ConsRaw(Normalize(T, items[0], ty), NormalizePods(T, items[1..]));
    ConsOk(ParseBody(T, data, current + 8, |body|, ty), ParsePods(T, data, next, end), items);
    if Normalize(T, items[0], ty) == Err(RawBytes) {
      NeverReturns(T, items[0], ty, data, current + 8);
    } else {
      PodsNeverReturn(T, items[1..], data, next, end);
    }
  }

  lemma ConsRaw<A>(head: Result<A, Error>, tail: Result<seq<A>, Error>)
    requires Cons(head, tail) == Err(RawBytes)
    ensures head == Err(RawBytes) || tail == Err(RawBytes)
  {
  }

  /** As many pods are parsed as were built, if all of them parse. */
  lemma {:induction false} PodsCounted(T: Tables, items: seq<Value>, data: Bytes, current: nat, end: nat)
    requires BuildPods(T, items).Ok? && Has(data, current, BuildPods(T, items).value)
    requires end == current + |BuildPods(T, items).value|
    ensures ParsePods(T, data, current, end).Ok? ==> |ParsePods(T, data, current, end).value| == |items|
    decreases |items|
  {
    hide ParseBody, BuildBody, PackPod, U32At;
    if items != [] {
      BuildInferred(T, items[0]);
      var ty := InferType(items[0]).value;
      var body := BuildBody(T, items[0], ty).value;
      FramedPodThen(ty, body, BuildPods(T, items[1..]).value, data, current);
      PodsCounted(T, items[1..], data, current + Align8(8 + |body|), end);
    }
  }

  lemma {:induction false} SequenceNeverReturns(T: Tables, v: Value, data: Bytes, o: nat)
    requires BuildSequence(T, v).Ok? && Has(data, o, BuildSequence(T, v).value)
    requires NormalizeSequence(T, v) == Err(RawBytes)
    ensures ParseSequence(T, data, o, |BuildSequence(T, v).value|) != Ok(v)
    decreases Size(v), 1
  {
    hide ParseControls, BuildControls, NormalizeControls, U32At;
    var chunks := BuildControls(T, v.controls).value;
    HasSplit(data, o, U32(v.unit) + U32(0), chunks);
    ControlsNeverReturn(T, v.controls, data, o + 8, o + 8 + |chunks|);
  }

  lemma {:induction false} ControlsNeverReturn(T: Tables, controls: seq<Control>, data: Bytes, current: nat, end: nat)
    requires BuildControls(T, controls).Ok? && Has(data, current, BuildControls(T, controls).value)
    requires end == current + |BuildControls(T, controls).value|
    requires NormalizeControls(T, controls) == Err(RawBytes)
    ensures ParseControls(T, data, current, end) != Ok(controls)
    decreases SizeControls(controls), 0
  {
    hide ParseBody, BuildBody, Normalize, PackPod, PackU32Pair, U32At, Cons;
    var c := controls[0];
    BuildInferred(T, c.value);
    var ty := InferType(c.value).value;
    var body := BuildBody(T, c.value, ty).value;
    var next := current + 8 + Align8(8 + |body|);
    FramedEntry(c.offset, c.kind, ty, body, BuildControls(T, controls[1..]).value, data, current);
    ConsRaw(WithValue(c.offset, c.kind, Normalize(T, c.value, ty)), NormalizeControls(T, controls[1..]));
    ConsOk(WithValue(c.offset, c.kind, ParseBody(T, data, current + 16, |body|, ty)),
           ParseControls(T, data, next, end), controls);
    if Normalize(T, c.value, ty) == Err(RawBytes) {
      NeverReturns(T, c.value, ty, data, current + 16);
    } else {
      ControlsNeverReturn(T, controls[1..], data, next, end);
    }
  }

  /** The presentation that leaves every value alone. */
  const PLAIN: PropertySpec := PropertySpec(0, [], None, Plain, None)

  lemma {:induction false} ArrayNeverReturns(T: Tables, v: Value, data: Bytes, o: nat)
    requires BuildArray(T, v).Ok? && Has(data, o, BuildArray(T, v).value)
    requires NormalizeArray(T, v) == Err(RawBytes)
    ensures ParseArray(T, data, o, |BuildArray(T, v).value|) != Ok(v)
    decreases Size(v), 1
  {
    hide BuildItems, ParseItems, NormalizeItems, Alternatives, Has, U32At;
    var items, childType := ItemsOf(v).value, ItemType(v).value;
    var (childSize, bodies) := BuildItems(T, items, childType, ChildSizeOf(v)).value;
    HasSplit(data, o, U32(childSize) + U32(childType), bodies);
    ReadPair(data, o, childSize, childType);
    ItemsNeverReturn(T, PLAIN, items, childType, ChildSizeOf(v), data, o + 8, o + 8 + |bodies|);
    UntouchedAre(PLAIN, items);
  }

  lemma {:induction false} ChoiceNeverReturns(T: Tables, v: Value, data: Bytes, o: nat)
    requires BuildChoice(T, v).Ok? && Has(data, o, BuildChoice(T, v).value)
    requires NormalizeChoice(T, v) == Err(RawBytes)
    ensures ParseChoice(T, data, o, |BuildChoice(T, v).value|) != Ok(v)
    decreases Size(v), 1
  {
    hide Alternatives;
    ChoiceItemsNeverReturn(T, PLAIN, v, data, o);
    UntouchedAre(PLAIN, v.items);
  }

  /** The values of a choice, however its property shows them. */
  lemma {:induction false} ChoiceItemsNeverReturn(T: Tables, spec: PropertySpec, v: Value, data: Bytes, o: nat)
    requires BuildChoice(T, v).Ok? && Has(data, o, BuildChoice(T, v).value)
    requires NormalizeChoice(T, v) == Err(RawBytes)
    ensures var r := ParseChoice(T, data, o, |BuildChoice(T, v).value|);
      r.Ok? ==> r.value.VChoice? && Alternatives(spec, r.value.items) != Ok(v.items)
    decreases Size(v), 0
  {
    hide BuildItems, ParseItems, NormalizeItems, Alternatives, Has, U32At;
    var childType := ItemType(v).value;
    var (childSize, bodies) := BuildItems(T, v.items, childType, v.childSize).value;
    assert BuildChoice(T, v).value
      == (U32(v.choiceType) + U32(v.choiceFlags)) + (U32(childSize) + U32(childType)) + bodies;
    ReadChoiceHead(data, o, v.choiceType, v.choiceFlags, childSize, childType, bodies);
    ItemsNeverReturn(T, spec, v.items, childType, v.childSize, data, o + 16, o + 16 + |bodies|);
  }

  lemma {:induction false} ItemsNeverReturn(
    T: Tables, spec: PropertySpec, items: seq<Value>, childType: int, given: Option<int>,
    data: Bytes, current: nat, end: nat)
    requires FitsU32(childType) && BuildItems(T, items, childType, given).Ok?
    requires var (childSize, bodies) := BuildItems(T, items, childType, given).value;
      FitsU32(childSize) && childSize != 0 && Has(data, current, bodies) && end == current + |bodies|
    requires NormalizeItems(T, items, childType) == Err(RawBytes)
    ensures var (childSize, bodies) := BuildItems(T, items, childType, given).value;
      var r := ParseItems(T, data, current, end, childSize, childType);
      r.Ok? ==> Alternatives(spec, r.value) != Ok(items)
    decreases SizeSeq(items), 0
  {
    hide ParseBody, BuildBody, Normalize, AlternativeOf, ParsedKind, U32;
    var body := BuildBody(T, items[0], childType).value;
    ItemsKeepSize(T, items[1..], childType, |body|);
    var rest := BuildItems(T, items[1..], childType, Some(|body|)).value.1;
    HasSplit(data, current, body, rest);
    var head := U32(|body|) + U32(childType);
    var podData := head + data[current..current + |body|];
    HasIn(head, body, []);
    assert podData == head + body + [];
    var parsed := ParseBody(T, podData, 8, |body|, childType);
    var others := ParseItems(T, data, current + |body|, end, |body|, childType);
    var r := ParseItems(T, data, current, end, |body|, childType);
    assert r == Cons(parsed, others);
    ConsRaw(Normalize(T, items[0], childType), NormalizeItems(T, items[1..], childType));
    if r.Ok? && Alternatives(spec, r.value) == Ok(items) {
      assert r.value[0] == parsed.value && r.value[1..] == others.value;
      ConsOk(AlternativeOf(spec, parsed.value), Alternatives(spec, others.value), items);
      KindParsed(T, podData, 8, |body|, childType);
      AlternativeReflects(T, spec, parsed.value, items[0], childType);
      if Normalize(T, items[0], childType) == Err(RawBytes) {
        NeverReturns(T, items[0], childType, podData, 8);
      } else {
        ItemsNeverReturn(T, spec, items[1..], childType, Some(|body|), data, current + |body|, end);
      }
      assert false;
    }
  }

  // Objects.

  lemma {:induction false} SlotNeverReturns(
    T: Tables, spec: Option<PropertySpec>, v: Value, prepared: Value, ty: int, data: Bytes, o: nat)
    requires Prepare(T, spec, v) == Ok(prepared) && BuildBody(T, prepared, ty).Ok?
    requires ExplicitType(prepared).Some? ==> ty == ExplicitType(prepared).value
    requires Has(data, o, BuildBody(T, prepared, ty).value)
    requires Normalize(T, prepared, ty) == Err(RawBytes)
    ensures var r := ParseBody(T, data, o, |BuildBody(T, prepared, ty).value|, ty);
      r.Ok? ==> Specialize(spec, r.value) != Ok(v)
    decreases Size(v), 4
  {
    var size := |BuildBody(T, prepared, ty).value|;
    var r := ParseBody(T, data, o, size, ty);
    PrepareSize(T, spec, v);
    hide ParseBody, BuildBody, Normalize, Specialize, Has;
    if spec.Some? && v.VChoice? {
      ChoiceSlotNeverReturns(T, spec.value, v, prepared, data, o);
    } else if r.Ok? && Specialize(spec, r.value) == Ok(v) {
      hide Prepare;
      KindParsed(T, data, o, size, ty);
      StructCounted(T, prepared, ty, data, o);
      SlotReflects(T, spec, v, prepared, ty, r.value);
      NeverReturns(T, prepared, ty, data, o);
      assert false;
    }
  }

  lemma {:induction false} StructCounted(T: Tables, prepared: Value, ty: int, data: Bytes, o: nat)
    requires BuildBody(T, prepared, ty).Ok? && Has(data, o, BuildBody(T, prepared, ty).value)
    requires ExplicitType(prepared).Some? ==> ty == ExplicitType(prepared).value
    ensures var r := ParseBody(T, data, o, |BuildBody(T, prepared, ty).value|, ty);
      r.Ok? ==> SameCount(prepared, r.value)
  {
    hide ParsePods, BuildPods, Has;
    if prepared.VStruct? {
      assert BuildBody(T, prepared, ty) == BuildPods(T, prepared.items);
      PodsCounted(T, prepared.items, data, o, o + |BuildPods(T, prepared.items).value|);
    }
  }

  lemma {:induction false} ChoiceSlotNeverReturns(
    T: Tables, spec: PropertySpec, v: Value, prepared: Value, data: Bytes, o: nat)
    requires v.VChoice? && Prepare(T, Some(spec), v) == Ok(prepared) && BuildBody(T, prepared, T_CHOICE).Ok?
    requires Has(data, o, BuildBody(T, prepared, T_CHOICE).value)
    requires Normalize(T, prepared, T_CHOICE) == Err(RawBytes)
    ensures var r := ParseBody(T, data, o, |BuildBody(T, prepared, T_CHOICE).value|, T_CHOICE);
      r.Ok? ==> Specialize(Some(spec), r.value) != Ok(v)
    decreases Size(v), 3
  {
    hide BuildItems, ParseItems, NormalizeItems, Alternatives, Specialize;
    assert BuildBody(T, prepared, T_CHOICE) == BuildChoice(T, prepared);
    assert Normalize(T, prepared, T_CHOICE) == NormalizeChoice(T, prepared);
    ChoiceItemsNeverReturn(T, spec, prepared, data, o);
    var r := ParseBody(T, data, o, |BuildBody(T, prepared, T_CHOICE).value|, T_CHOICE);
    assert r == ParseChoice(T, data, o, |BuildBody(T, prepared, T_CHOICE).value|);
    if r.Ok? { PresentedChoice(spec, r.value, v); }
  }

  lemma {:induction false} ObjectNeverReturns(T: Tables, v: Value, data: Bytes, o: nat)
    requires BuildObject(T, v).Ok? && Has(data, o, BuildObject(T, v).value)
    requires NormalizeObject(T, v) == Err(RawBytes)
    ensures ParseObject(T, data, o, |BuildObject(T, v).value|) != Ok(v)
    decreases Size(v), 1
  {
    hide ParseProperties, BuildProperties, NormalizeProperties, Assemble, Has, U32At;
    var chunks := BuildProperties(T, v.objectId, v.properties, v.flags, v.keys).value;
    HasSplit(data, o, U32(v.objectType) + U32(v.objectId), chunks);
    ReadPair(data, o, v.objectType, v.objectId);
    var end := o + 8 + |chunks|;
    assert v.properties[0..] == v.properties;
    var r := ParseProperties(T, v.objectId, data, o + 8, end);
    if r.Ok? {
      PropertiesNeverReturn(T, v, 0, data, o + 8, end);
      if Assemble(T, v.objectType, v.objectId, r.value) == v {
        AssembledIsCanonical(T, v, r.value);
        assert false;
      }
    }
  }

  /** The wire properties are read with their keys and flags, and not all with their values. */
  lemma {:induction false} PropertiesNeverReturn(T: Tables, v: Value, n: nat, data: Bytes, current: nat, end: nat)
    requires v.VObject? && n <= |v.properties|
    requires BuildProperties(T, v.objectId, v.properties[n..], v.flags, v.keys).Ok?
    requires Has(data, current, BuildProperties(T, v.objectId, v.properties[n..], v.flags, v.keys).value)
    requires end == current + |BuildProperties(T, v.objectId, v.properties[n..], v.flags, v.keys).value|
    ensures var r := ParseProperties(T, v.objectId, data, current, end);
      r.Ok? ==>
        && WireFrom(T, v, n, r.value)
        && (NormalizeProperties(T, v.objectId, v.properties[n..], v.flags, v.keys) == Err(RawBytes)
            ==> !ValuesFrom(v, n, r.value))
    decreases SizeDict(v.properties[n..]), 0
  {
    hide ParseBody, BuildBody, Normalize, PackPod, PackU32Pair, U32At, Specialize, Prepare, FlagsOf, WireKey;
    if n < |v.properties| {
      var properties := v.properties[n..];
      var flag := FlagsOf(v.flags, properties[0].0);
      assert properties[1..] == v.properties[n + 1..];
      var key, prepared, ty, body, rest := BuildPropertiesStep(T, v.objectId, properties, v.flags, v.keys);
      FramedEntry(key, flag, ty, body, rest, data, current);
      var next := current + 8 + Align8(8 + |body|);
      PropertiesNeverReturn(T, v, n + 1, data, next, end);
      var parsed := ParseBody(T, data, current + 16, |body|, ty);
      var head := Present(T, v.objectId, key, flag, parsed);
      var others := ParseProperties(T, v.objectId, data, next, end);
      assert ParseProperties(T, v.objectId, data, current, end) == Cons(head, others);
      PreparedSlot(T, v, properties[0], key, prepared, ty);
      if head.Ok? && others.Ok? {
        WireCons(T, v, n, head.value, others.value);
        if NormalizeProperties(T, v.objectId, properties, v.flags, v.keys) == Err(RawBytes) {
          var spec := SpecByKey(T, v.objectId, key);
          PropertiesRaw(T, v, properties, key, prepared, ty);
          if Normalize(T, prepared, ty) == Err(RawBytes) {
            SlotNeverReturns(T, spec, properties[0].1, prepared, ty, data, current + 16);
          }
        }
      }
    }
  }

  lemma PreparedSlot(T: Tables, v: Value, property: (Key, Value), key: int, prepared: Value, ty: int)
    requires v.VObject? && PrepareProperty(T, v.objectId, property, v.keys) == Ok((key, prepared, ty))
    ensures WireKey(T, v.objectId, property.0, v.keys) == Ok(key)
    ensures Prepare(T, SpecByKey(T, v.objectId, key), property.1) == Ok(prepared)
    ensures ExplicitType(prepared).Some? ==> ty == ExplicitType(prepared).value
  {
    hide Prepare, WireKey;
  }

  /** Raw bytes among properties are in the first or in one of the others. */
  lemma PropertiesRaw(T: Tables, v: Value, properties: Dict<Key, Value>, key: int, prepared: Value, ty: int)
    requires v.VObject? && properties != []
    requires PrepareProperty(T, v.objectId, properties[0], v.keys) == Ok((key, prepared, ty))
    requires NormalizeProperties(T, v.objectId, properties, v.flags, v.keys) == Err(RawBytes)
    ensures Normalize(T, prepared, ty) == Err(RawBytes)
         || NormalizeProperties(T, v.objectId, properties[1..], v.flags, v.keys) == Err(RawBytes)
  {
    hide Normalize, PrepareProperty, Specialize;
    var normal := Normalize(T, prepared, ty);
    if normal.Ok? { SpecializeNotRaw(SpecByKey(T, v.objectId, key), normal.value); }
    ConsRaw(Present(T, v.objectId, key, FlagsOf(v.flags, properties[0].0), normal),
            NormalizeProperties(T, v.objectId, properties[1..], v.flags, v.keys));
  }

  /** A value that builds and holds raw bytes as an embedded pod, at any depth, never comes back unchanged. */
  lemma RawBytesNeverReturn(T: Tables, v: Value, ty: int, pre: Bytes, post: Bytes)
    requires BuildAs(T, v, ty).Ok? && Normalize(T, v, ty) == Err(RawBytes)
    ensures Parse(T, pre + BuildAs(T, v, ty).value + post, |pre|) != Ok(v)
  {
    hide BuildBody, ParseBody, Normalize;
    var pod, body := BuildAs(T, v, ty).value, BuildBody(T, v, ty).value;
    var data := pre + pod + post;
    HasIn(pre, pod, post);
    FramedPod(ty, body, data, |pre|);
    NeverReturns(T, v, ty, data, |pre| + 8);
  }
}
