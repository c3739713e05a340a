/** Building and parsing returns a value unchanged if and only if the value is canonical. */
module PodExactness {
  import opened Wrappers
  import opened Wire
  import opened PodValues
  import opened PodShapes
  import opened PodCodec
  import opened PodRoundTrip
  import opened PodCanonical
  import opened PodSlots
  import opened PodObjects
  import opened PodRawBytes

  lemma {:induction false} CanonicalIff(T: Tables, v: Value, ty: int)
    requires BuildBody(T, v, ty).Ok?
    ensures Normalize(T, v, ty) == Ok(v) <==> Canonical(T, v, ty)
    decreases Size(v), 2
  {
    if ty == T_ARRAY {
      ArrayIff(T, v);
    } else if ty == T_STRUCT {
      StructIff(T, v);
    } else if ty == T_OBJECT {
      ObjectIff(T, v);
    } else if ty == T_SEQUENCE {
      SequenceIff(T, v);
    } else if ty == T_CHOICE {
      ChoiceIff(T, v);
    } else if ty == T_POD {
      EmbeddedIff(T, v);
    } else {
      LeafIff(v, ty);
    }
  }

  lemma LeafIff(v: Value, ty: int)
    requires BuildLeaf(v, ty).Ok? && !IsContainer(ty)
    ensures NormalizeLeaf(v, ty) == Ok(v) <==> CanonicalLeaf(v, ty)
  {
  }

  lemma {:induction false} EmbeddedIff(T: Tables, v: Value)
    requires BuildEmbedded(T, v).Ok?
    ensures NormalizeEmbedded(T, v) == Ok(v) <==> Canonical(T, v, T_POD)
    decreases Size(v), 1
  {
    hide BuildBody, Normalize;
    if v.VPod? && !v.pod.VBytes? {
      BuildInferred(T, v.pod);
      CanonicalIff(T, v.pod, InferType(v.pod).value);
    }
  }

  lemma {:induction false} StructIff(T: Tables, v: Value)
    requires BuildStruct(T, v).Ok?
    ensures NormalizeStruct(T, v) == Ok(v) <==> Canonical(T, v, T_STRUCT)
    decreases Size(v), 1
  {
    hide BuildPods, NormalizePods;
    if v.VStruct? {
      PodsIff(T, v.items);
    }
  }

  lemma {:induction false} PodsIff(T: Tables, items: seq<Value>)
    requires BuildPods(T, items).Ok?
    ensures NormalizePods(T, items) == Ok(items) <==> CanonicalPods(T, items)
    decreases SizeSeq(items), 0
  {
    hide BuildBody, Normalize, Canonical, Cons;
    if items != [] {
      BuildInferred(T, items[0]);
      var ty := InferType(items[0]).value;
      CanonicalIff(T, items[0], ty);
      PodsIff(T, items[1..]);
      ConsOk(Normalize(T, items[0], ty), NormalizePods(T, items[1..]), items);
    }
  }

  lemma {:induction false} SequenceIff(T: Tables, v: Value)
    requires BuildSequence(T, v).Ok?
    ensures NormalizeSequence(T, v) == Ok(v) <==> Canonical(T, v, T_SEQUENCE)
    decreases Size(v), 1
  {
    hide BuildControls, NormalizeControls;
    if v.VSequence? {
      ControlsIff(T, v.controls);
    }
  }

  lemma {:induction false} ControlsIff(T: Tables, controls: seq<Control>)
    requires BuildControls(T, controls).Ok?
    ensures NormalizeControls(T, controls) == Ok(controls) <==> CanonicalControls(T, controls)
    decreases SizeControls(controls), 0
  {
    hide BuildBody, Normalize, Canonical, Cons;
    if controls != [] {
      var c := controls[0];
      BuildInferred(T, c.value);
      var ty := InferType(c.value).value;
      CanonicalIff(T, c.value, ty);
      ControlsIff(T, controls[1..]);
      ConsOk(WithValue(c.offset, c.kind, Normalize(T, c.value, ty)), NormalizeControls(T, controls[1..]), controls);
    }
  }

  lemma {:induction false} ArrayIff(T: Tables, v: Value)
    requires BuildArray(T, v).Ok?
    ensures NormalizeArray(T, v) == Ok(v) <==> Canonical(T, v, T_ARRAY)
    decreases Size(v), 1
  {
    hide NormalizeItems, BuildItems, AllCanonical;
    if v.VArray? && v.childType.Some? {
      ItemsIff(T, v.items, v.childType.value, v.childSize);
    }
  }

  lemma {:induction false} ChoiceIff(T: Tables, v: Value)
    requires BuildChoice(T, v).Ok?
    ensures NormalizeChoice(T, v) == Ok(v) <==> Canonical(T, v, T_CHOICE)
    decreases Size(v), 1
  {
    hide NormalizeItems, BuildItems, AllCanonical;
    if v.VChoice? && v.childType.Some? {
      ItemsIff(T, v.items, v.childType.value, v.childSize);
    }
  }

  /** The size and the items an array or choice comes back with. */
  lemma {:induction false} ItemsIff(T: Tables, items: seq<Value>, childType: int, given: Option<int>)
    requires BuildItems(T, items, childType, given).Ok?
    ensures var childSize := BuildItems(T, items, childType, given).value.0;
      var normal := if childSize == 0 then Ok([]) else NormalizeItems(T, items, childType);
      given == Some(childSize) && normal == Ok(items) <==> CanonicalItems(T, items, given, childType)
    decreases SizeSeq(items), 1
  {
    hide Normalize, Canonical;
    AllIff(T, items, childType, given);
    if given.Some? {
      ItemsKeepSize(T, items, childType, given.value);
    }
  }

  lemma {:induction false} AllIff(T: Tables, items: seq<Value>, childType: int, given: Option<int>)
    requires BuildItems(T, items, childType, given).Ok?
    ensures NormalizeItems(T, items, childType) == Ok(items) <==> AllCanonical(T, items, childType)
    decreases SizeSeq(items), 0
  {
    hide BuildBody, Normalize, Canonical, Cons;
    if items != [] {
      CanonicalIff(T, items[0], childType);
      AllIff(T, items[1..], childType, Some(|BuildBody(T, items[0], childType).value|));
      ConsOk(Normalize(T, items[0], childType), NormalizeItems(T, items[1..], childType), items);
    }
  }

  // Typed properties.

  /** A property value whose preparation left it alone and whose presentation is not of the shape's own kind. */
  lemma {:induction false} KeptIff(T: Tables, spec: PropertySpec, v: Value, ty: int)
    requires BuildBody(T, v, ty).Ok? && !v.VChoice?
    requires match spec.shape
      case DictInfo => !v.VDict?
      case Params => !v.VDict?
      case Labels => !v.VList?
      case ProfileClasses => !v.VList?
      case _ => false
    ensures Returns(T, Some(spec), v, ty, v)
       <==> Canonical(T, v, ty) && Specialize(Some(spec), v) == Ok(v)
    decreases Size(v), 3
  {
    hide BuildBody, Canonical, PairUp, LabelsFrom, ClassesFrom;
    CanonicalIff(T, v, ty);
  }

  lemma {:induction false} MemberIff(T: Tables, v: Value, members: set<int>, ty: int)
    requires BuildBody(T, v, ty).Ok?
    ensures (Normalize(T, v, ty).Ok? && Coerce(Normalize(T, v, ty).value, members) == v)
       <==> CanonicalMember(T, v, members, ty)
    decreases Size(v), 3
  {
    CanonicalIff(T, v, ty);
  }

  lemma {:induction false} ParamsIff(T: Tables, spec: PropertySpec, v: Value, prepared: Value)
    requires spec.shape == Params && v.VDict? && Prepare(T, Some(spec), v) == Ok(prepared)
    requires BuildStruct(T, prepared).Ok?
    ensures Returns(T, Some(spec), prepared, T_STRUCT, v) <==> CanonicalParams(T, v.entries)
    decreases Size(v), 2
  {
    hide NormalizePods, NormalEntries, CanonicalParamValues, ParamItems, PairUp, BuildPods;
    ParamsNormal(T, v.entries);
    EntriesIff(T, v.entries);
    var back := NormalEntries(T, v.entries);
    assert Normalize(T, prepared, T_STRUCT) == NormalizeStruct(T, prepared);
    assert DistinctPlainKeys(v.entries)
      <==> (forall i :: 0 <= i < |v.entries| ==> 0 !in v.entries[i].0) && UniqueKeys(v.entries);
    if back.Ok? {
      PairUpPuts([], back.value);
      PutAllIff(back.value, v.entries);
      assert Normalize(T, prepared, T_STRUCT) == Ok(VStruct(ParamItems(back.value)));
    }
  }

  lemma {:induction false} EntriesIff(T: Tables, entries: Dict<Str, Value>)
    requires BuildPods(T, ParamItems(entries)).Ok?
    ensures NormalEntries(T, entries) == Ok(entries)
       <==> (forall i :: 0 <= i < |entries| ==> 0 !in entries[i].0) && CanonicalParamValues(T, entries)
    decreases SizeDict(entries), 0
  {
    hide Normalize, Canonical, BuildBody, Cons;
    if entries != [] {
      var k, v, rest := VStr(entries[0].0), entries[0].1, ParamItems(entries[1..]);
      PairBuilt(T, k, v, rest);
      BuildInferred(T, v);
      CanonicalIff(T, v, InferType(v).value);
      EntriesIff(T, entries[1..]);
      ConsOk(NormalEntry(T, entries[0]), NormalEntries(T, entries[1..]), entries);
      assert forall i :: 0 <= i < |entries[1..]| ==> entries[1..][i] == entries[i + 1];
      assert forall i :: 0 < i < |entries| ==> entries[i] == entries[1..][i - 1];
    }
  }

  /** Labels read back from the pods that were built for them. */
  ghost predicate LabelsReturn(T: Tables, items: seq<Value>, labels: seq<Value>) {
    var parsed := NormalizePods(T, items);
    parsed.Ok? && |parsed.value| % 2 == 0 && LabelsFrom(parsed.value) == Some(labels)
  }

  lemma {:induction false} LabelsIff(T: Tables, labels: seq<Value>)
    requires LabelItems(labels).Some? && BuildPods(T, LabelItems(labels).value).Ok?
    ensures LabelsReturn(T, LabelItems(labels).value, labels) <==> CanonicalLabels(T, labels)
    decreases SizeSeq(labels), 1
  {
    hide Normalize, Canonical, BuildBody;
    if labels != [] {
      var rest := LabelItems(labels[1..]).value;
      var a, b := LabelParts(labels[0]);
      assert LabelItems(labels).value == [a, b] + rest;
      PairBuilt(T, a, b, rest);
      LabelSize(labels[0]);
      BuildInferred(T, a);
      BuildInferred(T, b);
      CanonicalIff(T, a, InferType(a).value);
      CanonicalIff(T, b, InferType(b).value);
      LabelsIff(T, labels[1..]);
      LabelsStep(T, labels, a, b, rest);
      LabelCanonical(T, labels, a, b);
    }
  }

  /** The value and the text one label entry supplies. */
  lemma {:induction false} LabelParts(label_: Value) returns (a: Value, b: Value)
    requires label_.VDict? || (label_.VList? && |label_.items| == 2)
    ensures label_.VDict? ==> a == GetOrNone(label_.entries, K_VALUE) && b == GetOrNone(label_.entries, K_LABEL)
    ensures label_.VList? ==> [a, b] == label_.items
    ensures Size(a) < Size(label_) && Size(b) < Size(label_)
  {
    if label_.VDict? {
      a, b := GetOrNone(label_.entries, K_VALUE), GetOrNone(label_.entries, K_LABEL);
      GetSize(label_.entries, K_VALUE);
      GetSize(label_.entries, K_LABEL);
    } else {
      a, b := label_.items[0], label_.items[1];
      SizeSeqAt(label_.items, 0);
      SizeSeqAt(label_.items, 1);
    }
  }

  lemma LabelSize(label_: Value)
    ensures SizeSeq([label_]) == 1 + Size(label_)
  {
    assert SizeSeq([label_]) == 1 + Size(label_) + SizeSeq([]);
  }

  /** The first label returns by itself, the others among themselves. */
  lemma {:induction false} LabelsStep(T: Tables, labels: seq<Value>, a: Value, b: Value, rest: seq<Value>)
    requires labels != [] && InferType(a).Ok? && InferType(b).Ok?
    ensures LabelsReturn(T, [a, b] + rest, labels)
       <==> (var na, nb := Normalize(T, a, InferType(a).value), Normalize(T, b, InferType(b).value);
             na.Ok? && nb.Ok? && nb.value.VStr? && labels[0] == Label(na.value, nb.value)
             && LabelsReturn(T, rest, labels[1..]))
  {
    hide Normalize, Label;
    NormalPair(T, a, b, rest);
    var parsed := NormalizePods(T, [a, b] + rest);
    var tail := NormalizePods(T, rest);
    if parsed.Ok? {
      assert parsed.value[2..] == tail.value;
    }
    assert labels == [labels[0]] + labels[1..];
  }

  lemma {:induction false} LabelCanonical(T: Tables, labels: seq<Value>, a: Value, b: Value)
    requires labels != [] && InferType(a).Ok? && InferType(b).Ok?
    requires labels[0].VDict? || (labels[0].VList? && |labels[0].items| == 2)
    requires labels[0].VDict? ==>
      a == GetOrNone(labels[0].entries, K_VALUE) && b == GetOrNone(labels[0].entries, K_LABEL)
    requires Normalize(T, a, InferType(a).value) == Ok(a) <==> Canonical(T, a, InferType(a).value)
    requires Normalize(T, b, InferType(b).value) == Ok(b) <==> Canonical(T, b, InferType(b).value)
    ensures CanonicalLabels(T, labels)
       <==> (var na, nb := Normalize(T, a, InferType(a).value), Normalize(T, b, InferType(b).value);
             na.Ok? && nb.Ok? && nb.value.VStr? && labels[0] == Label(na.value, nb.value)
             && CanonicalLabels(T, labels[1..]))
  {
    hide Normalize;
    if labels[0].VDict? && |labels[0].entries| == 2
      && labels[0].entries[0].0 == K_VALUE && labels[0].entries[1].0 == K_LABEL {
      var entries := labels[0].entries;
      assert Get(entries[1..], K_LABEL) == Some(entries[1].1);
      assert a == entries[0].1 && b == entries[1].1;
      assert entries == [(K_VALUE, a), (K_LABEL, b)];
    }
  }

  /** A choice value on an array-shaped property. */
  lemma {:induction false} ArrayAlternativeIff(T: Tables, c: Conversion, members: Option<set<int>>, v: Value, childType: int)
    requires BuildBody(T, v, childType).Ok? && (c.ToFloat? ==> members.None?)
    ensures (Normalize(T, v, childType).Ok? && SpecializeCandidate(c, members, Normalize(T, v, childType).value) == Ok(v))
       <==> CanonicalArrayAlternative(T, c, members, v, childType)
    decreases Size(v), 3
  {
    hide PlainElements, ConvertAll;
    if v.VList? {
      if childType == T_ARRAY {
        NumberListIff(T, c, members, v, v.items);
      } else {
        ListIsLost(T, v, childType);
      }
    } else {
      CanonicalIff(T, v, childType);
    }
  }

  /** A plain list comes back as a structured value, never as a list or an array. */
  lemma ListIsLost(T: Tables, v: Value, ty: int)
    requires v.VList? && BuildBody(T, v, ty).Ok?
    ensures Normalize(T, v, ty).Ok? ==> !Normalize(T, v, ty).value.VList?
    ensures ty != T_ARRAY && Normalize(T, v, ty).Ok? ==> !Normalize(T, v, ty).value.VArray?
  {
  }

  lemma {:induction false} AlternativeIff(T: Tables, spec: PropertySpec, v: Value, childType: int)
    requires BuildBody(T, v, childType).Ok?
    ensures (Normalize(T, v, childType).Ok? && AlternativeOf(spec, Normalize(T, v, childType).value) == Ok(v))
       <==> CanonicalAlternative(T, spec, v, childType)
    decreases Size(v), 4
  {
    hide BuildBody, Normalize, Canonical, CanonicalMember, CanonicalArrayAlternative, SpecializeCandidate, Coerce;
    match spec.shape
    case ArrayInt => ArrayAlternativeIff(T, ToInt, None, v, childType);
    case ArrayFloat => ArrayAlternativeIff(T, ToFloat, None, v, childType);
    case ArrayId => ArrayAlternativeIff(T, ToInt, spec.members, v, childType);
    case DictInfo => CanonicalIff(T, v, childType);
    case Params => CanonicalIff(T, v, childType);
    case Labels => CanonicalIff(T, v, childType);
    case ProfileClasses => CanonicalIff(T, v, childType);
    case _ =>
      if spec.members.None? {
        CanonicalIff(T, v, childType);
      } else {
        MemberIff(T, v, spec.members.value, childType);
      }
  }

  lemma {:induction false} AlternativesIff(T: Tables, spec: PropertySpec, items: seq<Value>, childType: int, given: Option<int>)
    requires BuildItems(T, items, childType, given).Ok?
    ensures (var parsed := NormalizeItems(T, items, childType);
             parsed.Ok? && Alternatives(spec, parsed.value) == Ok(items))
       <==> AllAlternatives(T, spec, items, childType)
    decreases SizeSeq(items), 0
  {
    hide BuildBody, Normalize, AlternativeOf, CanonicalAlternative;
    if items != [] {
      AlternativeIff(T, spec, items[0], childType);
      AlternativesIff(T, spec, items[1..], childType, Some(|BuildBody(T, items[0], childType).value|));
      var parsed := NormalizeItems(T, items, childType);
      if parsed.Ok? {
        var head, tail := Normalize(T, items[0], childType), NormalizeItems(T, items[1..], childType);
        assert parsed.value[0] == head.value && parsed.value[1..] == tail.value;
        ConsOk(AlternativeOf(spec, parsed.value[0]), Alternatives(spec, parsed.value[1..]), items);
      }
    }
  }

  /** A choice on a typed property. */
  lemma {:induction false} ChoiceSlotIff(T: Tables, spec: PropertySpec, v: Value, prepared: Value)
    requires v.VChoice? && Prepare(T, Some(spec), v) == Ok(prepared)
    requires BuildChoice(T, prepared).Ok?
    ensures Returns(T, Some(spec), prepared, T_CHOICE, v) <==> CanonicalSlot(T, Some(spec), v, T_CHOICE)
    decreases Size(v), 3
  {
    hide BuildItems, NormalizeItems, Alternatives, AllAlternatives, Specialize;
    assert Normalize(T, prepared, T_CHOICE) == NormalizeChoice(T, prepared);
    var parsed := NormalizeChoice(T, prepared);
    if parsed.Ok? {
      PresentedChoice(spec, parsed.value, v);
    }
    if v.childType.Some? {
      ChoiceItemsIff(T, spec, v);
    }
  }

  lemma {:induction false} ChoiceItemsIff(T: Tables, spec: PropertySpec, v: Value)
    requires v.VChoice? && v.childType.Some? && BuildChoice(T, v).Ok?
    ensures (var parsed := NormalizeChoice(T, v);
             parsed.Ok? && Alternatives(spec, parsed.value.items).Ok?
             && v == parsed.value.(items := Alternatives(spec, parsed.value.items).value))
       <==> CanonicalSlot(T, Some(spec), v, T_CHOICE)
    decreases Size(v), 2
  {
    hide BuildBody, Normalize, AlternativeOf, CanonicalAlternative;
    AlternativesIff(T, spec, v.items, v.childType.value, v.childSize);
    if v.childSize.Some? {
      ItemsKeepSize(T, v.items, v.childType.value, v.childSize.value);
    }
  }

  /** A list on a label or profile class property that holds something else than entries never returns. */
  lemma OddListIff(T: Tables, spec: PropertySpec, v: Value, ty: int)
    requires v.VList? && BuildBody(T, v, ty).Ok?
    requires (spec.shape == Labels && LabelItems(v.items).None?)
          || (spec.shape == ProfileClasses && ClassItems(v.items) == Ok(None))
    ensures !Returns(T, Some(spec), v, ty, v) && !CanonicalSlot(T, Some(spec), v, ty)
  {
    hide Normalize, BuildBody, LabelsFrom, ClassesFrom, LabelItems, ClassItems, CanonicalLabels, CanonicalClass, AllDicts;
    ListIsLost(T, v, ty);
    CanonicalListsAreDicts(T, v.items);
    if AllDicts(v.items) {
      DictsConvert(v.items);
    }
    if Returns(T, Some(spec), v, ty, v) {
      var items := Normalize(T, v, ty).value.items;
      if spec.shape == Labels {
        LabelsAreDicts(items);
      } else {
        ClassListRead(Normalize(T, v, ty).value, v);
      }
    }
  }

  lemma {:induction false} LabelSlotIff(T: Tables, spec: PropertySpec, v: Value, prepared: Value)
    requires spec.shape == Labels && v.VList? && LabelItems(v.items).Some?
    requires prepared == VStruct(LabelItems(v.items).value) && BuildStruct(T, prepared).Ok?
    ensures Returns(T, Some(spec), prepared, T_STRUCT, v) <==> CanonicalLabels(T, v.items)
    decreases Size(v), 2
  {
    hide LabelItems, LabelsFrom, CanonicalLabels, NormalizePods, BuildPods;
    LabelsIff(T, v.items);
    assert Normalize(T, prepared, T_STRUCT) == NormalizeStruct(T, prepared);
  }

  /** A property without a shape of its own kind, or with its own object shape. */
  lemma {:induction false} PlainSlotIff(T: Tables, spec: PropertySpec, v: Value, prepared: Value, ty: int)
    requires spec.shape in {Plain, ObjectProps, ObjectFormat} && !v.VChoice?
    requires Prepare(T, Some(spec), v) == Ok(prepared) && BuildBody(T, prepared, ty).Ok?
    requires ExplicitType(prepared).Some? ==> ty == ExplicitType(prepared).value
    ensures Returns(T, Some(spec), prepared, ty, v) <==> CanonicalSlot(T, Some(spec), v, ty)
    decreases Size(v), 4
  {
    hide BuildBody, Canonical;
    ChoiceOnly(T, prepared, ty);
    if prepared == v {
      if spec.members.None? {
        CanonicalIff(T, v, ty);
      } else {
        MemberIff(T, v, spec.members.value, ty);
      }
    } else {
      NoDictReturns(T, prepared, v, ty);
    }
  }

  /** Only a choice comes back as a choice. */
  lemma ChoiceOnly(T: Tables, v: Value, ty: int)
    requires BuildBody(T, v, ty).Ok?
    ensures Normalize(T, v, ty).Ok? && Normalize(T, v, ty).value.VChoice? ==> v.VChoice?
  {
    if ty == T_STRUCT {
      assert Normalize(T, v, ty) == NormalizeStruct(T, v);
    } else if ty == T_OBJECT {
      assert Normalize(T, v, ty) == NormalizeObject(T, v);
    } else if ty == T_SEQUENCE {
      assert Normalize(T, v, ty) == NormalizeSequence(T, v);
    } else if ty == T_ARRAY {
      assert Normalize(T, v, ty) == NormalizeArray(T, v);
    } else if ty == T_POD {
      assert Normalize(T, v, ty) == NormalizeEmbedded(T, v);
    } else if ty == T_CHOICE {
      assert Normalize(T, v, ty) == NormalizeChoice(T, v);
    }
  }

  /** A dictionary given for an object comes back as an object. */
  lemma NoDictReturns(T: Tables, prepared: Value, v: Value, ty: int)
    requires prepared.VObject? && v.VDict? && ty == T_OBJECT
    ensures !Canonical(T, v, ty)
    ensures Normalize(T, prepared, ty).Ok? ==> Normalize(T, prepared, ty).value.VObject?
  {
  }

  lemma {:induction false} SlotIff(T: Tables, spec: Option<PropertySpec>, v: Value, prepared: Value, ty: int)
    requires Prepare(T, spec, v) == Ok(prepared) && BuildBody(T, prepared, ty).Ok?
    requires ExplicitType(prepared).Some? ==> ty == ExplicitType(prepared).value
    ensures Returns(T, spec, prepared, ty, v) <==> CanonicalSlot(T, spec, v, ty)
    decreases Size(v), 5
  {
    hide Canonical, PairUp, LabelsFrom, ClassesFrom, LabelItems, ClassItems, DictInfoItems, Normalize, Returns;
    if spec.None? {
      UnspecifiedIff(T, v, ty);
    } else if v.VChoice? {
      assert BuildChoice(T, prepared).Ok?;
      ChoiceSlotIff(T, spec.value, v, prepared);
    } else {
      match spec.value.shape
      case DictInfo => if v.VDict? { DictInfoIff(T, spec.value, v, prepared); } else { KeptIff(T, spec.value, v, ty); }
      case Params => if v.VDict? { ParamsIff(T, spec.value, v, prepared); } else { KeptIff(T, spec.value, v, ty); }
      case Labels =>
        if !v.VList? {
          KeptIff(T, spec.value, v, ty);
        } else if LabelItems(v.items).Some? {
          LabelSlotIff(T, spec.value, v, prepared);
        } else {
          OddListIff(T, spec.value, v, ty);
        }
      case ProfileClasses =>
        if !v.VList? {
          KeptIff(T, spec.value, v, ty);
        } else if ClassItems(v.items).value.Some? {
          ClassesIff(T, spec.value, v, prepared);
        } else {
          OddListIff(T, spec.value, v, ty);
        }
      case ArrayInt => NumberSlotIff(T, spec.value, ToInt, None, v, prepared);
      case ArrayFloat => NumberSlotIff(T, spec.value, ToFloat, None, v, prepared);
      case ArrayId => NumberSlotIff(T, spec.value, ToInt, spec.value.members, v, prepared);
      case _ => PlainSlotIff(T, spec.value, v, prepared, ty);
    }
  }

  lemma {:induction false} UnspecifiedIff(T: Tables, v: Value, ty: int)
    requires BuildBody(T, v, ty).Ok?
    ensures Returns(T, None, v, ty, v) <==> Canonical(T, v, ty)
    decreases Size(v), 4
  {
    CanonicalIff(T, v, ty);
  }

  lemma {:induction false} NumberSlotIff(
    T: Tables, spec: PropertySpec, c: Conversion, members: Option<set<int>>, v: Value, prepared: Value)
    requires spec.shape in {ArrayInt, ArrayFloat, ArrayId}
    requires c == (if spec.shape == ArrayFloat then ToFloat else ToInt)
    requires members == (if spec.shape == ArrayId then spec.members else None)
    requires !v.VChoice? && Prepare(T, Some(spec), v) == Ok(prepared) && BuildArray(T, prepared).Ok?
    ensures Returns(T, Some(spec), prepared, T_ARRAY, v) <==> CanonicalSlot(T, Some(spec), v, T_ARRAY)
  {
    hide PlainElements, ConvertAll, BuildItems, NormalizeItems;
    NumberListIff(T, c, members, prepared, v.items);
    assert Normalize(T, prepared, T_ARRAY) == NormalizeArray(T, prepared);
    ArrayOnly(T, prepared);
  }

  /** An array comes back as an array. */
  lemma ArrayOnly(T: Tables, v: Value)
    ensures NormalizeArray(T, v).Ok? ==> NormalizeArray(T, v).value.VArray?
  {
  }

  // Objects.

  lemma {:induction false} PropertyIff(T: Tables, objectId: int, property: (Key, Value), keys: map<Str, int>,
                                       key: int, prepared: Value, ty: int, flags: int)
    requires PrepareProperty(T, objectId, property, keys) == Ok((key, prepared, ty))
    requires BuildBody(T, prepared, ty).Ok?
    ensures WireKey(T, objectId, property.0, keys) == Ok(key)
    ensures var p := Present(T, objectId, key, flags, Normalize(T, prepared, ty));
      && (p.Ok? ==> p.value.key == key && p.value.flags == flags)
      && (p.Ok? && p.value.value == property.1 <==> CanonicalSlot(T, SpecByKey(T, objectId, key), property.1, ty))
    decreases Size(property.1), 6
  {
    hide Normalize, BuildBody, CanonicalSlot, Prepare, Specialize;
    SlotIff(T, SpecByKey(T, objectId, key), property.1, prepared, ty);
  }

  lemma {:induction false} PropertiesIff(T: Tables, v: Value, n: nat)
    returns (ps: seq<Property>)
    requires v.VObject? && n <= |v.properties|
    requires BuildProperties(T, v.objectId, v.properties[n..], v.flags, v.keys).Ok?
    ensures var normal := NormalizeProperties(T, v.objectId, v.properties[n..], v.flags, v.keys);
      if normal.Err? then !CanonicalProperties(T, v.objectId, v.properties[n..], v.keys)
      else
        && ps == normal.value && WireFrom(T, v, n, ps)
        && (CanonicalProperties(T, v.objectId, v.properties[n..], v.keys) <==> ValuesFrom(v, n, ps))
    decreases SizeDict(v.properties[n..]), 0
  {
    hide Normalize, BuildBody, CanonicalSlot, PrepareProperty, Present, FlagsOf, WireKey;
    ps := [];
    if n < |v.properties| {
      var properties := v.properties[n..];
      var property := properties[0];
      assert properties[1..] == v.properties[n + 1..];
      var key, prepared, ty, body, tail := BuildPropertiesStep(T, v.objectId, properties, v.flags, v.keys);
      PropertyIff(T, v.objectId, property, v.keys, key, prepared, ty, FlagsOf(v.flags, property.0));
      var others := PropertiesIff(T, v, n + 1);
      var head := Present(T, v.objectId, key, FlagsOf(v.flags, property.0), Normalize(T, prepared, ty));
      PropertiesStep(T, v, properties, key, prepared, ty);
      hide NormalizeProperties, CanonicalProperties, BuildProperties, SizeDict;
      if NormalizeProperties(T, v.objectId, properties, v.flags, v.keys).Ok? {
        ps := [head.value] + others;
        WireCons(T, v, n, head.value, others);
        hide WireFrom, ValuesFrom;
      }
    }
  }

  lemma {:induction false} PropertiesStep(T: Tables, v: Value, properties: Dict<Key, Value>,
                                          key: int, prepared: Value, ty: int)
    requires v.VObject? && properties != []
    requires PrepareProperty(T, v.objectId, properties[0], v.keys) == Ok((key, prepared, ty))
    ensures NormalizeProperties(T, v.objectId, properties, v.flags, v.keys)
         == Cons(Present(T, v.objectId, key, FlagsOf(v.flags, properties[0].0), Normalize(T, prepared, ty)),
                 NormalizeProperties(T, v.objectId, properties[1..], v.flags, v.keys))
    ensures CanonicalProperties(T, v.objectId, properties, v.keys)
      <==> (CanonicalSlot(T, SpecByKey(T, v.objectId, key), properties[0].1, ty)
            && CanonicalProperties(T, v.objectId, properties[1..], v.keys))
  {
    hide Normalize, CanonicalSlot, PrepareProperty, Present, Cons;
  }

  lemma {:induction false} ObjectIff(T: Tables, v: Value)
    requires BuildObject(T, v).Ok?
    ensures NormalizeObject(T, v) == Ok(v) <==> Canonical(T, v, T_OBJECT)
    decreases Size(v), 1
  {
    hide NormalizeProperties, BuildProperties, CanonicalProperties, CanonicalKeys, Assemble;
    assert v.properties[0..] == v.properties;
    var ps := PropertiesIff(T, v, 0);
    if NormalizeProperties(T, v.objectId, v.properties, v.flags, v.keys).Ok? {
      AssembleIff(T, v, ps);
    }
  }

  /**
    * Main theorem: a value that builds comes back unchanged, from any place in any buffer, if and only
    * if it is canonical.
    */
  lemma RoundTripIff(T: Tables, v: Value, ty: int, pre: Bytes, post: Bytes)
    requires BuildAs(T, v, ty).Ok?
    ensures Parse(T, pre + BuildAs(T, v, ty).value + post, |pre|) == Ok(v) <==> Canonical(T, v, ty)
  {
    hide Normalize, BuildBody, Canonical, Parse;
    ParseOfBuild(T, v, ty, pre, post);
    CanonicalIff(T, v, ty);
    if Normalize(T, v, ty) == Err(RawBytes) { RawBytesNeverReturn(T, v, ty, pre, post); }
  }
}
