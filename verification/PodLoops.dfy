/** The codec's loops: each parses or builds one container exactly as the recursive reading says. */
module PodLoops {
  import opened Wrappers
  import opened Wire
  import opened PodValues
  import opened PodShapes
  import opened PodCodec
  import opened PodRoundTrip

  /** A list already collected, followed by the outcome for the rest. */
  function Append<A>(done: seq<A>, rest: Result<seq<A>, Error>): Result<seq<A>, Error> {
    if rest.Ok? then Ok(done + rest.value) else Err(rest.error)
  }

  lemma AppendCons<A>(done: seq<A>, head: Result<A, Error>, tail: Result<seq<A>, Error>)
    ensures head.Ok? ==> Append(done, Cons(head, tail)) == Append(done + [head.value], tail)
    ensures head.Err? ==> Append(done, Cons(head, tail)) == Err(head.error)
  {
    if head.Ok? && tail.Ok? {
      assert done + ([head.value] + tail.value) == done + [head.value] + tail.value;
    }
  }

  lemma AppendEnds<A>(done: seq<A>, rest: Result<seq<A>, Error>)
    ensures Append([], rest) == rest
    ensures Append(done, Ok([])) == Ok(done)
  {
    assert rest.Ok? ==> [] + rest.value == rest.value;
    assert done + [] == done;
  }

  /** A pod inside a body whose bounds were checked is parsed from its header on. */
  lemma ParseInside(T: Tables, data: Bytes, current: nat, end: nat)
    requires current + 8 <= end <= |data| && current + Align8(8 + U32At(data, current)) <= end
    ensures Parse(T, data, current)
         == ParseBody(T, data, current + 8, U32At(data, current), U32At(data, current + 4))
  {
  }

  lemma ParseAlone(T: Tables, childSize: int, childType: int, body: Bytes)
    requires FitsU32(childSize) && FitsU32(childType) && |body| == childSize
    ensures var podData := U32(childSize) + U32(childType) + body;
      Parse(T, podData, 0) == ParseBody(T, podData, 8, childSize, childType)
  {
    hide ParseBody;
    var podData := U32(childSize) + U32(childType) + body;
    HasIn([], U32(childSize) + U32(childType), body);
    assert [] + (U32(childSize) + U32(childType)) + body == podData;
    ReadPair(podData, 0, childSize, childType);
  }

  /** The item loop of `_parse_array` and `_parse_choice`. */
  method ParseItemLoop(T: Tables, data: Bytes, start: nat, end: nat, childSize: nat, childType: int)
    returns (r: Result<seq<Value>, Error>)
    requires start <= end <= |data| && FitsU32(childSize) && FitsU32(childType)
    ensures r == ParseItems(T, data, start, end, childSize, childType)
  {
    hide ParseBody, Parse, U32;
    var values: seq<Value> := [];
    var current := start;
    AppendEnds(values, ParseItems(T, data, start, end, childSize, childType));
    if childSize > 0 {
      while current + childSize <= end
        invariant start <= current <= end
        invariant Append(values, ParseItems(T, data, current, end, childSize, childType))
               == ParseItems(T, data, start, end, childSize, childType)
      {
        var podData := U32(childSize) + U32(childType) + data[current..current + childSize];
        var value := Parse(T, podData, 0);
        ParseAlone(T, childSize, childType, data[current..current + childSize]);
        AppendCons(values, value, ParseItems(T, data, current + childSize, end, childSize, childType));
        if value.Err? {
          return Err(value.error);
        }
        values := values + [value.value];
        current := current + childSize;
      }
    }
    AppendEnds(values, Ok([]));
    r := Ok(values);
  }

  /** The loop of `_parse_struct`. */
  method ParseStructLoop(T: Tables, data: Bytes, o: nat, size: nat) returns (r: Result<Value, Error>)
    requires o + size <= |data|
    ensures r == ParseStruct(T, data, o, size)
  {
    hide ParseBody, Parse;
    var values: seq<Value> := [];
    var current := o;
    var end := o + size;
    AppendEnds(values, ParsePods(T, data, o, end));
    while current + 8 <= end
      invariant o <= current <= end
      invariant Append(values, ParsePods(T, data, current, end)) == ParsePods(T, data, o, end)
    {
      var total := Align8(8 + U32At(data, current));
      if current + total > end {
        break;
      }
      var value := Parse(T, data, current);
      ParseInside(T, data, current, end);
      AppendCons(values, value, ParsePods(T, data, current + total, end));
      if value.Err? {
        return Err(value.error);
      }
      values := values + [value.value];
      current := current + total;
    }
    AppendEnds(values, Ok([]));
    r := Ok(VStruct(values));
  }

  /** The loop of `_parse_sequence`. */
  method ParseSequenceLoop(T: Tables, data: Bytes, o: nat, size: nat) returns (r: Result<Value, Error>)
    requires o + size <= |data|
    ensures r == ParseSequence(T, data, o, size)
  {
    hide ParseBody, Parse;
    if size < 8 {
      return Ok(VSequence(0, []));
    }
    var controls: seq<Control> := [];
    var current := o + 8;
    var end := o + size;
    AppendEnds(controls, ParseControls(T, data, o + 8, end));
    while current + 16 <= end
      invariant o + 8 <= current <= end
      invariant Append(controls, ParseControls(T, data, current, end)) == ParseControls(T, data, o + 8, end)
    {
      var offset, kind := U32At(data, current), U32At(data, current + 4);
      var total := Align8(8 + U32At(data, current + 8));
      if current + 8 + total > end {
        break;
      }
      var value := Parse(T, data, current + 8);
      ParseInside(T, data, current + 8, end);
      AppendCons(controls, WithValue(offset, kind, value), ParseControls(T, data, current + 8 + total, end));
      if value.Err? {
        return Err(value.error);
      }
      controls := controls + [Control(offset, kind, value.value)];
      current := current + 8 + total;
    }
    AppendEnds(controls, Ok([]));
    r := Ok(VSequence(U32At(data, o), controls));
  }

  lemma {:induction false} AddOneMore(T: Tables, v: Value, done: seq<Property>, p: Property)
    requires v.VObject?
    ensures AddProperties(T, v, done + [p]) == AddProperty(T, AddProperties(T, v, done), p)
    decreases |done|
  {
    if done == [] {
      assert ([] + [p])[1..] == [];
    } else {
      assert (done + [p])[1..] == done[1..] + [p];
      AddOneMore(T, AddProperty(T, v, done[0]), done[1..], p);
    }
  }

  /** Filing one more property, in the three dictionaries, adds it to the object. */
  lemma FiledOneMore(T: Tables, empty: Value, done: seq<Property>, p: Property,
                     properties: Dict<Key, Value>, flags: map<Key, int>, keys: map<Str, int>)
    requires empty.VObject?
    requires VObject(empty.objectType, empty.objectId, properties, flags, keys) == AddProperties(T, empty, done)
    ensures var storage := StorageKey(T, empty.objectId, p.key);
      VObject(empty.objectType, empty.objectId, Put(properties, storage, p.value), flags[storage := p.flags],
              if storage.Name? then keys[storage.name := p.key] else keys)
        == AddProperties(T, empty, done + [p])
  {
    hide AddProperties, StorageKey, Put;
    AddOneMore(T, empty, done, p);
  }

  /** One turn of the object loop reads a property, unless there is no room for its pod. */
  method ReadProperty(T: Tables, objectId: int, data: Bytes, current: nat, end: nat)
    returns (r: Option<Result<Property, Error>>, next: nat)
    requires current + 16 <= end <= |data|
    ensures r.None? ==> ParseProperties(T, objectId, data, current, end) == Ok([])
    ensures r.Some? ==> current < next <= end
    ensures r.Some? ==>
      ParseProperties(T, objectId, data, current, end) == Cons(r.value, ParseProperties(T, objectId, data, next, end))
  {
    hide ParseBody, Parse, Specialize, SpecByKey, Cons;
    var key, flag := U32At(data, current), U32At(data, current + 4);
    next := current + 8 + Align8(8 + U32At(data, current + 8));
    if next > end {
      return None, current;
    }
    var parsed := Parse(T, data, current + 8);
    ParseInside(T, data, current + 8, end);
    if parsed.Err? {
      return Some(Err(parsed.error)), next;
    }
    var value := Specialize(SpecByKey(T, objectId, key), parsed.value);
    if value.Err? {
      return Some(Err(value.error)), next;
    }
    r := Some(Ok(Property(key, flag, value.value)));
  }

  /** The loop over an object's properties: values, flags and numeric keys are filed one by one. */
  method ParsePropertyLoop(T: Tables, objectType: int, objectId: int, data: Bytes, start: nat, end: nat)
    returns (r: Result<Value, Error>)
    requires start <= end <= |data|
    ensures var ps := ParseProperties(T, objectId, data, start, end);
      r == if ps.Err? then Err(ps.error) else Ok(Assemble(T, objectType, objectId, ps.value))
  {
    var properties: Dict<Key, Value> := [];
    var flags: map<Key, int>, keys: map<Str, int> := map[], map[];
    var current := start;
    ghost var done: seq<Property> := [];
    ghost var empty := VObject(objectType, objectId, [], map[], map[]);
    AppendEnds(done, ParseProperties(T, objectId, data, start, end));
    while current + 16 <= end
      invariant start <= current <= end
      invariant Append(done, ParseProperties(T, objectId, data, current, end))
             == ParseProperties(T, objectId, data, start, end)
      invariant VObject(objectType, objectId, properties, flags, keys) == AddProperties(T, empty, done)
    {
      var read, next := ReadProperty(T, objectId, data, current, end);
      if read.None? {
        break;
      }
      hide ParseProperties, AddProperties, StorageKey, Put;
      AppendCons(done, read.value, ParseProperties(T, objectId, data, next, end));
      if read.value.Err? {
        return Err(read.value.error);
      }
      var p := read.value.value;
      FiledOneMore(T, empty, done, p, properties, flags, keys);
      done := done + [p];
      var storage := StorageKey(T, objectId, p.key);
      if storage.Name? {
        keys := keys[storage.name := p.key];
      }
      properties := Put(properties, storage, p.value);
      flags := flags[storage := p.flags];
      current := next;
    }
    AppendEnds(done, Ok([]));
    r := Ok(VObject(objectType, objectId, properties, flags, keys));
  }

  /** The object loop. */
  method ParseObjectLoop(T: Tables, data: Bytes, o: nat, size: nat) returns (r: Result<Value, Error>)
    requires o + size <= |data|
    ensures r == ParseObject(T, data, o, size)
  {
    hide ParseProperties, Assemble;
    if size < 8 {
      return Ok(VObject(0, 0, [], map[], map[]));
    }
    r := ParsePropertyLoop(T, U32At(data, o), U32At(data, o + 4), data, o + 8, o + size);
  }

  /** Bodies already collected, followed by the outcome for the remaining items. */
  function AppendBodies(done: Bytes, rest: Result<(int, Bytes), Error>): Result<(int, Bytes), Error> {
    if rest.Ok? then Ok((rest.value.0, done + rest.value.1)) else Err(rest.error)
  }

  /** The item loop of `_build_array_pod` and `_build_choice_pod`: cuts each item's body out of its pod. */
  method BuildItemLoop(T: Tables, items: seq<Value>, childType: int, given: Option<int>)
    returns (r: Result<(int, Bytes), Error>)
    ensures r == BuildItems(T, items, childType, given)
  {
    hide BuildBody;
    var childSize := given;
    var bodies: Bytes := [];
    AppendBodiesEnds(bodies, BuildItems(T, items, childType, given), 0);
    assert items[0..] == items;
    for i := 0 to |items|
      invariant AppendBodies(bodies, BuildItems(T, items[i..], childType, childSize))
             == BuildItems(T, items, childType, given)
    {
      var pod := BuildAs(T, items[i], childType);
      ItemStep(T, items[i..], childType, childSize, bodies);
      assert items[i..][0] == items[i] && items[i..][1..] == items[i + 1..];
      if pod.Err? {
        return Err(pod.error);
      }
      ItemBody(T, items[i], childType);
      var size := U32At(pod.value, 0);
      if childSize.Some? && childSize.value != size {
        return Err(MixedChildSize);
      }
      childSize := Some(size);
      bodies := bodies + pod.value[8..8 + size];
    }
    AppendBodiesEnds(bodies, Ok((0, [])), if childSize.Some? then childSize.value else 0);
    assert items[|items|..] == [];
    r := Ok((if childSize.Some? then childSize.value else 0, bodies));
  }

  lemma AppendBodiesEnds(done: Bytes, rest: Result<(int, Bytes), Error>, n: int)
    ensures AppendBodies([], rest) == rest
    ensures AppendBodies(done, Ok((n, []))) == Ok((n, done))
  {
    assert rest.Ok? ==> [] + rest.value.1 == rest.value.1;
    assert done + [] == done;
  }

  lemma ItemBody(T: Tables, item: Value, childType: int)
    requires BuildAs(T, item, childType).Ok?
    ensures BuildBody(T, item, childType).Ok?
    ensures var pod, body := BuildAs(T, item, childType).value, BuildBody(T, item, childType).value;
      && |pod| >= 8 && U32At(pod, 0) == |body| && 8 + |body| <= |pod|
      && pod[8..8 + |body|] == body
  {
    hide BuildBody;
    FramedPod(childType, BuildBody(T, item, childType).value, BuildAs(T, item, childType).value, 0);
  }

  lemma ItemStep(T: Tables, items: seq<Value>, childType: int, childSize: Option<int>, done: Bytes)
    requires items != []
    ensures var pod, all := BuildAs(T, items[0], childType), AppendBodies(done, BuildItems(T, items, childType, childSize));
      if pod.Err? then all == Err(pod.error)
      else
        var body := BuildBody(T, items[0], childType);
        && body.Ok?
        && all == (if childSize.Some? && childSize.value != |body.value| then Err(MixedChildSize)
                   else AppendBodies(done + body.value, BuildItems(T, items[1..], childType, Some(|body.value|))))
  {
    hide BuildBody;
    var body := BuildBody(T, items[0], childType);
    if body.Ok? {
      var rest := BuildItems(T, items[1..], childType, Some(|body.value|));
      if rest.Ok? {
        assert done + (body.value + rest.value.1) == done + body.value + rest.value.1;
      }
    }
  }

  /** Chunks already collected, followed by the outcome for the rest. */
  function AppendChunks(done: Bytes, rest: Result<Bytes, Error>): Result<Bytes, Error> {
    if rest.Ok? then Ok(done + rest.value) else Err(rest.error)
  }

  lemma AppendChunksEnds(done: Bytes, rest: Result<Bytes, Error>)
    ensures AppendChunks([], rest) == rest
    ensures AppendChunks(done, Ok([])) == Ok(done)
  {
    assert rest.Ok? ==> [] + rest.value == rest.value;
    assert done + [] == done;
  }

  /** The loop of `_build_sequence_pod`. */
  method BuildControlLoop(T: Tables, controls: seq<Control>) returns (r: Result<Bytes, Error>)
    ensures r == BuildControls(T, controls)
  {
    hide Build, PackU32Pair;
    var chunks: Bytes := [];
    AppendChunksEnds(chunks, BuildControls(T, controls));
    assert controls[0..] == controls;
    for i := 0 to |controls|
      invariant AppendChunks(chunks, BuildControls(T, controls[i..])) == BuildControls(T, controls)
    {
      assert controls[i..][0] == controls[i] && controls[i..][1..] == controls[i + 1..];
      var pod := Build(T, controls[i].value);
      if pod.Err? {
        return Err(pod.error);
      }
      var head := PackU32Pair(controls[i].offset, controls[i].kind);
      if head.Err? {
        return Err(head.error);
      }
      ghost var rest := BuildControls(T, controls[i + 1..]);
      if rest.Ok? {
        assert chunks + (head.value + pod.value + rest.value) == chunks + head.value + pod.value + rest.value;
      }
      chunks := chunks + head.value + pod.value;
    }
    AppendChunksEnds(chunks, Ok([]));
    assert controls[|controls|..] == [];
    r := Ok(chunks);
  }

  lemma PropertyStep(T: Tables, objectId: int, properties: Dict<Key, Value>,
                     flags: map<Key, int>, keys: map<Str, int>, done: Bytes)
    requires properties != []
    ensures var all := AppendChunks(done, BuildProperties(T, objectId, properties, flags, keys));
      var prepared := PrepareProperty(T, objectId, properties[0], keys);
      if prepared.Err? then all == Err(prepared.error)
      else
        var pod := BuildAs(T, prepared.value.1, prepared.value.2);
        var head := PackU32Pair(prepared.value.0, FlagsOf(flags, properties[0].0));
        all == (if pod.Err? then Err(pod.error) else if head.Err? then Err(head.error)
                else AppendChunks(done + head.value + pod.value,
                                  BuildProperties(T, objectId, properties[1..], flags, keys)))
  {
    hide BuildAs, PackU32Pair, PrepareProperty, FlagsOf;
    var prepared := PrepareProperty(T, objectId, properties[0], keys);
    if prepared.Ok? {
      var pod := BuildAs(T, prepared.value.1, prepared.value.2);
      var head := PackU32Pair(prepared.value.0, FlagsOf(flags, properties[0].0));
      var rest := BuildProperties(T, objectId, properties[1..], flags, keys);
      if pod.Ok? && head.Ok? && rest.Ok? {
        assert done + (head.value + pod.value + rest.value) == done + head.value + pod.value + rest.value;
      }
    }
  }

  /** The property loop of `_build_object_pod`. */
  method BuildPropertyLoop(T: Tables, objectId: int, properties: Dict<Key, Value>,
                           flags: map<Key, int>, keys: map<Str, int>) returns (r: Result<Bytes, Error>)
    ensures r == BuildProperties(T, objectId, properties, flags, keys)
  {
    hide BuildAs, PackU32Pair, PrepareProperty, FlagsOf, AppendChunks;
    var chunks: Bytes := [];
    AppendChunksEnds(chunks, BuildProperties(T, objectId, properties, flags, keys));
    assert properties[0..] == properties;
    for i := 0 to |properties|
      invariant AppendChunks(chunks, BuildProperties(T, objectId, properties[i..], flags, keys))
             == BuildProperties(T, objectId, properties, flags, keys)
    {
      assert properties[i..][0] == properties[i] && properties[i..][1..] == properties[i + 1..];
      PropertyStep(T, objectId, properties[i..], flags, keys, chunks);
      var prepared := PrepareProperty(T, objectId, properties[i], keys);
      if prepared.Err? {
        return Err(prepared.error);
      }
      var (key, value, ty) := prepared.value;
      var pod := BuildAs(T, value, ty);
      if pod.Err? {
        return Err(pod.error);
      }
      var head := PackU32Pair(key, FlagsOf(flags, properties[i].0));
      if head.Err? {
        return Err(head.error);
      }
      chunks := chunks + head.value + pod.value;
    }
    AppendChunksEnds(chunks, Ok([]));
    assert properties[|properties|..] == [];
    r := Ok(chunks);
  }

  /**
    * On any bytes, an item loop over items of a positive size takes as many as fit and no more,
    * unless one of them fails; a size of zero takes none.
    */
  lemma {:induction false} ItemCount(T: Tables, data: Bytes, current: nat, end: nat, childSize: nat, childType: int)
    requires current <= end <= |data| && FitsU32(childSize) && FitsU32(childType)
    ensures var items := ParseItems(T, data, current, end, childSize, childType);
      items.Ok? ==>
        if childSize == 0 then items.value == []
        else |items.value| * childSize <= end - current < (|items.value| + 1) * childSize
    decreases end - current
  {
    hide ParseBody;
    if childSize > 0 && current + childSize <= end {
      ItemCount(T, data, current + childSize, end, childSize, childType);
      var rest := ParseItems(T, data, current + childSize, end, childSize, childType);
      if rest.Ok? {
        var n := |rest.value|;
        assert (n + 1) * childSize == n * childSize + childSize;
        assert (n + 2) * childSize == (n + 1) * childSize + childSize;
      }
    }
  }

  /** The array and choice loops on any bytes: the floor of the room over the item size, or nothing. */
  lemma {:induction false} ArrayAndChoiceCounts(T: Tables, data: Bytes, o: nat, size: nat)
    requires o + size <= |data|
    ensures var r := ParseArray(T, data, o, size);
      size >= 8 && r.Ok? ==>
        var c := U32At(data, o);
        |r.value.items| == if c == 0 then 0 else (size - 8) / c
    ensures var r := ParseChoice(T, data, o, size);
      size >= 16 && r.Ok? ==>
        var c := U32At(data, o + 8);
        |r.value.items| == if c == 0 then 0 else (size - 16) / c
  {
    hide ParseItems;
    if size >= 8 {
      ItemCount(T, data, o + 8, o + size, U32At(data, o), U32At(data, o + 4));
      if U32At(data, o) > 0 && ParseArray(T, data, o, size).Ok? {
        FloorIs(size - 8, U32At(data, o), |ParseArray(T, data, o, size).value.items|);
      }
    }
    if size >= 16 {
      ItemCount(T, data, o + 16, o + size, U32At(data, o + 8), U32At(data, o + 12));
      if U32At(data, o + 8) > 0 && ParseChoice(T, data, o, size).Ok? {
        FloorIs(size - 16, U32At(data, o + 8), |ParseChoice(T, data, o, size).value.items|);
      }
    }
  }

  lemma Multiples(a: nat, b: nat, c: nat)
    requires a <= b
    ensures a * c <= b * c
  {
    assert (b - a) * c >= 0;
  }

  lemma FloorIs(room: nat, c: nat, n: nat)
    requires c > 0 && n * c <= room < (n + 1) * c
    ensures room / c == n
  {
    var q := room / c;
    assert q * c <= room < (q + 1) * c;
    if q < n { Multiples(q + 1, n, c); assert false; }
    if n < q { Multiples(n + 1, q, c); assert false; }
  }

  /**
    * Where the nested pods of a body start, for any bytes: `skip` is zero for a struct, and eight for
    * an object or a sequence, whose pods follow two words each.
    */
  function Frames(data: Bytes, current: nat, end: nat, skip: nat): seq<nat>
    requires current <= end <= |data|
    decreases end - current
  {
    if current + skip + 8 > end || current + skip + Align8(8 + U32At(data, current + skip)) > end then []
    else
      [current + skip]
      + Frames(data, current + skip + Align8(8 + U32At(data, current + skip)), end, skip)
  }

  /** A pod at `f`, header and declared body, lies in the container and is smaller than it. */
  predicate Inside(data: Bytes, f: nat, current: nat, end: int) {
    && current <= f && f + 8 <= end <= |data|
    && f + 8 + U32At(data, f) <= end
    && U32At(data, f) + 8 <= end - current
  }

  /** The pods lie in the container one after the other, each before the words of the next. */
  ghost predicate Nested(data: Bytes, fs: seq<nat>, current: nat, end: nat, skip: nat) {
    && (forall i :: 0 <= i < |fs| ==> current + skip <= fs[i] && Inside(data, fs[i], current, end))
    && (forall i, j :: 0 <= i < j < |fs| ==> Inside(data, fs[i], current, fs[j] - skip))
  }

  lemma {:induction false} FramesInside(data: Bytes, current: nat, end: nat, skip: nat)
    requires current <= end <= |data|
    ensures Nested(data, Frames(data, current, end, skip), current, end, skip)
    decreases end - current
  {
    if !(current + skip + 8 > end || current + skip + Align8(8 + U32At(data, current + skip)) > end) {
      var next := current + skip + Align8(8 + U32At(data, current + skip));
      FramesInside(data, next, end, skip);
      NestedCons(data, Frames(data, next, end, skip), current, next, end, skip);
    }
  }

  /** A body's first pod, and the pods of the rest of it. */
  lemma {:induction false} NestedCons(data: Bytes, rest: seq<nat>, current: nat, next: nat, end: nat, skip: nat)
    requires current + skip + 8 <= next <= end <= |data|
    requires current + skip + 8 + U32At(data, current + skip) <= next
    requires Nested(data, rest, next, end, skip)
    ensures Nested(data, [current + skip] + rest, current, end, skip)
  {
    var fs := [current + skip] + rest;
    forall i | 0 <= i < |fs|
      ensures current + skip <= fs[i] && Inside(data, fs[i], current, end)
    {
      if i > 0 { assert Inside(data, rest[i - 1], next, end); }
    }
    forall i, j | 0 <= i < j < |fs|
      ensures Inside(data, fs[i], current, fs[j] - skip)
    {
      assert Inside(data, rest[j - 1], next, end);
      if i > 0 { assert Inside(data, rest[i - 1], next, rest[j - 1] - skip); }
    }
  }

  /** The pod at `f` is what its declared body parses to. */
  predicate FrameParsed(T: Tables, data: Bytes, f: nat, end: nat, v: Value) {
    && f + 8 <= end <= |data| && f + 8 + U32At(data, f) <= end
    && ParseBody(T, data, f + 8, U32At(data, f), U32At(data, f + 4)) == Ok(v)
  }

  lemma {:induction false} PodsFollowFrames(T: Tables, data: Bytes, current: nat, end: nat)
    requires current <= end <= |data|
    ensures var fs, r := Frames(data, current, end, 0), ParsePods(T, data, current, end);
      r.Ok? ==>
        && |r.value| == |fs|
        && forall i :: 0 <= i < |fs| ==> FrameParsed(T, data, fs[i], end, r.value[i])
    decreases end - current
  {
    hide ParseBody;
    if current + 8 <= end && current + Align8(8 + U32At(data, current)) <= end {
      var next := current + Align8(8 + U32At(data, current));
      PodsFollowFrames(T, data, next, end);
      var fs, rest := Frames(data, current, end, 0), Frames(data, next, end, 0);
      assert fs == [current] + rest;
      var r := ParsePods(T, data, current, end);
      if r.Ok? {
        assert FrameParsed(T, data, fs[0], end, r.value[0]);
        assert forall i :: 0 < i < |fs| ==> fs[i] == rest[i - 1] && r.value[i] == ParsePods(T, data, next, end).value[i - 1];
      }
    }
  }

  /**
    * On any bytes the struct loop advances: the pods it parses lie inside the body one after the
    * other, each smaller than the body, and the items are what each parses to.
    */
  lemma {:induction false} PodsLieInside(T: Tables, data: Bytes, o: nat, size: nat)
    requires o + size <= |data|
    ensures var fs, r := Frames(data, o, o + size, 0), ParseStruct(T, data, o, size);
      && Nested(data, fs, o, o + size, 0)
      && (r.Ok? ==>
           && r.value.VStruct? && |r.value.items| == |fs|
           && forall i :: 0 <= i < |fs| ==> FrameParsed(T, data, fs[i], o + size, r.value.items[i]))
  {
    FramesInside(data, o, o + size, 0);
    PodsFollowFrames(T, data, o, o + size);
    hide Frames, ParsePods, FrameParsed, Nested;
  }

  /** The control at `f` carries the two words before its pod and what the pod parses to. */
  predicate ControlParsed(T: Tables, data: Bytes, f: nat, end: nat, c: Control) {
    && 8 <= f && FrameParsed(T, data, f, end, c.value)
    && c.offset == U32At(data, f - 8) && c.kind == U32At(data, f - 4)
  }

  lemma {:induction false} ControlsFollowFrames(T: Tables, data: Bytes, current: nat, end: nat)
    requires current <= end <= |data|
    ensures var fs, r := Frames(data, current, end, 8), ParseControls(T, data, current, end);
      r.Ok? ==>
        && |r.value| == |fs|
        && forall i :: 0 <= i < |fs| ==> ControlParsed(T, data, fs[i], end, r.value[i])
    decreases end - current
  {
    hide ParseBody;
    if current + 16 <= end && current + 8 + Align8(8 + U32At(data, current + 8)) <= end {
      var next := current + 8 + Align8(8 + U32At(data, current + 8));
      ControlsFollowFrames(T, data, next, end);
      var fs, rest := Frames(data, current, end, 8), Frames(data, next, end, 8);
      assert fs == [current + 8] + rest;
      var r := ParseControls(T, data, current, end);
      if r.Ok? {
        assert ControlParsed(T, data, fs[0], end, r.value[0]);
        assert forall i :: 0 < i < |fs| ==> fs[i] == rest[i - 1] && r.value[i] == ParseControls(T, data, next, end).value[i - 1];
      }
    }
  }

  /** The same of a sequence's controls. */
  lemma {:induction false} ControlsLieInside(T: Tables, data: Bytes, o: nat, size: nat)
    requires 8 <= size && o + size <= |data|
    ensures var fs, r := Frames(data, o + 8, o + size, 8), ParseSequence(T, data, o, size);
      && Nested(data, fs, o + 8, o + size, 8)
      && (r.Ok? ==>
           && r.value.VSequence? && |r.value.controls| == |fs|
           && forall i :: 0 <= i < |fs| ==> ControlParsed(T, data, fs[i], o + size, r.value.controls[i]))
  {
    FramesInside(data, o + 8, o + size, 8);
    ControlsFollowFrames(T, data, o + 8, o + size);
    hide Frames, ParseControls, ControlParsed, Nested;
  }

  /** The property at `f` carries the two words before its pod, and shows what the pod parses to. */
  ghost predicate PropertyParsed(T: Tables, objectId: int, data: Bytes, f: nat, end: nat, p: Property) {
    && 8 <= f && f + 8 <= end <= |data|
    && p.key == U32At(data, f - 8) && p.flags == U32At(data, f - 4)
    && exists pod :: FrameParsed(T, data, f, end, pod) && Specialize(SpecByKey(T, objectId, p.key), pod) == Ok(p.value)
  }

  lemma {:induction false} PropertiesFollowFrames(T: Tables, objectId: int, data: Bytes, current: nat, end: nat)
    requires current <= end <= |data|
    ensures var fs, r := Frames(data, current, end, 8), ParseProperties(T, objectId, data, current, end);
      r.Ok? ==>
        && |r.value| == |fs|
        && forall i :: 0 <= i < |fs| ==> PropertyParsed(T, objectId, data, fs[i], end, r.value[i])
    decreases end - current
  {
    hide ParseBody, Specialize, SpecByKey;
    if current + 16 <= end && current + 8 + Align8(8 + U32At(data, current + 8)) <= end {
      var next := current + 8 + Align8(8 + U32At(data, current + 8));
      PropertiesFollowFrames(T, objectId, data, next, end);
      var fs, rest := Frames(data, current, end, 8), Frames(data, next, end, 8);
      assert fs == [current + 8] + rest;
      var r := ParseProperties(T, objectId, data, current, end);
      if r.Ok? {
        var pod := ParseBody(T, data, current + 16, U32At(data, current + 8), U32At(data, current + 12)).value;
        assert FrameParsed(T, data, fs[0], end, pod);
        assert PropertyParsed(T, objectId, data, fs[0], end, r.value[0]);
        hide PropertyParsed, FrameParsed;
        assert forall i :: 0 < i < |fs| ==>
          fs[i] == rest[i - 1] && r.value[i] == ParseProperties(T, objectId, data, next, end).value[i - 1];
      }
    }
  }

  /** The same of an object's properties; the object is assembled from them in this order. */
  lemma {:induction false} PropertiesLieInside(T: Tables, data: Bytes, o: nat, size: nat) returns (ps: seq<Property>)
    requires 8 <= size && o + size <= |data|
    ensures var fs := Frames(data, o + 8, o + size, 8);
      var r := ParseObject(T, data, o, size);
      && Nested(data, fs, o + 8, o + size, 8)
      && (r.Ok? ==>
           && r.value == Assemble(T, U32At(data, o), U32At(data, o + 4), ps) && |ps| == |fs|
           && forall i :: 0 <= i < |fs| ==> PropertyParsed(T, U32At(data, o + 4), data, fs[i], o + size, ps[i]))
  {
    FramesInside(data, o + 8, o + size, 8);
    PropertiesFollowFrames(T, U32At(data, o + 4), data, o + 8, o + size);
    hide Frames, ParseProperties, PropertyParsed, Nested, Assemble, U32At;
    var parsed := ParseProperties(T, U32At(data, o + 4), data, o + 8, o + size);
    ps := if parsed.Ok? then parsed.value else [];
  }

  /** An embedded pod lies inside the body that embeds it and is smaller than it. */
  lemma EmbeddedLiesInside(T: Tables, data: Bytes, o: nat, size: nat)
    requires 8 <= size && o + size <= |data|
    ensures var r := ParseEmbedded(T, data, o, size);
      r.Ok? ==> r.value.VPod? && Inside(data, o, o, o + size) && FrameParsed(T, data, o, o + size, r.value.pod)
  {
    hide ParseBody;
  }

  /** The i-th item window of an array or choice is inside the room, and its bytes alone are parsed. */
  predicate WindowParsed(T: Tables, data: Bytes, at: nat, end: nat, childSize: nat, childType: int, v: Value)
    requires FitsU32(childSize) && FitsU32(childType)
  {
    && at + childSize <= end <= |data|
    && ParseBody(T, U32(childSize) + U32(childType) + data[at..at + childSize], 8, childSize, childType) == Ok(v)
  }

  lemma {:induction false} WindowsLieInside(
    T: Tables, data: Bytes, current: nat, end: nat, childSize: nat, childType: int, i: nat)
    requires current <= end <= |data| && FitsU32(childSize) && FitsU32(childType)
    requires ParseItems(T, data, current, end, childSize, childType).Ok?
    requires i < |ParseItems(T, data, current, end, childSize, childType).value|
    ensures i * childSize >= 0
    ensures WindowParsed(T, data, current + i * childSize, end, childSize, childType,
                         ParseItems(T, data, current, end, childSize, childType).value[i])
    decreases end - current
  {
    hide ParseBody, U32;
    if i > 0 {
      WindowsLieInside(T, data, current + childSize, end, childSize, childType, i - 1);
      assert i * childSize == childSize + (i - 1) * childSize;
    }
  }

  /** The items of an array are parsed from successive windows, each smaller than the body. */
  lemma {:induction false} ItemsLieInside(T: Tables, data: Bytes, o: nat, size: nat, i: nat)
    requires o + size <= |data| && size >= 8
    requires ParseArray(T, data, o, size).Ok? && i < |ParseArray(T, data, o, size).value.items|
    ensures var c := U32At(data, o);
      && i * c >= 0 && c + 8 <= size
      && WindowParsed(T, data, o + 8 + i * c, o + size, c, U32At(data, o + 4), ParseArray(T, data, o, size).value.items[i])
  {
    hide ParseItems, ParseBody, U32;
    WindowsLieInside(T, data, o + 8, o + size, U32At(data, o), U32At(data, o + 4), i);
    WindowFits(T, data, o + 8, o + size, U32At(data, o), U32At(data, o + 4));
  }

  /** The same of a choice. */
  lemma {:induction false} AlternativesLieInside(T: Tables, data: Bytes, o: nat, size: nat, i: nat)
    requires o + size <= |data| && size >= 16
    requires ParseChoice(T, data, o, size).Ok? && i < |ParseChoice(T, data, o, size).value.items|
    ensures var c := U32At(data, o + 8);
      && i * c >= 0 && c + 16 <= size
      && WindowParsed(T, data, o + 16 + i * c, o + size, c, U32At(data, o + 12), ParseChoice(T, data, o, size).value.items[i])
  {
    hide ParseItems, ParseBody, U32;
    WindowsLieInside(T, data, o + 16, o + size, U32At(data, o + 8), U32At(data, o + 12), i);
    WindowFits(T, data, o + 16, o + size, U32At(data, o + 8), U32At(data, o + 12));
  }

  lemma WindowFits(T: Tables, data: Bytes, current: nat, end: nat, childSize: nat, childType: int)
    requires current <= end <= |data| && FitsU32(childSize) && FitsU32(childType)
    requires ParseItems(T, data, current, end, childSize, childType).Ok?
    requires ParseItems(T, data, current, end, childSize, childType).value != []
    ensures current + childSize <= end
  {
  }
}
