/** The bytes of every pod: header, numbers digit by digit, padding, and where nested pods stand. */
module PodLayout {
  import opened Wrappers
  import opened Wire
  import opened PodValues
  import opened PodShapes
  import opened PodCodec

  // ----- how numbers and pods stand in bytes -----

  function At(p: Bytes, i: nat): int
    requires i < |p|
  {
    p[i]
  }

  /** Four bytes, the least significant first. */
  predicate Word(p: Bytes, at: nat, n: int) {
    && at + 4 <= |p|
    && At(p, at) + 256 * At(p, at + 1) + 65536 * At(p, at + 2) + 16777216 * At(p, at + 3) == n
  }

  /** Eight bytes, the least significant first. */
  predicate LongWord(p: Bytes, at: nat, n: int) {
    && at + 8 <= |p|
    && At(p, at) + 256 * At(p, at + 1) + 65536 * At(p, at + 2) + 16777216 * At(p, at + 3)
       + 4294967296 * (At(p, at + 4) + 256 * At(p, at + 5) + 65536 * At(p, at + 6) + 16777216 * At(p, at + 7)) == n
  }

  /** One pod: the size of its body, its type, the body, and zeros up to a multiple of eight. */
  predicate Frame(p: Bytes, ty: int, size: nat) {
    && |p| % 8 == 0 && 8 + size <= |p| < 16 + size
    && Word(p, 0, size) && Word(p, 4, ty)
    && forall i :: 8 + size <= i < |p| ==> p[i] == 0
  }

  predicate Framed(r: Result<Bytes, Error>, ty: int, size: nat) { r.Ok? && Frame(r.value, ty, size) }

  /** The body of a pod. */
  function Body(p: Bytes, size: nat): Bytes
    requires 8 + size <= |p|
  {
    p[8..8 + size]
  }

  lemma {:induction false} WordOf(p: Bytes, at: nat, n: int)
    requires FitsU32(n) && at + 4 <= |p| && p[at..at + 4] == U32(n)
    ensures Word(p, at, n)
  {
    var word := p[at..at + 4];
    assert word[0] == p[at] && word[1] == p[at + 1] && word[2] == p[at + 2] && word[3] == p[at + 3];
    Digits(n);
  }

  lemma {:induction false} LongWordOf(p: Bytes, at: nat, n: int)
    requires FitsU64(n) && at + 8 <= |p| && p[at..at + 8] == U64(n)
    ensures LongWord(p, at, n)
  {
    var low, high := n % U32_LIMIT, n / U32_LIMIT;
    assert p[at..at + 4] == p[at..at + 8][..4] == U32(low);
    assert p[at + 4..at + 8] == p[at..at + 8][4..] == U32(high);
    hide U64, U32;
    WordOf(p, at, low);
    WordOf(p, at + 4, high);
  }

  /** A pod is its frame around its body. */
  lemma {:induction false} PackFrames(ty: int, body: Bytes)
    requires FitsU32(ty)
    ensures PackPod(ty, body).Ok? <==> FitsU32(|body|)
    ensures var r := PackPod(ty, body);
      r.Ok? ==> Frame(r.value, ty, |body|) && Body(r.value, |body|) == body
  {
    if FitsU32(|body|) {
      var p := PackPod(ty, body).value;
      var header := U32(|body|) + U32(ty);
      assert p == header + body + Zeros(Align8(8 + |body|) - (8 + |body|));
      assert p[0..4] == U32(|body|) && p[4..8] == U32(ty);
      hide U32;
      WordOf(p, 0, |body|);
      WordOf(p, 4, ty);
    }
  }

  // ----- plain values -----

  /** A pod of a given type without nested pods. */
  lemma {:induction false} TypedFrames(T: Tables, v: Value, ty: int, body: Bytes)
    requires !IsContainer(ty) && FitsU32(ty) && BuildLeaf(v, ty) == Ok(body)
    ensures var r := BuildAs(T, v, ty);
      if |body| < 0x1_0000_0000 then Framed(r, ty, |body|) && Body(r.value, |body|) == body else r == Err(StructError)
  {
    PackFrames(ty, body);
    hide BuildLeaf, IsContainer;
    assert BuildBody(T, v, ty) == BuildLeaf(v, ty);
    hide BuildBody;
    assert BuildAs(T, v, ty) == PackPod(ty, body);
    if |body| >= 0x1_0000_0000 { assert PackPod(ty, body) == Err(StructError); }
  }

  lemma {:induction false} LeafFrames(T: Tables, v: Value, ty: int, body: Bytes)
    requires InferType(v) == Ok(ty) && !IsContainer(ty) && FitsU32(ty) && BuildLeaf(v, ty) == Ok(body)
    ensures var r := Build(T, v);
      if |body| < 0x1_0000_0000 then Framed(r, ty, |body|) && Body(r.value, |body|) == body else r == Err(StructError)
  {
    TypedFrames(T, v, ty, body);
    hide InferType, BuildLeaf, IsContainer, BuildAs, Frame, Body;
  }

  lemma {:induction false} LeafFails(T: Tables, v: Value, ty: int)
    requires InferType(v) == Ok(ty) && !IsContainer(ty) && BuildLeaf(v, ty) == Err(StructError)
    ensures Build(T, v) == Err(StructError)
  {
    hide InferType, BuildLeaf;
    assert BuildBody(T, v, ty) == BuildLeaf(v, ty);
  }

  lemma {:induction false} SliceOfBody(p: Bytes, size: nat, at: nat, n: nat)
    requires 8 + size <= |p| && at + n <= size
    ensures p[8 + at..8 + at + n] == Body(p, size)[at..at + n]
  {
    var left, right := p[8 + at..8 + at + n], Body(p, size)[at..at + n];
    assert |left| == |right| && forall i :: 0 <= i < n ==> left[i] == right[i];
  }

  lemma {:induction false} WordInBody(p: Bytes, size: nat, at: nat, n: int)
    requires FitsU32(n) && 8 + size <= |p| && at + 4 <= size && Body(p, size)[at..at + 4] == U32(n)
    ensures Word(p, 8 + at, n)
  {
    SliceOfBody(p, size, at, 4);
    WordOf(p, 8 + at, n);
  }

  lemma {:induction false} LongWordInBody(p: Bytes, size: nat, at: nat, n: int)
    requires FitsU64(n) && 8 + size <= |p| && at + 8 <= size && Body(p, size)[at..at + 8] == U64(n)
    ensures LongWord(p, 8 + at, n)
  {
    SliceOfBody(p, size, at, 8);
    LongWordOf(p, 8 + at, n);
  }

  lemma {:induction false} EmptyAndBooleans(T: Tables, b: bool)
    ensures Framed(Build(T, VNone), 1, 0)
    ensures Framed(Build(T, VBool(b)), 2, 4) && Word(Build(T, VBool(b)).value, 8, if b then 1 else 0)
  {
    var n := if b then 1 else 0;
    LeafFrames(T, VNone, 1, []);
    LeafFrames(T, VBool(b), 2, U32(n));
    hide Build, U32;
    assert U32(n)[0..4] == U32(n);
    WordInBody(Build(T, VBool(b)).value, 4, 0, n);
  }

  lemma {:induction false} SmallIntegers(T: Tables, i: int)
    requires -0x8000_0000 <= i < 0x8000_0000
    ensures var r := Build(T, VInt(i));
      Framed(r, 4, 4) && Word(r.value, 8, if i < 0 then i + 0x1_0000_0000 else i)
  {
    hide U32;
    var n := Wrap(i, U32_LIMIT);
    LeafFrames(T, VInt(i), 4, U32(n));
    assert U32(n)[0..4] == U32(n);
    hide Build;
    WordInBody(Build(T, VInt(i)).value, 4, 0, n);
  }

  lemma {:induction false} LargeIntegers(T: Tables, i: int)
    requires !(-0x8000_0000 <= i < 0x8000_0000)
    ensures var r := Build(T, VInt(i));
      if -0x8000_0000_0000_0000 <= i < 0x8000_0000_0000_0000 then
        Framed(r, 5, 8) && LongWord(r.value, 8, if i < 0 then i + 0x1_0000_0000_0000_0000 else i)
      else r == Err(StructError)
  {
    hide U64;
    if FitsI64(i) {
      var n := Wrap(i, U64_LIMIT);
      LeafFrames(T, VInt(i), 5, U64(n));
      assert U64(n)[0..8] == U64(n);
      hide Build;
      LongWordInBody(Build(T, VInt(i)).value, 8, 0, n);
    } else {
      LeafFails(T, VInt(i), 5);
    }
  }

  /** Integers: four bytes if the number fits, else eight, in two's complement; enum members unsigned. */
  lemma {:induction false} Integers(T: Tables, i: int)
    ensures var r := Build(T, VInt(i));
      if -0x8000_0000 <= i < 0x8000_0000 then
        Framed(r, 4, 4) && Word(r.value, 8, if i < 0 then i + 0x1_0000_0000 else i)
      else if -0x8000_0000_0000_0000 <= i < 0x8000_0000_0000_0000 then
        Framed(r, 5, 8) && LongWord(r.value, 8, if i < 0 then i + 0x1_0000_0000_0000_0000 else i)
      else r == Err(StructError)
    ensures var r := Build(T, VEnum(i));
      if 0 <= i < 0x1_0000_0000 then Framed(r, 3, 4) && Word(r.value, 8, i) else r == Err(StructError)
  {
    if -0x8000_0000 <= i < 0x8000_0000 { SmallIntegers(T, i); } else { LargeIntegers(T, i); }
    hide U32;
    if FitsU32(i) {
      LeafFrames(T, VEnum(i), 3, U32(i));
      assert U32(i)[0..4] == U32(i);
      hide Build;
      WordInBody(Build(T, VEnum(i)).value, 4, 0, i);
    } else {
      LeafFails(T, VEnum(i), 3);
    }
  }

  lemma {:induction false} Floats(T: Tables, bits: int)
    ensures var r := Build(T, VFloat(Single(bits)));
      if 0 <= bits < 0x1_0000_0000 then Framed(r, 6, 4) && Word(r.value, 8, bits) else r == Err(StructError)
  {
    hide U32;
    if FitsU32(bits) {
      LeafFrames(T, VFloat(Single(bits)), 6, U32(bits));
      assert U32(bits)[0..4] == U32(bits);
      hide Build;
      WordInBody(Build(T, VFloat(Single(bits))).value, 4, 0, bits);
    } else {
      LeafFails(T, VFloat(Single(bits)), 6);
    }
  }

  /** Strings end with a NUL; bytes and bitmaps are written as they are. */
  lemma {:induction false} StringsAndBytes(T: Tables, s: Bytes)
    ensures var r := Build(T, VStr(s));
      if |s| + 1 < 0x1_0000_0000 then Framed(r, 8, |s| + 1) && Body(r.value, |s| + 1) == s + [0] else r == Err(StructError)
    ensures var r := Build(T, VBytes(s));
      if |s| < 0x1_0000_0000 then Framed(r, 9, |s|) && Body(r.value, |s|) == s else r == Err(StructError)
    ensures var r := Build(T, VBitmap(s));
      if |s| < 0x1_0000_0000 then Framed(r, 12, |s|) && Body(r.value, |s|) == s else r == Err(StructError)
  {
    hide Frame, Body;
    LeafFrames(T, VStr(s), 8, s + [0]);
    LeafFrames(T, VBytes(s), 9, s);
    LeafFrames(T, VBitmap(s), 12, s);
    hide Build;
  }

  predicate Unsigned(n: int) { 0 <= n < 0x1_0000_0000 }

  /** Width before height, numerator before denominator, a pointer's type before its address. */
  lemma {:induction false} Pairs(T: Tables, a: int, b: int)
    ensures var r := Build(T, VRectangle(a, b));
      if Unsigned(a) && Unsigned(b) then Framed(r, 10, 8) && Word(r.value, 8, a) && Word(r.value, 12, b)
      else r == Err(StructError)
    ensures var r := Build(T, VFraction(a, b));
      if Unsigned(a) && Unsigned(b) then Framed(r, 11, 8) && Word(r.value, 8, a) && Word(r.value, 12, b)
      else r == Err(StructError)
  {
    hide U32;
    if Unsigned(a) && Unsigned(b) {
      var body := U32(a) + U32(b);
      LeafFrames(T, VRectangle(a, b), 10, body);
      LeafFrames(T, VFraction(a, b), 11, body);
      assert body[0..4] == U32(a) && body[4..8] == U32(b);
      hide Build;
      WordInBody(Build(T, VRectangle(a, b)).value, 8, 0, a);
      WordInBody(Build(T, VRectangle(a, b)).value, 8, 4, b);
      WordInBody(Build(T, VFraction(a, b)).value, 8, 0, a);
      WordInBody(Build(T, VFraction(a, b)).value, 8, 4, b);
    } else {
      LeafFails(T, VRectangle(a, b), 10);
      LeafFails(T, VFraction(a, b), 11);
    }
  }

  lemma {:induction false} Pointers(T: Tables, ty: int, address: int)
    ensures var r := Build(T, VPointer(ty, address));
      if Unsigned(ty) && 0 <= address < 0x1_0000_0000_0000_0000 then
        Framed(r, 17, 16) && Word(r.value, 8, ty) && Word(r.value, 12, 0) && LongWord(r.value, 16, address)
      else r == Err(StructError)
  {
    hide U32, U64;
    if Unsigned(ty) && FitsU64(address) {
      var body := U32(ty) + U32(0) + U64(address);
      LeafFrames(T, VPointer(ty, address), 17, body);
      assert body[0..4] == U32(ty) && body[4..8] == U32(0) && body[8..16] == U64(address);
      hide Build;
      var p := Build(T, VPointer(ty, address)).value;
      WordInBody(p, 16, 0, ty);
      WordInBody(p, 16, 4, 0);
      LongWordInBody(p, 16, 8, address);
    } else {
      LeafFails(T, VPointer(ty, address), 17);
    }
  }

  /** An integer written with a given type: Bool 2, Id 3, Int 4. */
  lemma {:induction false} TypedWords(T: Tables, i: int)
    ensures Framed(BuildAs(T, VInt(i), 2), 2, 4) && Word(BuildAs(T, VInt(i), 2).value, 8, if i != 0 then 1 else 0)
    ensures 0 <= i < 0x1_0000_0000 ==> Framed(BuildAs(T, VInt(i), 3), 3, 4) && Word(BuildAs(T, VInt(i), 3).value, 8, i)
    ensures var n := if i < 0 then i + 0x1_0000_0000 else i;
      -0x8000_0000 <= i < 0x8000_0000 ==> Framed(BuildAs(T, VInt(i), 4), 4, 4) && Word(BuildAs(T, VInt(i), 4).value, 8, n)
  {
    hide BuildAs, Frame, Word, U32;
    TypedWord(T, VInt(i), 2, if i != 0 then 1 else 0);
    if FitsU32(i) { TypedWord(T, VInt(i), 3, i); }
    if FitsI32(i) { TypedWord(T, VInt(i), 4, Wrap(i, U32_LIMIT)); }
  }

  /** Long 5 and Fd 18 take eight bytes, and so does a double, 7. */
  lemma {:induction false} TypedLongs(T: Tables, i: int)
    ensures var n := if i < 0 then i + 0x1_0000_0000_0000_0000 else i;
      -0x8000_0000_0000_0000 <= i < 0x8000_0000_0000_0000 ==>
        && Framed(BuildAs(T, VInt(i), 5), 5, 8) && LongWord(BuildAs(T, VInt(i), 5).value, 8, n)
        && Framed(BuildAs(T, VInt(i), 18), 18, 8) && LongWord(BuildAs(T, VInt(i), 18).value, 8, n)
    ensures var r := BuildAs(T, VFloat(Double(i)), 7);
      0 <= i < 0x1_0000_0000_0000_0000 ==> Framed(r, 7, 8) && LongWord(r.value, 8, i)
  {
    hide BuildAs, Frame, LongWord, U64;
    if FitsI64(i) {
      TypedLong(T, VInt(i), 5, Wrap(i, U64_LIMIT));
      TypedLong(T, VInt(i), 18, Wrap(i, U64_LIMIT));
    }
    if FitsU64(i) { TypedLong(T, VFloat(Double(i)), 7, i); }
  }

  lemma {:induction false} TypedWord(T: Tables, v: Value, ty: int, n: int)
    requires !IsContainer(ty) && FitsU32(ty) && FitsU32(n) && BuildLeaf(v, ty) == Ok(U32(n))
    ensures Framed(BuildAs(T, v, ty), ty, 4) && Word(BuildAs(T, v, ty).value, 8, n)
  {
    TypedFrames(T, v, ty, U32(n));
    assert U32(n)[0..4] == U32(n);
    hide BuildAs, BuildLeaf, U32;
    WordInBody(BuildAs(T, v, ty).value, 4, 0, n);
  }

  lemma {:induction false} TypedLong(T: Tables, v: Value, ty: int, n: int)
    requires !IsContainer(ty) && FitsU32(ty) && FitsU64(n) && BuildLeaf(v, ty) == Ok(U64(n))
    ensures Framed(BuildAs(T, v, ty), ty, 8) && LongWord(BuildAs(T, v, ty).value, 8, n)
  {
    TypedFrames(T, v, ty, U64(n));
    assert U64(n)[0..8] == U64(n);
    hide BuildAs, BuildLeaf, U64;
    LongWordInBody(BuildAs(T, v, ty).value, 8, 0, n);
  }

  // ----- containers -----

  /** A pod whose body holds others. */
  lemma {:induction false} ContainerFrames(T: Tables, v: Value, ty: int, body: Bytes)
    requires InferType(v) == Ok(ty) && FitsU32(ty) && BuildBody(T, v, ty) == Ok(body) && Build(T, v).Ok?
    ensures |body| < 0x1_0000_0000 && Framed(Build(T, v), ty, |body|) && Body(Build(T, v).value, |body|) == body
  {
    PackFrames(ty, body);
    hide InferType, BuildBody;
    assert Build(T, v) == PackPod(ty, body);
  }

  /** Pods one after the other, each as it is built alone. */
  ghost predicate Pods(T: Tables, items: seq<Value>, b: Bytes)
    decreases |items|
  {
    if items == [] then b == []
    else
      && Build(T, items[0]).Ok? && Build(T, items[0]).value <= b
      && Pods(T, items[1..], b[|Build(T, items[0]).value|..])
  }

  lemma {:induction false} BuiltPods(T: Tables, items: seq<Value>)
    requires BuildPods(T, items).Ok?
    ensures Pods(T, items, BuildPods(T, items).value)
    decreases |items|
  {
    hide Build;
    if items != [] {
      BuiltPods(T, items[1..]);
      var head, tail := Build(T, items[0]).value, BuildPods(T, items[1..]).value;
      assert (head + tail)[|head|..] == tail;
    }
  }

  lemma {:induction false} StructBody(T: Tables, items: seq<Value>)
    ensures BuildBody(T, VStruct(items), 14) == BuildPods(T, items) && InferType(VStruct(items)) == Ok(14)
    ensures Build(T, VStruct(items)).Ok? ==> BuildPods(T, items).Ok?
    ensures Build(T, VList(items)) == Build(T, VStruct(items))
  {
    hide BuildPods, PackPod;
    assert BuildBody(T, VStruct(items), 14) == BuildStruct(T, VStruct(items));
    assert BuildBody(T, VList(items), 14) == BuildStruct(T, VList(items));
    assert Build(T, VList(items)) == BuildAs(T, VList(items), 14);
    assert Build(T, VStruct(items)) == BuildAs(T, VStruct(items), 14);
  }

  /** Structs and plain lists are type 14, and hold their items' pods in order. */
  lemma {:induction false} StructPods(T: Tables, items: seq<Value>)
    ensures var r := Build(T, VStruct(items));
      r.Ok? ==> exists size: nat :: Frame(r.value, 14, size) && Pods(T, items, Body(r.value, size))
    ensures Build(T, VList(items)) == Build(T, VStruct(items))
  {
    StructBody(T, items);
    if Build(T, VStruct(items)).Ok? {
      BuiltPods(T, items);
      hide Pods, BuildPods, Frame, Body, Build, BuildBody;
      ContainerFrames(T, VStruct(items), 14, BuildPods(T, items).value);
    }
  }

  lemma {:induction false} EmbeddedBody(T: Tables, v: Value)
    requires !v.VBytes?
    ensures InferType(VPod(v)) == Ok(20) && BuildBody(T, VPod(v), 20) == Build(T, v)
    ensures Build(T, VPod(v)).Ok? ==> Build(T, v).Ok?
  {
    assert BuildBody(T, VPod(v), 20) == BuildEmbedded(T, VPod(v));
    hide BuildBody, PackPod;
    assert Build(T, VPod(v)) == BuildAs(T, VPod(v), 20);
    if Build(T, v).Err? { assert BuildAs(T, VPod(v), 20).Err?; }
  }

  /** An embedded pod is type 20 around the pod itself. */
  lemma {:induction false} EmbeddedPods(T: Tables, v: Value)
    requires !v.VBytes?
    ensures var r := Build(T, VPod(v));
      r.Ok? ==> Build(T, v).Ok? && Frame(r.value, 20, |Build(T, v).value|) && Body(r.value, |Build(T, v).value|) == Build(T, v).value
  {
    if Build(T, VPod(v)).Ok? {
      EmbeddedBody(T, v);
      hide Frame, Body, Build, BuildBody, InferType;
      ContainerFrames(T, VPod(v), 20, Build(T, v).value);
    }
  }

  /** The items of an array or choice: the bodies of their pods, all of one size. */
  ghost predicate Items(T: Tables, items: seq<Value>, ty: int, size: int, b: Bytes)
    decreases |items|
  {
    if items == [] then b == []
    else
      && 0 <= size <= |b|
      && Framed(BuildAs(T, items[0], ty), ty, size) && b[..size] == Body(BuildAs(T, items[0], ty).value, size)
      && Items(T, items[1..], ty, size, b[size..])
  }

  lemma {:induction false} BuiltItems(T: Tables, items: seq<Value>, ty: int, given: Option<int>)
    requires BuildItems(T, items, ty, given).Ok? && FitsU32(ty)
    ensures var (size, bodies) := BuildItems(T, items, ty, given).value;
      && Items(T, items, ty, size, bodies)
      && (given.Some? ==> size == given.value)
    decreases |items|
  {
    hide BuildBody, Frame, Body;
    if items != [] {
      var body := BuildBody(T, items[0], ty).value;
      BuiltItems(T, items[1..], ty, Some(|body|));
      var (size, rest) := BuildItems(T, items[1..], ty, Some(|body|)).value;
      PackFrames(ty, body);
      assert BuildAs(T, items[0], ty) == PackPod(ty, body);
      hide BuildAs, PackPod;
      assert (body + rest)[..size] == body && (body + rest)[size..] == rest;
    }
  }

  lemma {:induction false} TwoWords(p: Bytes, size: nat, at: nat, a: int, b: int)
    requires FitsU32(a) && FitsU32(b) && 8 + size <= |p| && at + 8 <= size
    requires Body(p, size)[at..at + 8] == U32(a) + U32(b)
    ensures Word(p, 8 + at, a) && Word(p, 12 + at, b)
  {
    var both, body := U32(a) + U32(b), Body(p, size);
    assert both[0..4] == U32(a) && both[4..8] == U32(b);
    hide U32, Body;
    assert body[at..at + 4] == body[at..at + 8][0..4] && body[at + 4..at + 8] == body[at..at + 8][4..8];
    WordInBody(p, size, at, a);
    WordInBody(p, size, at + 4, b);
  }

  /** The size and type that the items are written with: the declared ones, or those of the first item. */
  ghost predicate ItemHead(T: Tables, v: Value, size: nat, ty: nat)
    requires v.VArray? || v.VChoice?
  {
    && (v.childSize.Some? ==> v.childSize == Some(size))
    && (v.childType.Some? ==> v.childType == Some(ty))
    && (v.childType.None? ==> v.items != [] && Build(T, v.items[0]) == BuildAs(T, v.items[0], ty))
    && (v.childSize.None? && v.items == [] ==> size == 0)
  }

  /** Type 13: the size and the type of the items, then their bodies without padding. */
  ghost predicate ArrayLayout(T: Tables, v: Value, p: Bytes, bodies: Bytes, size: nat, ty: nat)
    requires v.VArray?
  {
    && Frame(p, 13, 8 + |bodies|)
    && Word(p, 8, size) && Word(p, 12, ty)
    && p[16..16 + |bodies|] == bodies
    && ItemHead(T, v, size, ty)
    && Items(T, v.items, ty, size, bodies)
  }

  lemma {:induction false} ArrayPods(T: Tables, v: Value)
    requires v.VArray? && Build(T, v).Ok?
    ensures exists bodies: Bytes, size: nat, ty: nat :: ArrayLayout(T, v, Build(T, v).value, bodies, size, ty)
  {
    var ty, size, bodies := ArrayBody(T, v);
    var body := U32(size) + U32(ty) + bodies;
    assert body[0..8] == U32(size) + U32(ty);
    assert |body| == 8 + |bodies| && body[8..8 + |bodies|] == bodies;
    hide U32, Items, Build, BuildBody, Frame, Word, ItemHead;
    ContainerFrames(T, v, 13, body);
    var p := Build(T, v).value;
    assert |p| >= 16 + |bodies| by { FrameLength(p, 13, |body|); }
    TwoWords(p, |body|, 0, size, ty);
    SliceOfBody(p, |body|, 8, |bodies|);
    hide Body;
    assert ArrayLayout(T, v, p, bodies, size, ty);
  }

  lemma FrameLength(p: Bytes, ty: int, size: nat)
    requires Frame(p, ty, size)
    ensures 8 + size <= |p|
  {
  }

  lemma {:induction false} ArrayBody(T: Tables, v: Value) returns (ty: nat, size: nat, bodies: Bytes)
    requires v.VArray? && Build(T, v).Ok?
    ensures FitsU32(size) && FitsU32(ty) && InferType(v) == Ok(13)
    ensures BuildBody(T, v, 13) == Ok(U32(size) + U32(ty) + bodies)
    ensures ItemHead(T, v, size, ty) && Items(T, v.items, ty, size, bodies)
  {
    hide BuildItems, Items, PackPod;
    assert BuildBody(T, v, 13) == BuildArray(T, v);
    var built := BuildItems(T, v.items, ItemType(v).value, v.childSize).value;
    ty, size, bodies := ItemType(v).value, built.0, built.1;
    BuiltItems(T, v.items, ty, v.childSize);
    if v.items == [] { NoItems(T, ty, v.childSize); }
  }

  lemma NoItems(T: Tables, ty: int, given: Option<int>)
    ensures BuildItems(T, [], ty, given) == Ok((if given.Some? then given.value else 0, []))
  {
  }

  /** Type 19: the kind of choice and its flags come before the head of the items. */
  ghost predicate ChoiceLayout(T: Tables, v: Value, p: Bytes, bodies: Bytes, size: nat, ty: nat)
    requires v.VChoice?
  {
    && Frame(p, 19, 16 + |bodies|)
    && Word(p, 8, v.choiceType) && Word(p, 12, v.choiceFlags)
    && Word(p, 16, size) && Word(p, 20, ty)
    && p[24..24 + |bodies|] == bodies
    && ItemHead(T, v, size, ty)
    && Items(T, v.items, ty, size, bodies)
  }

  lemma {:induction false} ChoicePods(T: Tables, v: Value)
    requires v.VChoice? && Build(T, v).Ok?
    ensures exists bodies: Bytes, size: nat, ty: nat :: ChoiceLayout(T, v, Build(T, v).value, bodies, size, ty)
  {
    var ty, size, bodies := ChoiceBody(T, v);
    var body := U32(v.choiceType) + U32(v.choiceFlags) + (U32(size) + U32(ty)) + bodies;
    hide Items, Build, BuildBody, Frame, ItemHead;
    ContainerFrames(T, v, 19, body);
    var p := Build(T, v).value;
    FrameLength(p, 19, |body|);
    ChoiceWords(p, v.choiceType, v.choiceFlags, size, ty, bodies);
    hide U32, Body, Word;
    assert ChoiceLayout(T, v, p, bodies, size, ty);
  }

  lemma {:induction false} ChoiceWords(p: Bytes, kind: int, flags: int, size: int, ty: int, bodies: Bytes)
    requires FitsU32(kind) && FitsU32(flags) && FitsU32(size) && FitsU32(ty)
    requires |p| >= 24 + |bodies|
    requires Body(p, 16 + |bodies|) == U32(kind) + U32(flags) + (U32(size) + U32(ty)) + bodies
    ensures Word(p, 8, kind) && Word(p, 12, flags) && Word(p, 16, size) && Word(p, 20, ty)
    ensures p[24..24 + |bodies|] == bodies
  {
    var body := U32(kind) + U32(flags) + (U32(size) + U32(ty)) + bodies;
    assert body[0..8] == U32(kind) + U32(flags) && body[8..16] == U32(size) + U32(ty);
    assert body[16..16 + |bodies|] == bodies;
    hide U32, Word;
    TwoWords(p, 16 + |bodies|, 0, kind, flags);
    TwoWords(p, 16 + |bodies|, 8, size, ty);
    SliceOfBody(p, 16 + |bodies|, 16, |bodies|);
  }

  lemma {:induction false} ChoiceBody(T: Tables, v: Value) returns (ty: nat, size: nat, bodies: Bytes)
    requires v.VChoice? && Build(T, v).Ok?
    ensures FitsU32(size) && FitsU32(ty) && InferType(v) == Ok(19) && FitsU32(v.choiceType) && FitsU32(v.choiceFlags)
    ensures BuildBody(T, v, 19) == Ok(U32(v.choiceType) + U32(v.choiceFlags) + (U32(size) + U32(ty)) + bodies)
    ensures ItemHead(T, v, size, ty) && Items(T, v.items, ty, size, bodies)
  {
    hide BuildItems, Items, PackPod;
    assert BuildBody(T, v, 19) == BuildChoice(T, v);
    var built := BuildItems(T, v.items, ItemType(v).value, v.childSize).value;
    ty, size, bodies := ItemType(v).value, built.0, built.1;
    BuiltItems(T, v.items, ty, v.childSize);
    if v.items == [] { NoItems(T, ty, v.childSize); }
  }

  /** Controls: the offset, the kind, and the value's own pod. */
  ghost predicate Controls(T: Tables, controls: seq<Control>, b: Bytes)
    decreases |controls|
  {
    if controls == [] then b == []
    else
      && Word(b, 0, controls[0].offset) && Word(b, 4, controls[0].kind)
      && Build(T, controls[0].value).Ok? && Build(T, controls[0].value).value <= b[8..]
      && Controls(T, controls[1..], b[8 + |Build(T, controls[0].value).value|..])
  }

  lemma {:induction false} BuiltControls(T: Tables, controls: seq<Control>)
    requires BuildControls(T, controls).Ok?
    ensures Controls(T, controls, BuildControls(T, controls).value)
    decreases |controls|
  {
    if controls != [] {
      var c := controls[0];
      BuiltControls(T, controls[1..]);
      var pod, tail := Build(T, c.value).value, BuildControls(T, controls[1..]).value;
      EntryAt(c.offset, c.kind, pod, tail);
      assert BuildControls(T, controls).value == U32(c.offset) + U32(c.kind) + pod + tail;
      hide Build, BuildControls, U32, Word;
    }
  }

  /** Two words, a pod, and whatever follows. */
  lemma {:induction false} EntryAt(a: int, b: int, pod: Bytes, tail: Bytes)
    requires FitsU32(a) && FitsU32(b)
    ensures var all := U32(a) + U32(b) + pod + tail;
      Word(all, 0, a) && Word(all, 4, b) && pod <= all[8..] && all[8 + |pod|..] == tail
  {
    var all := U32(a) + U32(b) + pod + tail;
    assert all[0..4] == U32(a) && all[4..8] == U32(b);
    hide U32;
    WordOf(all, 0, a);
    WordOf(all, 4, b);
    assert all[8..] == pod + tail;
  }

  /** Type 16: the unit, a zero, and the controls. */
  lemma {:induction false} SequencePods(T: Tables, v: Value)
    requires v.VSequence? && Build(T, v).Ok?
    ensures exists controls: Bytes ::
      && Frame(Build(T, v).value, 16, 8 + |controls|)
      && Word(Build(T, v).value, 8, v.unit) && Word(Build(T, v).value, 12, 0)
      && Build(T, v).value[16..16 + |controls|] == controls && Controls(T, v.controls, controls)
  {
    hide BuildControls, PackPod, Controls;
    assert BuildBody(T, v, 16) == BuildSequence(T, v);
    var controls := BuildControls(T, v.controls).value;
    BuiltControls(T, v.controls);
    var body := U32(v.unit) + U32(0) + controls;
    assert body[0..8] == U32(v.unit) + U32(0) && |body| == 8 + |controls| && body[8..8 + |controls|] == controls;
    hide U32, Build, BuildBody, Frame, Word;
    ContainerFrames(T, v, 16, body);
    var p := Build(T, v).value;
    assert |p| >= 16 + |controls| by { FrameLength(p, 16, |body|); }
    TwoWords(p, |body|, 0, v.unit, 0);
    SliceOfBody(p, |body|, 8, |controls|);
  }

  /** A value without a type of its own: a scalar, a string, bytes or a plain list. */
  predicate Untyped(v: Value) {
    v.VNone? || v.VBool? || v.VEnum? || v.VInt? || v.VFloat? || v.VStr? || v.VBytes? || v.VList? || v.VDict?
  }

  /** The spec a property's own key leads to. */
  function Declared(T: Tables, objectId: int, key: Key): Option<PropertySpec> {
    if objectId !in T then None
    else match key
      case Num(n) => if n in T[objectId].byKey then Some(T[objectId].byKey[n]) else None
      case Name(name) => if name in T[objectId].byName then Some(T[objectId].byName[name]) else None
  }

  /**
    * A property is written under its number, the object's own or its table's; as the spec of that number
    * prepares it; and with the type the spec declares, unless the value has one or none is declared.
    */
  lemma {:induction false} PropertyWritten(T: Tables, v: Value, property: (Key, Value))
    requires v.VObject? && PrepareProperty(T, v.objectId, property, v.keys).Ok?
    ensures var (key, value, ty) := PrepareProperty(T, v.objectId, property, v.keys).value;
      && (property.0.Num? ==> key == property.0.num)
      && (property.0.Name? && property.0.name in v.keys ==> key == v.keys[property.0.name])
      && (property.0.Name? && property.0.name !in v.keys ==>
           Declared(T, v.objectId, property.0).Some? && key == Declared(T, v.objectId, property.0).value.key)
      && Prepare(T, Declared(T, v.objectId, Num(key)), property.1) == Ok(value)
      && var spec := Declared(T, v.objectId, property.0);
         if Untyped(value) && spec.Some? && spec.value.podType.Some? then ty == spec.value.podType.value
         else Build(T, value) == BuildAs(T, value, ty)
  {
    hide Prepare, BuildAs;
  }

  /** Properties: the numeric key, the flags, and the prepared value's pod. */
  ghost predicate Properties(T: Tables, v: Value, properties: Dict<Key, Value>, b: Bytes)
    requires v.VObject?
    decreases |properties|
  {
    if properties == [] then b == []
    else
      var prepared := PrepareProperty(T, v.objectId, properties[0], v.keys);
      && prepared.Ok?
      && var (key, value, ty) := prepared.value;
         && BuildAs(T, value, ty).Ok?
         && Word(b, 0, key) && Word(b, 4, if properties[0].0 in v.flags then v.flags[properties[0].0] else 0)
         && BuildAs(T, value, ty).value <= b[8..]
         && Properties(T, v, properties[1..], b[8 + |BuildAs(T, value, ty).value|..])
  }

  lemma {:induction false} BuiltProperties(T: Tables, v: Value, properties: Dict<Key, Value>)
    requires v.VObject? && BuildProperties(T, v.objectId, properties, v.flags, v.keys).Ok?
    ensures Properties(T, v, properties, BuildProperties(T, v.objectId, properties, v.flags, v.keys).value)
    decreases |properties|
  {
    hide BuildAs, PrepareProperty;
    if properties != [] {
      BuiltProperties(T, v, properties[1..]);
      var (key, value, ty) := PrepareProperty(T, v.objectId, properties[0], v.keys).value;
      var flag := FlagsOf(v.flags, properties[0].0);
      var pod, tail := BuildAs(T, value, ty).value, BuildProperties(T, v.objectId, properties[1..], v.flags, v.keys).value;
      assert BuildProperties(T, v.objectId, properties, v.flags, v.keys).value == U32(key) + U32(flag) + pod + tail;
      EntryAt(key, flag, pod, tail);
      hide BuildProperties, U32, Word;
    }
  }

  /** Type 15: the object's type and id, and its properties. */
  lemma {:induction false} ObjectPods(T: Tables, v: Value)
    requires v.VObject? && Build(T, v).Ok?
    ensures exists properties: Bytes ::
      && Frame(Build(T, v).value, 15, 8 + |properties|)
      && Word(Build(T, v).value, 8, v.objectType) && Word(Build(T, v).value, 12, v.objectId)
      && Build(T, v).value[16..16 + |properties|] == properties && Properties(T, v, v.properties, properties)
  {
    hide BuildProperties, PackPod, Properties;
    assert BuildBody(T, v, 15) == BuildObject(T, v);
    var properties := BuildProperties(T, v.objectId, v.properties, v.flags, v.keys).value;
    BuiltProperties(T, v, v.properties);
    var body := U32(v.objectType) + U32(v.objectId) + properties;
    assert body[0..8] == U32(v.objectType) + U32(v.objectId) && |body| == 8 + |properties|;
    assert body[8..8 + |properties|] == properties;
    hide U32, Build, BuildBody, Frame, Word;
    ContainerFrames(T, v, 15, body);
    var p := Build(T, v).value;
    assert |p| >= 16 + |properties| by { FrameLength(p, 15, |body|); }
    TwoWords(p, |body|, 0, v.objectType, v.objectId);
    SliceOfBody(p, |body|, 8, |properties|);
  }

  /** Raw bytes as an embedded pod: as many of them as their own header declares, rounded up. */
  lemma {:induction false} EmbeddedBytes(T: Tables, raw: Bytes, n: int, total: nat)
    requires |raw| >= 8 && Word(raw, 0, n) && 8 + n <= total < 16 + n && total % 8 == 0
    ensures var r, kept := Build(T, VPod(VBytes(raw))), if total <= |raw| then total else |raw|;
      r.Ok? ==> Frame(r.value, 20, kept) && Body(r.value, kept) == raw[..kept]
  {
    RawBody(T, raw);
    RawKept(raw, n, total);
    if Build(T, VPod(VBytes(raw))).Ok? {
      hide RawPod, Frame, Body, Word, Build, BuildBody, InferType;
      ContainerFrames(T, VPod(VBytes(raw)), 20, RawPod(raw).value);
    }
  }

  lemma {:induction false} RawKept(raw: Bytes, n: int, total: nat)
    requires |raw| >= 8 && Word(raw, 0, n) && 8 + n <= total < 16 + n && total % 8 == 0
    ensures RawPod(raw) == Ok(raw[..if total <= |raw| then total else |raw|])
  {
    assert U32At(raw, 0) == n;
    hide U32At, Word;
    SameMultiple(Align8(8 + n), total);
    assert raw[..|raw|] == raw;
  }

  lemma SameMultiple(a: int, b: int)
    requires a % 8 == 0 && b % 8 == 0 && -8 < a - b < 8
    ensures a == b
  {
  }

  lemma {:induction false} RawBody(T: Tables, raw: Bytes)
    ensures InferType(VPod(VBytes(raw))) == Ok(20) && BuildBody(T, VPod(VBytes(raw)), 20) == RawPod(raw)
    ensures Build(T, VPod(VBytes(raw))).Ok? ==> RawPod(raw).Ok?
  {
    var v := VPod(VBytes(raw));
    assert BuildBody(T, v, 20) == BuildEmbedded(T, v);
    hide BuildBody, PackPod, RawPod;
    assert Build(T, v) == BuildAs(T, v, 20);
  }

  /** What does not build: short raw bytes, an array of nothing of no type, a plain mapping. */
  lemma {:induction false} BuildRefusals(T: Tables, raw: Bytes, size: Option<int>, entries: Dict<Str, Value>)
    ensures |raw| < 8 ==> Build(T, VPod(VBytes(raw))) == Err(ShortHeader)
    ensures Build(T, VArray(size, None, [])) == Err(MissingChildType)
    ensures Build(T, VDict(entries)) == Err(Mismatch)
  {
    assert BuildBody(T, VPod(VBytes(raw)), 20) == BuildEmbedded(T, VPod(VBytes(raw)));
    assert BuildBody(T, VArray(size, None, []), 13) == BuildArray(T, VArray(size, None, []));
  }

  /** Nor an object whose first property has a name that neither it nor its table numbers. */
  lemma {:induction false} UnknownProperties(T: Tables, v: Value, name: Str)
    requires v.VObject? && v.properties != [] && v.properties[0].0 == Name(name) && name !in v.keys
    requires v.objectId in T ==> name !in T[v.objectId].byName
    requires Unsigned(v.objectType) && Unsigned(v.objectId)
    ensures Build(T, v) == Err(UnknownProperty)
  {
    assert BuildBody(T, v, 15) == BuildObject(T, v);
    assert PrepareProperty(T, v.objectId, v.properties[0], v.keys) == Err(UnknownProperty);
    assert BuildProperties(T, v.objectId, v.properties, v.flags, v.keys) == Err(UnknownProperty);
  }

  // ----- parsing -----

  lemma WordAt(p: Bytes, at: nat, n: int)
    requires at + 4 <= |p|
    ensures Word(p, at, n) <==> U32At(p, at) == n
  {
  }

  lemma LongWordAt(p: Bytes, at: nat, n: int)
    requires at + 8 <= |p|
    ensures LongWord(p, at, n) <==> U64At(p, at) == n
  {
  }

  /** A short buffer, before and after the header. */
  lemma {:induction false} ShortPods(T: Tables, p: Bytes, o: nat, size: int)
    ensures |p| < o + 8 ==> Parse(T, p, o) == Err(ShortHeader)
    ensures |p| >= o + 8 && Word(p, o, size) && |p| < o + 8 + size ==> Parse(T, p, o) == Err(ShortBody)
  {
    if |p| >= o + 8 { WordAt(p, o, size); }
  }

  /** A header at a place in a buffer that holds the body it declares. */
  predicate Declares(p: Bytes, o: nat, size: nat, ty: int) {
    Word(p, o, size) && Word(p, o + 4, ty) && o + 8 + size <= |p|
  }

  lemma {:induction false} DeclaredLeaf(T: Tables, p: Bytes, o: nat, size: nat, ty: int)
    requires Declares(p, o, size, ty) && !IsContainer(ty)
    ensures Parse(T, p, o) == ParseLeaf(p, o + 8, size, ty)
  {
    WordAt(p, o, size);
    WordAt(p, o + 4, ty);
    hide Word, ParseLeaf, IsContainer;
  }

  /** Scalars of four bytes, read whatever size is declared. */
  lemma {:induction false} ParsedWords(T: Tables, p: Bytes, o: nat, size: nat, ty: int, n: int)
    requires Declares(p, o, size, ty)
    ensures ty == 1 ==> Parse(T, p, o) == Ok(VNone)
    ensures ty in {2, 3, 4, 6} && |p| < o + 12 ==> Parse(T, p, o) == Err(StructError)
    ensures ty == 2 && Word(p, o + 8, n) ==> Parse(T, p, o) == Ok(VBool(n != 0))
    ensures ty == 3 && Word(p, o + 8, n) ==> Parse(T, p, o) == Ok(VInt(n))
    ensures ty == 4 && Word(p, o + 8, n) ==> Parse(T, p, o) == Ok(VInt(if n < 0x8000_0000 then n else n - 0x1_0000_0000))
    ensures ty == 6 && Word(p, o + 8, n) ==> Parse(T, p, o) == Ok(VFloat(Single(n)))
  {
    if ty in {1, 2, 3, 4, 6} { DeclaredLeaf(T, p, o, size, ty); }
    if |p| >= o + 12 { WordAt(p, o + 8, n); }
    hide Parse, Word, Declares;
  }

  lemma {:induction false} ParsedLongs(T: Tables, p: Bytes, o: nat, size: nat, ty: int, n: int)
    requires Declares(p, o, size, ty)
    ensures ty in {5, 7, 18} && |p| < o + 16 ==> Parse(T, p, o) == Err(StructError)
    ensures ty in {5, 18} && LongWord(p, o + 8, n) ==>
      Parse(T, p, o) == Ok(VInt(if n < 0x8000_0000_0000_0000 then n else n - 0x1_0000_0000_0000_0000))
    ensures ty == 7 && LongWord(p, o + 8, n) ==> Parse(T, p, o) == Ok(VFloat(Double(n)))
  {
    if ty in {5, 7, 18} { DeclaredLeaf(T, p, o, size, ty); }
    if |p| >= o + 16 { LongWordAt(p, o + 8, n); }
    hide Parse, LongWord, Declares;
  }

  /** Two words make a rectangle or a fraction; a pointer's address may be short or missing. */
  lemma {:induction false} ParsedPairs(T: Tables, p: Bytes, o: nat, size: nat, ty: int, a: int, b: int)
    requires Declares(p, o, size, ty)
    ensures ty in {10, 11} && |p| < o + 16 ==> Parse(T, p, o) == Err(StructError)
    ensures ty == 10 && Word(p, o + 8, a) && Word(p, o + 12, b) ==> Parse(T, p, o) == Ok(VRectangle(a, b))
    ensures ty == 11 && Word(p, o + 8, a) && Word(p, o + 12, b) ==> Parse(T, p, o) == Ok(VFraction(a, b))
    ensures ty == 17 && size < 8 ==> Parse(T, p, o) == Ok(VPointer(0, 0))
    ensures ty == 17 && 8 <= size < 12 && Word(p, o + 8, a) ==> Parse(T, p, o) == Ok(VPointer(a, 0))
    ensures ty == 17 && 12 <= size < 16 && Word(p, o + 8, a) && Word(p, o + 16, b) ==> Parse(T, p, o) == Ok(VPointer(a, b))
    ensures ty == 17 && size >= 16 && Word(p, o + 8, a) && LongWord(p, o + 16, b) ==> Parse(T, p, o) == Ok(VPointer(a, b))
  {
    if ty in {10, 11, 17} { DeclaredLeaf(T, p, o, size, ty); }
    if |p| >= o + 12 { WordAt(p, o + 8, a); }
    if |p| >= o + 16 { WordAt(p, o + 12, b); }
    if |p| >= o + 20 { WordAt(p, o + 16, b); }
    if |p| >= o + 24 { LongWordAt(p, o + 16, b); }
    hide Parse, Word, LongWord, Declares;
  }

  /** Strings end at the first NUL of their body; bytes, bitmaps and unknown types keep all of it. */
  lemma {:induction false} ParsedBytes(T: Tables, p: Bytes, o: nat, size: nat, ty: int)
    requires Declares(p, o, size, ty)
    ensures var r, body := Parse(T, p, o), p[o + 8..o + 8 + size];
      && (ty == 8 ==>
           && r.Ok? && r.value.VStr? && r.value.s <= body && 0 !in r.value.s
           && (r.value.s == body || body[|r.value.s|] == 0))
      && (ty == 9 ==> r == Ok(VBytes(body)))
      && (ty == 12 ==> r == Ok(VBitmap(body)))
      && (ty < 1 || ty > 20 ==> r == Ok(VUnknown(ty, size, body)))
  {
    if ty == 8 || ty == 9 || ty == 12 || ty < 1 || ty > 20 { DeclaredLeaf(T, p, o, size, ty); }
    UntilNulEnds(p[o + 8..o + 8 + size]);
    hide Parse, Word, Declares, UntilNul;
  }

  lemma {:induction false} UntilNulEnds(s: Bytes)
    ensures UntilNul(s) == s || s[|UntilNul(s)|] == 0
  {
    if s != [] && s[0] != 0 { UntilNulEnds(s[1..]); }
  }
}
