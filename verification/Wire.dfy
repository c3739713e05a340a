/** Little-endian words, eight-byte alignment and framing of byte chunks inside a larger buffer. */
module Wire {
  import opened Wrappers

  type byte = b: int | 0 <= b < 256

  type Bytes = seq<byte>

  const U32_LIMIT: int := 0x1_0000_0000
  const U64_LIMIT: int := 0x1_0000_0000_0000_0000

  /** The exceptions the codec can raise. */
  datatype Error =
    | ShortHeader          // "Data too short for SPA pod header"
    | ShortBody            // "Data too short for SPA pod body"
    | StructError          // struct.error: a short read or a field out of range
    | EmbeddedTooLarge     // "Embedded SPA pod exceeds container size"
    | MissingChildType     // an empty array or choice without 'child_type'
    | MixedChildSize       // items of one array or choice with different sizes
    | UnknownProperty      // a named property without a numeric key
    | Unsupported          // "Unsupported SPA type for building"
    | Mismatch             // a TypeError, ValueError or KeyError on a value of the wrong kind
    | RawBytes             // never raised: marks values whose meaning is left to raw embedded bytes

  /** `struct.pack("<I", n)` for a value already known to fit. */
  function U32(n: int): (r: Bytes)
    requires 0 <= n < U32_LIMIT
    ensures |r| == 4
  {
    [n % 256, n / 256 % 256, n / 65536 % 256, n / 16777216 % 256]
  }

  /** `struct.unpack_from("<I", data, offset)`. */
  function U32At(data: Bytes, offset: nat): (n: int)
    requires offset + 4 <= |data|
    ensures 0 <= n < U32_LIMIT
  {
    var b0: int, b1: int, b2: int, b3: int :=
      data[offset], data[offset + 1], data[offset + 2], data[offset + 3];
    b0 + 256 * b1 + 65536 * b2 + 16777216 * b3
  }

  /** `struct.pack("<Q", n)` for a value already known to fit. */
  function U64(n: int): (r: Bytes)
    requires 0 <= n < U64_LIMIT
    ensures |r| == 8
  {
    U32(n % U32_LIMIT) + U32(n / U32_LIMIT)
  }

  /** `struct.unpack_from("<Q", data, offset)`. */
  function U64At(data: Bytes, offset: nat): (n: int)
    requires offset + 8 <= |data|
    ensures 0 <= n < U64_LIMIT
  {
    U32At(data, offset) + U32_LIMIT * U32At(data, offset + 4)
  }

  /** The two's complement pattern of a signed word, and back. */
  function Wrap(i: int, limit: int): (n: int)
    requires 0 < limit && -limit <= 2 * i < limit
    ensures 0 <= n < limit
  {
    if i < 0 then i + limit else i
  }

  function Unwrap(n: int, limit: int): (i: int)
    requires 0 <= n < limit
    ensures -limit <= 2 * i < limit
  {
    if 2 * n < limit then n else n - limit
  }

  predicate FitsU32(n: int) {
    0 <= n < U32_LIMIT
  }

  predicate FitsU64(n: int) {
    0 <= n < U64_LIMIT
  }

  predicate FitsI32(n: int) {
    -0x8000_0000 <= n <= 0x7fff_ffff
  }

  predicate FitsI64(n: int) {
    -0x8000_0000_0000_0000 <= n <= 0x7fff_ffff_ffff_ffff
  }

  /** `_align(value, 8)`: the least multiple of eight that is at least `n`. */
  function Align8(n: nat): (r: nat)
    ensures n <= r < n + 8 && r % 8 == 0
  {
    (n + 7) / 8 * 8
  }

  function Zeros(n: nat): (r: Bytes)
    ensures |r| == n
  {
    seq(n, _ => 0)
  }

  /** The part of a C string before its terminator. */
  function UntilNul(s: Bytes): (r: Bytes)
    ensures 0 !in r
    ensures r <= s
    ensures 0 !in s ==> r == s
  {
    if s == [] || s[0] == 0 then [] else [s[0]] + UntilNul(s[1..])
  }

  /** `chunk` occupies `data` from `offset` on. */
  ghost predicate Has(data: Bytes, offset: nat, chunk: Bytes) {
    offset + |chunk| <= |data| && data[offset..offset + |chunk|] == chunk
  }

  lemma HasSplit(data: Bytes, offset: nat, a: Bytes, b: Bytes)
    requires Has(data, offset, a + b)
    ensures Has(data, offset, a) && Has(data, offset + |a|, b)
  {
    var ab := data[offset..offset + |a + b|];
    assert ab[..|a|] == a && ab[|a|..] == b;
    assert data[offset..offset + |a|] == ab[..|a|];
    assert data[offset + |a|..offset + |a| + |b|] == ab[|a|..];
  }

  lemma HasIn(pre: Bytes, chunk: Bytes, post: Bytes)
    ensures Has(pre + chunk + post, |pre|, chunk)
  {
  }

  lemma HasAt(data: Bytes, offset: nat, chunk: Bytes, i: nat)
    requires Has(data, offset, chunk) && i < |chunk|
    ensures data[offset + i] == chunk[i]
  {
    assert data[offset..offset + |chunk|][i] == data[offset + i];
  }

  /** A word is the sum of its four digits. */
  lemma Digits(n: int)
    requires FitsU32(n)
    ensures n == n % 256 + 256 * (n / 256 % 256) + 65536 * (n / 65536 % 256) + 16777216 * (n / 16777216 % 256)
  {
    assert n / 65536 == n / 256 / 256 && n / 16777216 == n / 65536 / 256;
    assert n / 16777216 < 256;
  }

  lemma ReadU32(data: Bytes, offset: nat, n: int)
    requires FitsU32(n) && Has(data, offset, U32(n))
    ensures U32At(data, offset) == n
  {
    var word := U32(n);
    HasAt(data, offset, word, 0);
    HasAt(data, offset, word, 1);
    HasAt(data, offset, word, 2);
    HasAt(data, offset, word, 3);
    hide Has;
    Digits(n);
  }

  lemma ReadU64(data: Bytes, offset: nat, n: int)
    requires FitsU64(n) && Has(data, offset, U64(n))
    ensures U64At(data, offset) == n
  {
    HasSplit(data, offset, U32(n % U32_LIMIT), U32(n / U32_LIMIT));
    ReadU32(data, offset, n % U32_LIMIT);
    ReadU32(data, offset + 4, n / U32_LIMIT);
  }

  lemma UntilNulTerminated(s: Bytes)
    ensures UntilNul(s + [0]) == UntilNul(s)
  {
    if s != [] && s[0] != 0 {
      assert (s + [0])[1..] == s[1..] + [0];
    }
  }
}
