/** bincode 2 integers as `config::standard()` writes them (little-endian, variable length),
    plus the big-endian length prefix of the framing layer. */
module Varint {
  import opened Primitives

  /** What a decoder makes of a byte string: a value and the bytes it did not read, or a failure. */
  datatype Parse<+T> = Parsed(value: T, rest: seq<byte>) | Malformed

  // ----- fixed-width little-endian -----

  function Le16(n: u16): (b: seq<byte>)
    ensures |b| == 2
  { [n % 0x100, n / 0x100] }

  function Le32(n: u32): (b: seq<byte>)
    ensures |b| == 4
  { Le16(n % U16_LIMIT) + Le16(n / U16_LIMIT) }

  function Le64(n: u64): (b: seq<byte>)
    ensures |b| == 8
  { Le32(n % U32_LIMIT) + Le32(n / U32_LIMIT) }

  function OfLe16(b: seq<byte>): u16
    requires |b| == 2
  { b[0] as int + 0x100 * b[1] as int }

  function OfLe32(b: seq<byte>): u32
    requires |b| == 4
  { OfLe16(b[..2]) as int + U16_LIMIT * OfLe16(b[2..]) as int }

  function OfLe64(b: seq<byte>): u64
    requires |b| == 8
  { OfLe32(b[..4]) as int + U32_LIMIT * OfLe32(b[4..]) as int }

  lemma Le32RoundTrip(n: u32)
    ensures OfLe32(Le32(n)) == n
  {
    assert Le32(n)[..2] == Le16(n % U16_LIMIT);
    assert Le32(n)[2..] == Le16(n / U16_LIMIT);
  }

  lemma Le64RoundTrip(n: u64)
    ensures OfLe64(Le64(n)) == n
  {
    assert Le64(n)[..4] == Le32(n % U32_LIMIT);
    assert Le64(n)[4..] == Le32(n / U32_LIMIT);
    Le32RoundTrip(n % U32_LIMIT);
    Le32RoundTrip(n / U32_LIMIT);
  }

  /** The least significant byte comes first. */
  lemma LittleEndian(b: seq<byte>)
    requires |b| == 8
    ensures OfLe64(b) ==
      b[0] as int + 0x100 * b[1] as int + 0x1_0000 * b[2] as int + 0x100_0000 * b[3] as int
      + 0x1_0000_0000 * b[4] as int + 0x100_0000_0000 * b[5] as int
      + 0x1_0000_0000_0000 * b[6] as int + 0x100_0000_0000_0000 * b[7] as int
  {
    assert b[..4][2..] == b[2..4] && b[4..][2..] == b[6..];
  }

  // ----- big-endian length prefix -----

  function Be32(n: u32): (b: seq<byte>)
    ensures |b| == 4
  { [n / 0x100_0000, n / U16_LIMIT % 0x100, n / 0x100 % 0x100, n % 0x100] }

  function OfBe32(b: seq<byte>): u32
    requires |b| == 4
  { b[0] as int * 0x100_0000 + b[1] as int * U16_LIMIT + b[2] as int * 0x100 + b[3] as int }

  lemma Be32RoundTrip(n: u32)
    ensures OfBe32(Be32(n)) == n
  {
    var x := n / 0x100;
    var y := x / 0x100;
    assert y == n / U16_LIMIT && y / 0x100 == n / 0x100_0000;
    assert n == 0x100 * x + n % 0x100 && x == 0x100 * y + x % 0x100 && y == 0x100 * (y / 0x100) + y % 0x100;
  }

  lemma OfBe32RoundTrip(b: seq<byte>)
    requires |b| == 4
    ensures Be32(OfBe32(b)) == b
  {
    var n := OfBe32(b);
    assert n / 0x100 == b[0] as int * U16_LIMIT + b[1] as int * 0x100 + b[2] as int;
    assert n / U16_LIMIT == b[0] as int * 0x100 + b[1] as int;
  }

  // ----- variable length -----

  /** The integer types whose varints the protocol uses; a marker wider than the type is refused. */
  datatype Width = W16 | W32 | W64

  function Limit(w: Width): nat {
    match w
    case W16 => U16_LIMIT
    case W32 => U32_LIMIT
    case W64 => U64_LIMIT
  }

  function EncodeVarint(n: u64): seq<byte> {
    if n <= 250 then [n]
    else if n < U16_LIMIT then [251] + Le16(n)
    else if n < U32_LIMIT then [252] + Le32(n)
    else [253] + Le64(n)
  }

  function DecodeVarint(w: Width, b: seq<byte>): (p: Parse<nat>)
    ensures p.Parsed? ==> p.value < Limit(w) && |p.rest| < |b|
  {
    if b == [] then Malformed
    else if b[0] <= 250 then Parsed(b[0], b[1..])
    else if b[0] == 251 && |b| >= 3 then Parsed(OfLe16(b[1..3]), b[3..])
    else if b[0] == 252 && w != W16 && |b| >= 5 then Parsed(OfLe32(b[1..5]), b[5..])
    else if b[0] == 253 && w == W64 && |b| >= 9 then Parsed(OfLe64(b[1..9]), b[9..])
    else Malformed
  }

  function VarintLength(n: u64): nat {
    if n <= 250 then 1 else if n < U16_LIMIT then 3 else if n < U32_LIMIT then 5 else 9
  }

  /** Every value of the width survives, whatever follows it, and exactly its own bytes are read. */
  lemma VarintRoundTrip(w: Width, n: u64, tail: seq<byte>)
    requires n < Limit(w)
    ensures DecodeVarint(w, EncodeVarint(n) + tail) == Parsed(n, tail)
    ensures |EncodeVarint(n)| == VarintLength(n)
  {
    var b := EncodeVarint(n) + tail;
    if n <= 250 {
      assert b[1..] == tail;
    } else if n < U16_LIMIT {
      assert b[1..3] == Le16(n);
      assert b[3..] == tail;
    } else if n < U32_LIMIT {
      assert b[1..5] == Le32(n);
      Le32RoundTrip(n);
      assert b[5..] == tail;
    } else {
      assert b[1..9] == Le64(n);
      Le64RoundTrip(n);
      assert b[9..] == tail;
    }
  }

  /** A decoder never looks past what it consumed: more input only lengthens the rest. */
  lemma VarintExtends(w: Width, b: seq<byte>, tail: seq<byte>)
    requires DecodeVarint(w, b).Parsed?
    ensures DecodeVarint(w, b + tail) == Parsed(DecodeVarint(w, b).value, DecodeVarint(w, b).rest + tail)
  {
    var c := b + tail;
    if b[0] <= 250 {
      assert c[1..] == b[1..] + tail;
    } else if b[0] == 251 {
      assert c[1..3] == b[1..3] && c[3..] == b[3..] + tail;
    } else if b[0] == 252 {
      assert c[1..5] == b[1..5] && c[5..] == b[5..] + tail;
    } else {
      assert c[1..9] == b[1..9] && c[9..] == b[9..] + tail;
    }
  }

  /** Marker 255 is refused at every width, and so is 254, which announces a 128-bit value; a marker
      wider than the wanted type is refused however many bytes follow. */
  lemma WideMarkersRefused(w: Width, b: seq<byte>)
    requires b != []
    ensures b[0] >= 254 ==> DecodeVarint(w, b) == Malformed
    ensures b[0] == 253 && w != W64 ==> DecodeVarint(w, b) == Malformed
    ensures b[0] == 252 && w == W16 ==> DecodeVarint(w, b) == Malformed
  {}

  /** The encoder is the densest of all byte strings the decoder reads back as `n`. */
  lemma VarintIsShortest(w: Width, b: seq<byte>)
    requires DecodeVarint(w, b).Parsed?
    ensures VarintLength(DecodeVarint(w, b).value) <= |b| - |DecodeVarint(w, b).rest|
  {}

  /** The first value of each varint size. */
  lemma MarkerBytes()
    ensures EncodeVarint(250) == [250] && EncodeVarint(251) == [251, 251, 0]
    ensures EncodeVarint(U16_LIMIT) == [252, 0, 0, 1, 0]
    ensures EncodeVarint(U32_LIMIT) == [253, 0, 0, 0, 0, 1, 0, 0, 0]
  {}

  /** What is read back: a small byte by itself, or a marker with all its bytes, if the type is wide enough. */
  lemma VarintAcceptedIff(w: Width, b: seq<byte>)
    ensures DecodeVarint(w, b).Parsed? <==>
      || (|b| >= 1 && b[0] <= 250)
      || (|b| >= 3 && b[0] == 251)
      || (|b| >= 5 && b[0] == 252 && w != W16)
      || (|b| >= 9 && b[0] == 253 && w == W64)
  {}

  /** A longer form than necessary is read too. */
  lemma LongFormsAccepted(w: Width, a: u16, b: u32, c: u64, tail: seq<byte>)
    ensures DecodeVarint(w, ([251] + Le16(a)) + tail) == Parsed(a, tail)
    ensures w != W16 ==> DecodeVarint(w, ([252] + Le32(b)) + tail) == Parsed(b, tail)
    ensures DecodeVarint(W64, ([253] + Le64(c)) + tail) == Parsed(c, tail)
  {
    var x, y, z := ([251] + Le16(a)) + tail, ([252] + Le32(b)) + tail, ([253] + Le64(c)) + tail;
    assert x[1..3] == Le16(a) && x[3..] == tail;
    assert y[1..5] == Le32(b) && y[5..] == tail;
    assert z[1..9] == Le64(c) && z[9..] == tail;
    Le32RoundTrip(b);
    Le64RoundTrip(c);
  }

  /** Byte orders, on bytes that all differ: the length prefix is big-endian, the rest little-endian. */
  lemma ByteOrders()
    ensures Be32(0x01020304) == [1, 2, 3, 4]
    ensures Le16(0x0102) == [2, 1] && Le32(0x01020304) == [4, 3, 2, 1]
    ensures Le64(0x0102030405060708) == [8, 7, 6, 5, 4, 3, 2, 1]
  {}
}
