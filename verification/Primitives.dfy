/** Machine-width integers, byte strings and the two small result types every layer shares. */
module Primitives {

  datatype Option<+T> = None | Some(value: T)

  datatype Result<+T, +E> = Ok(value: T) | Err(error: E)

  const U16_LIMIT := 0x1_0000
  const U32_LIMIT := 0x1_0000_0000
  const U64_LIMIT := 0x1_0000_0000_0000_0000

  type byte = x: int | 0 <= x < 0x100
  type u16 = x: int | 0 <= x < U16_LIMIT
  type u32 = x: int | 0 <= x < U32_LIMIT
  type u64 = x: int | 0 <= x < U64_LIMIT

  /** Two numbers agree modulo 2^64 exactly when 2^64 divides their difference. */
  lemma SameRemainder(j: nat, k: nat)
    requires j <= k
    ensures j % U64_LIMIT == k % U64_LIMIT <==> (k - j) % U64_LIMIT == 0
  {
    var p, r := j / U64_LIMIT, j % U64_LIMIT;
    var q, s := k / U64_LIMIT, k % U64_LIMIT;
    assert j == U64_LIMIT * p + r && k == U64_LIMIT * q + s;
    assert k - j == U64_LIMIT * (q - p) + (s - r);
    if r <= s {
      QuotientUnique(k - j, q - p, s - r);
    } else {
      QuotientUnique(k - j, q - p - 1, s - r + U64_LIMIT);
    }
  }

  lemma QuotientUnique(n: nat, q: int, r: nat)
    requires n == U64_LIMIT * q + r && r < U64_LIMIT
    ensures n % U64_LIMIT == r
  {
    var d := n / U64_LIMIT - q;
    assert U64_LIMIT * d == r - n % U64_LIMIT;
    assert d == 0;
  }

  // ----- UTF-8 -----

  predicate Continuation(b: byte) { 0x80 <= b <= 0xBF }

  /** Length of the well-formed UTF-8 sequence at the front of `b`, or 0 if there is none
      (the well-formed byte sequences of the Unicode standard, table 3-7). */
  function LeadingScalar(b: seq<byte>): (n: nat)
    ensures n <= |b|
  {
    if |b| >= 1 && b[0] <= 0x7F then 1
    else if |b| >= 2 && 0xC2 <= b[0] <= 0xDF && Continuation(b[1]) then 2
    else if |b| >= 3 && 0xE0 <= b[0] <= 0xEF && Continuation(b[1]) && Continuation(b[2])
            && (b[0] == 0xE0 ==> b[1] >= 0xA0) && (b[0] == 0xED ==> b[1] <= 0x9F) then 3
    else if |b| >= 4 && 0xF0 <= b[0] <= 0xF4 && Continuation(b[1]) && Continuation(b[2]) && Continuation(b[3])
            && (b[0] == 0xF0 ==> b[1] >= 0x90) && (b[0] == 0xF4 ==> b[1] <= 0x8F) then 4
    else 0
  }

  predicate ValidUtf8(b: seq<byte>) {
    b == [] || (LeadingScalar(b) > 0 && ValidUtf8(b[LeadingScalar(b)..]))
  }

  /** A Unicode scalar value. */
  type Scalar = c: int | 0 <= c < 0xD800 || 0xE000 <= c < 0x11_0000

  function EncodeScalar(c: Scalar): seq<byte> {
    if c < 0x80 then [c]
    else if c < 0x800 then [0xC0 + c / 0x40, 0x80 + c % 0x40]
    else if c < 0x1_0000 then [0xE0 + c / 0x40 / 0x40, 0x80 + c / 0x40 % 0x40, 0x80 + c % 0x40]
    else [0xF0 + c / 0x40 / 0x40 / 0x40, 0x80 + c / 0x40 / 0x40 % 0x40, 0x80 + c / 0x40 % 0x40, 0x80 + c % 0x40]
  }

  function EncodeText(cs: seq<Scalar>): seq<byte> {
    if cs == [] then [] else EncodeScalar(cs[0]) + EncodeText(cs[1..])
  }

  lemma SixBits(q: nat, r: nat)
    requires r < 0x40
    ensures (q * 0x40 + r) / 0x40 == q && (q * 0x40 + r) % 0x40 == r
  {}

  /** The scalar value a well-formed sequence stands for. */
  function ScalarAt(b: seq<byte>): nat
    requires LeadingScalar(b) > 0
  {
    var n := LeadingScalar(b);
    if n == 1 then b[0]
    else if n == 2 then (b[0] as int - 0xC0) * 0x40 + (b[1] as int - 0x80)
    else if n == 3 then ((b[0] as int - 0xE0) * 0x40 + (b[1] as int - 0x80)) * 0x40 + (b[2] as int - 0x80)
    else (((b[0] as int - 0xF0) * 0x40 + (b[1] as int - 0x80)) * 0x40 + (b[2] as int - 0x80)) * 0x40
         + (b[3] as int - 0x80)
  }

  /** Reading a well-formed sequence back. */
  lemma LeadingScalarIs(b: seq<byte>) returns (c: Scalar)
    requires LeadingScalar(b) > 0
    ensures EncodeScalar(c) == b[..LeadingScalar(b)]
  {
    var n := LeadingScalar(b);
    c := ScalarAt(b);
    if n == 2 {
      SixBits(b[0] as int - 0xC0, b[1] as int - 0x80);
    } else if n == 3 {
      var q := (b[0] as int - 0xE0) * 0x40 + (b[1] as int - 0x80);
      SixBits(b[0] as int - 0xE0, b[1] as int - 0x80);
      SixBits(q, b[2] as int - 0x80);
    } else if n == 4 {
      var p := (b[0] as int - 0xF0) * 0x40 + (b[1] as int - 0x80);
      var q := p * 0x40 + (b[2] as int - 0x80);
      SixBits(b[0] as int - 0xF0, b[1] as int - 0x80);
      SixBits(p, b[2] as int - 0x80);
      SixBits(q, b[3] as int - 0x80);
    }
  }

  lemma ScalarLeads(c: Scalar, tail: seq<byte>)
    ensures LeadingScalar(EncodeScalar(c) + tail) == |EncodeScalar(c)|
  {}

  /** The valid byte strings are exactly the encodings of sequences of scalar values. */
  lemma {:induction false} TextIsValid(cs: seq<Scalar>)
    ensures ValidUtf8(EncodeText(cs))
  {
    if cs != [] {
      var first, rest := EncodeScalar(cs[0]), EncodeText(cs[1..]);
      ScalarLeads(cs[0], rest);
      assert (first + rest)[|first|..] == rest;
      TextIsValid(cs[1..]);
    }
  }

  lemma {:induction false} ValidIsText(b: seq<byte>) returns (cs: seq<Scalar>)
    requires ValidUtf8(b)
    ensures EncodeText(cs) == b
  {
    cs := [];
    if b != [] {
      var c := LeadingScalarIs(b);
      var rest := ValidIsText(b[LeadingScalar(b)..]);
      cs := [c] + rest;
      assert cs[1..] == rest;
    }
  }

  /** A Rust `String`: its UTF-8 bytes. */
  type Str = b: seq<byte> | ValidUtf8(b) witness []

  lemma {:induction false} Utf8Concat(a: seq<byte>, b: seq<byte>)
    requires ValidUtf8(a) && ValidUtf8(b)
    ensures ValidUtf8(a + b)
  {
    if a == [] {
      assert a + b == b;
    } else {
      var n := LeadingScalar(a);
      assert LeadingScalar(a + b) == n;
      assert (a + b)[n..] == a[n..] + b;
      Utf8Concat(a[n..], b);
    }
  }

  lemma {:induction false} AsciiIsUtf8(b: seq<byte>)
    requires forall i :: 0 <= i < |b| ==> b[i] <= 0x7F
    ensures ValidUtf8(b)
  {
    if b != [] {
      AsciiIsUtf8(b[1..]);
    }
  }

  function Append(a: Str, b: Str): (r: Str)
    ensures r == a + b
  {
    Utf8Concat(a, b);
    a + b
  }

  /** The bytes of an ASCII literal. */
  function Ascii(s: string): (r: Str)
    requires forall i :: 0 <= i < |s| ==> s[i] as int <= 0x7F
    ensures |r| == |s| && forall i :: 0 <= i < |s| ==> r[i] == s[i] as int
  {
    var b: seq<byte> := seq(|s|, i requires 0 <= i < |s| => s[i] as int);
    AsciiIsUtf8(b);
    b
  }

  /** `b` is the ASCII text `s`. */
  predicate Spells(b: seq<byte>, s: string) { |b| == |s| && forall i :: 0 <= i < |s| ==> b[i] == s[i] as int }

  lemma HeadTail<T>(xs: seq<T>)
    requires xs != []
    ensures [xs[0]] + xs[1..] == xs
  {}

  lemma Reassociate<T>(a: seq<T>, b: seq<T>, c: seq<T>)
    ensures (a + b) + c == a + (b + c)
  {}

  /** How many elements `xs` starts with that equal `x`. */
  function LeadingCount<T(==)>(xs: seq<T>, x: T): (n: nat)
    ensures n <= |xs|
  {
    if xs == [] || xs[0] != x then 0 else 1 + LeadingCount(xs[1..], x)
  }

  /** Splitting `q` after its first element: where `n` of the rest go and the others stay. */
  lemma Peel<T>(sent: seq<T>, lost: seq<T>, q: seq<T>, n: nat)
    requires q != [] && n <= |q| - 1
    ensures (sent + [q[0]]) + q[1..][..n] == sent + q[..n + 1] && lost + q[1..][n..] == lost + q[n + 1..]
  {
    assert q[..n + 1] == [q[0]] + q[1..][..n];
  }
}
