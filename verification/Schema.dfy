/** Typed argument and result payloads: a universe of serde types and values with their bincode form. */
module Schema {
  import opened Primitives
  import opened Varint
  import opened Envelopes

  /** A derived struct is the tuple of its fields; a derived enum has one type, usually a tuple, for the
      fields of each variant. */
  datatype Ty =
    | U8 | I8
    | Unsigned(w: Width)
    | Signed(w: Width)
    | Bool
    | F32 | F64
    | Text
    | Opt(t: Ty)
    | List(t: Ty)
    | Tuple(ts: seq<Ty>)
    | Enum(cases: seq<Ty>)

  datatype Value =
    | IntV(n: int)
    | BoolV(b: bool)
    | FloatV(bits: nat)
    | StrV(s: Str)
    | NoneV
    | SomeV(v: Value)
    | ListV(vs: seq<Value>)
    | TupleV(vs: seq<Value>)
    | EnumV(variant: nat, fields: Value)

  predicate HasType(v: Value, t: Ty)
    decreases t
  {
    match t
    case U8 => v.IntV? && 0 <= v.n < 0x100
    case I8 => v.IntV? && -0x80 <= v.n < 0x80
    case Unsigned(w) => v.IntV? && 0 <= v.n < Limit(w)
    case Signed(w) => v.IntV? && -(Limit(w) as int) <= 2 * v.n < Limit(w)
    case Bool => v.BoolV?
    case F32 => v.FloatV? && v.bits < U32_LIMIT
    case F64 => v.FloatV? && v.bits < U64_LIMIT
    case Text => v.StrV? && |v.s| < U64_LIMIT
    case Opt(t1) => v.NoneV? || (v.SomeV? && HasType(v.v, t1))
    case List(t1) => v.ListV? && |v.vs| < U64_LIMIT && forall i :: 0 <= i < |v.vs| ==> HasType(v.vs[i], t1)
    case Tuple(ts) => v.TupleV? && HaveTypes(v.vs, ts)
    case Enum(cs) => v.EnumV? && v.variant < |cs| && v.variant < U32_LIMIT && HasType(v.fields, cs[v.variant])
  }

  predicate HaveTypes(vs: seq<Value>, ts: seq<Ty>)
    decreases ts
  {
    |vs| == |ts| && forall i :: 0 <= i < |ts| ==> HasType(vs[i], ts[i])
  }

  // ----- zigzag -----

  function ZigZag(n: int): nat { if n < 0 then -2 * n - 1 else 2 * n }

  function UnZigZag(u: nat): int { if u % 2 == 0 then u / 2 else -((u / 2) as int) - 1 }

  /** Signed values keep their width: the fold is a bijection between the signed and unsigned ranges. */
  lemma ZigZagBijective(w: Width, n: int, u: nat)
    ensures UnZigZag(ZigZag(n)) == n
    ensures ZigZag(UnZigZag(u)) == u
    ensures ZigZag(n) < Limit(w) <==> -(Limit(w) as int) <= 2 * n < Limit(w)
  {}

  // ----- encoding -----

  function Encode(t: Ty, v: Value): seq<byte>
    requires HasType(v, t)
    decreases t, 0, 0
  {
    match t
    case U8 => [v.n]
    case I8 => [v.n % 0x100]
    case Unsigned(w) => EncodeVarint(v.n)
    case Signed(w) => EncodeVarint(ZigZag(v.n))
    case Bool => [if v.b then 1 else 0]
    case F32 => Le32(v.bits)
    case F64 => Le64(v.bits)
    case Text => EncodeBytes(v.s)
    case Opt(t1) => if v.NoneV? then [0] else [1] + Encode(t1, v.v)
    case List(t1) => EncodeVarint(|v.vs|) + EncodeList(t1, v.vs)
    case Tuple(ts) => EncodeTuple(ts, v.vs)
    case Enum(cs) => EncodeVarint(v.variant) + Encode(cs[v.variant], v.fields)
  }

  function EncodeList(t: Ty, vs: seq<Value>): seq<byte>
    requires forall i :: 0 <= i < |vs| ==> HasType(vs[i], t)
    decreases t, 1, |vs|
  {
    if vs == [] then [] else Encode(t, vs[0]) + EncodeList(t, vs[1..])
  }

  function EncodeTuple(ts: seq<Ty>, vs: seq<Value>): seq<byte>
    requires HaveTypes(vs, ts)
    decreases ts, 0, 0
  {
    if ts == [] then [] else Encode(ts[0], vs[0]) + EncodeTuple(ts[1..], vs[1..])
  }

  /** The bytes of each type of value, scalars first. */
  lemma ScalarLayout(n: int, w: Width, bits: nat, s: Str)
    ensures 0 <= n < 0x100 ==> Encode(U8, IntV(n)) == [n]
    ensures -0x80 <= n < 0 ==> Encode(I8, IntV(n)) == [0x100 + n]
    ensures 0 <= n < 0x80 ==> Encode(I8, IntV(n)) == [n]
    ensures 0 <= n < Limit(w) ==> Encode(Unsigned(w), IntV(n)) == EncodeVarint(n)
    ensures 0 <= 2 * n < Limit(w) ==> Encode(Signed(w), IntV(n)) == EncodeVarint(2 * n)
    ensures -(Limit(w) as int) <= 2 * n < 0 ==> Encode(Signed(w), IntV(n)) == EncodeVarint(-2 * n - 1)
    ensures Encode(Bool, BoolV(false)) == [0] && Encode(Bool, BoolV(true)) == [1]
    ensures bits < U32_LIMIT ==> Encode(F32, FloatV(bits)) == Le32(bits)
    ensures bits < U64_LIMIT ==> Encode(F64, FloatV(bits)) == Le64(bits)
    ensures |s| < U64_LIMIT ==> Encode(Text, StrV(s)) == EncodeVarint(|s|) + s
  {}

  lemma OptLayout(t: Ty, v: Value)
    requires HasType(v, t)
    ensures Encode(Opt(t), NoneV) == [0] && Encode(Opt(t), SomeV(v)) == [1] + Encode(t, v)
  {}

  /** A list is its length and then its elements in order. */
  lemma ListLayout(t: Ty, vs: seq<Value>)
    requires HasType(ListV(vs), List(t))
    ensures Encode(List(t), ListV(vs)) == EncodeVarint(|vs|) + EncodeList(t, vs)
    ensures EncodeList(t, vs) == if vs == [] then [] else Encode(t, vs[0]) + EncodeList(t, vs[1..])
  {}

  /** A tuple is its elements in order, with no header. */
  lemma TupleLayout(ts: seq<Ty>, vs: seq<Value>)
    requires HaveTypes(vs, ts)
    ensures Encode(Tuple(ts), TupleV(vs)) ==
      if ts == [] then [] else Encode(ts[0], vs[0]) + Encode(Tuple(ts[1..]), TupleV(vs[1..]))
  {}

  lemma EnumLayout(cs: seq<Ty>, i: nat, v: Value)
    requires HasType(EnumV(i, v), Enum(cs))
    ensures Encode(Enum(cs), EnumV(i, v)) == EncodeVarint(i) + Encode(cs[i], v)
  {}

  // ----- decoding -----

  function MapParse(p: Parse<nat>, f: nat -> Value): Parse<Value> {
    match p
    case Malformed => Malformed
    case Parsed(n, rest) => Parsed(f(n), rest)
  }

  function Decode(t: Ty, b: seq<byte>): (p: Parse<Value>)
    decreases t, 0, 0
  {
    match t
    case U8 => if b == [] then Malformed else Parsed(IntV(b[0]), b[1..])
    case I8 => if b == [] then Malformed else Parsed(IntV(if b[0] < 0x80 then b[0] else b[0] as int - 0x100), b[1..])
    case Unsigned(w) => MapParse(DecodeVarint(w, b), (n: nat) => IntV(n))
    case Signed(w) => MapParse(DecodeVarint(w, b), (n: nat) => IntV(UnZigZag(n)))
    case Bool => if b == [] || b[0] > 1 then Malformed else Parsed(BoolV(b[0] == 1), b[1..])
    case F32 => if |b| < 4 then Malformed else Parsed(FloatV(OfLe32(b[..4])), b[4..])
    case F64 => if |b| < 8 then Malformed else Parsed(FloatV(OfLe64(b[..8])), b[8..])
    case Text => (match DecodeStr(b) case Malformed => Malformed case Parsed(s, rest) => Parsed(StrV(s), rest))
    case Opt(t1) =>
      if b == [] || b[0] > 1 then Malformed
      else if b[0] == 0 then Parsed(NoneV, b[1..])
      else (match Decode(t1, b[1..]) case Malformed => Malformed case Parsed(v, rest) => Parsed(SomeV(v), rest))
    case List(t1) =>
      (match DecodeVarint(W64, b)
       case Malformed => Malformed
       case Parsed(n, b1) =>
         match DecodeList(t1, n, b1) case Malformed => Malformed case Parsed(vs, rest) => Parsed(ListV(vs), rest))
    case Tuple(ts) =>
      (match DecodeTuple(ts, b) case Malformed => Malformed case Parsed(vs, rest) => Parsed(TupleV(vs), rest))
    case Enum(cs) =>
      (match DecodeVarint(W32, b)
       case Malformed => Malformed
       case Parsed(i, b1) =>
         if i >= |cs| then Malformed
         else match Decode(cs[i], b1) case Malformed => Malformed case Parsed(v, rest) => Parsed(EnumV(i, v), rest))
  }

  function DecodeList(t: Ty, n: nat, b: seq<byte>): Parse<seq<Value>>
    decreases t, 1, n
  {
    if n == 0 then Parsed([], b)
    else
      match Decode(t, b)
      case Malformed => Malformed
      case Parsed(v, b1) =>
        match DecodeList(t, n - 1, b1)
        case Malformed => Malformed
        case Parsed(vs, rest) => Parsed([v] + vs, rest)
  }

  function DecodeTuple(ts: seq<Ty>, b: seq<byte>): Parse<seq<Value>>
    decreases ts, 0, 0
  {
    if ts == [] then Parsed([], b)
    else
      match Decode(ts[0], b)
      case Malformed => Malformed
      case Parsed(v, b1) =>
        match DecodeTuple(ts[1..], b1)
        case Malformed => Malformed
        case Parsed(vs, rest) => Parsed([v] + vs, rest)
  }

  // ----- round trips -----

  predicate Survives(t: Ty, v: Value, tail: seq<byte>)
    requires HasType(v, t)
  { Decode(t, Encode(t, v) + tail) == Parsed(v, tail) }

  lemma ByteRoundTrip(t: Ty, v: Value, tail: seq<byte>)
    requires HasType(v, t) && (t.U8? || t.I8? || t.Bool?)
    ensures Survives(t, v, tail)
  {
    assert (Encode(t, v) + tail)[1..] == tail;
  }

  lemma IntegerRoundTrip(t: Ty, v: Value, tail: seq<byte>)
    requires HasType(v, t) && (t.Unsigned? || t.Signed?)
    ensures Survives(t, v, tail)
  {
    if t.Unsigned? {
      VarintRoundTrip(t.w, v.n, tail);
    } else {
      ZigZagBijective(t.w, v.n, 0);
      VarintRoundTrip(t.w, ZigZag(v.n), tail);
    }
  }

  lemma FloatRoundTrip(t: Ty, v: Value, tail: seq<byte>)
    requires HasType(v, t) && (t.F32? || t.F64?)
    ensures Survives(t, v, tail)
  {
    var b := Encode(t, v) + tail;
    if t.F32? {
      assert b[..4] == Le32(v.bits) && b[4..] == tail;
      Le32RoundTrip(v.bits);
    } else {
      assert b[..8] == Le64(v.bits) && b[8..] == tail;
      Le64RoundTrip(v.bits);
    }
  }

  predicate ListSurvives(t: Ty, vs: seq<Value>, tail: seq<byte>)
    requires forall i :: 0 <= i < |vs| ==> HasType(vs[i], t)
  { DecodeList(t, |vs|, EncodeList(t, vs) + tail) == Parsed(vs, tail) }

  lemma OptTag(t: Ty, tag: byte, rest: seq<byte>)
    ensures tag == 0 ==> Decode(Opt(t), [tag] + rest) == Parsed(NoneV, rest)
    ensures tag == 1 && Decode(t, rest).Parsed? ==>
      Decode(Opt(t), [tag] + rest) == Parsed(SomeV(Decode(t, rest).value), Decode(t, rest).rest)
  {
    assert ([tag] + rest)[1..] == rest;
  }

  lemma AroundOpt(t: Ty, v: Value, tail: seq<byte>)
    requires HasType(v, Opt(t)) && (v.SomeV? ==> Survives(t, v.v, tail))
    ensures Survives(Opt(t), v, tail)
  {
    if v.NoneV? {
      OptTag(t, 0, tail);
    } else {
      OptTag(t, 1, Encode(t, v.v) + tail);
      assert ([1] + Encode(t, v.v)) + tail == [1] + (Encode(t, v.v) + tail);
    }
  }

  lemma DecodeListAt(t: Ty, b: seq<byte>, vs: seq<Value>, items: seq<byte>, tail: seq<byte>)
    requires DecodeVarint(W64, b) == Parsed(|vs|, items) && DecodeList(t, |vs|, items) == Parsed(vs, tail)
    ensures Decode(List(t), b) == Parsed(ListV(vs), tail)
  {}

  lemma LengthOfList(t: Ty, vs: seq<Value>, tail: seq<byte>)
    requires HasType(ListV(vs), List(t))
    ensures DecodeVarint(W64, Encode(List(t), ListV(vs)) + tail) == Parsed(|vs|, EncodeList(t, vs) + tail)
  {
    VarintRoundTrip(W64, |vs|, EncodeList(t, vs) + tail);
    Reassociate(EncodeVarint(|vs|), EncodeList(t, vs), tail);
  }

  lemma AroundList(t: Ty, vs: seq<Value>, tail: seq<byte>)
    requires HasType(ListV(vs), List(t)) && ListSurvives(t, vs, tail)
    ensures Survives(List(t), ListV(vs), tail)
  {
    LengthOfList(t, vs, tail);
    DecodeListAt(t, Encode(List(t), ListV(vs)) + tail, vs, EncodeList(t, vs) + tail, tail);
  }

  lemma FirstOfList(t: Ty, vs: seq<Value>, tail: seq<byte>)
    requires vs != [] && forall i :: 0 <= i < |vs| ==> HasType(vs[i], t)
    ensures EncodeList(t, vs) + tail == Encode(t, vs[0]) + (EncodeList(t, vs[1..]) + tail)
  {}

  lemma DecodeCons(t: Ty, v: Value, vs: seq<Value>, more: seq<byte>, tail: seq<byte>)
    requires HasType(v, t) && Survives(t, v, more) && DecodeList(t, |vs|, more) == Parsed(vs, tail)
    ensures DecodeList(t, 1 + |vs|, Encode(t, v) + more) == Parsed([v] + vs, tail)
  {}

  lemma AroundCons(t: Ty, vs: seq<Value>, tail: seq<byte>)
    requires vs != [] && forall i :: 0 <= i < |vs| ==> HasType(vs[i], t)
    requires Survives(t, vs[0], EncodeList(t, vs[1..]) + tail) && ListSurvives(t, vs[1..], tail)
    ensures ListSurvives(t, vs, tail)
  {
    FirstOfList(t, vs, tail);
    DecodeCons(t, vs[0], vs[1..], EncodeList(t, vs[1..]) + tail, tail);
    HeadTail(vs);
  }

  lemma DecodeEnumAt(cs: seq<Ty>, b: seq<byte>, i: nat, v: Value, fields: seq<byte>, tail: seq<byte>)
    requires i < |cs| && DecodeVarint(W32, b) == Parsed(i, fields) && Decode(cs[i], fields) == Parsed(v, tail)
    ensures Decode(Enum(cs), b) == Parsed(EnumV(i, v), tail)
  {}

  lemma VariantOfEnum(cs: seq<Ty>, i: nat, v: Value, tail: seq<byte>)
    requires HasType(EnumV(i, v), Enum(cs))
    ensures DecodeVarint(W32, Encode(Enum(cs), EnumV(i, v)) + tail) == Parsed(i, Encode(cs[i], v) + tail)
  {
    VarintRoundTrip(W32, i, Encode(cs[i], v) + tail);
    Reassociate(EncodeVarint(i), Encode(cs[i], v), tail);
  }

  lemma AroundEnum(cs: seq<Ty>, i: nat, v: Value, tail: seq<byte>)
    requires HasType(EnumV(i, v), Enum(cs)) && Survives(cs[i], v, tail)
    ensures Survives(Enum(cs), EnumV(i, v), tail)
  {
    VariantOfEnum(cs, i, v, tail);
    DecodeEnumAt(cs, Encode(Enum(cs), EnumV(i, v)) + tail, i, v, Encode(cs[i], v) + tail, tail);
  }

  /** Every typed value survives encoding and decoding, whatever follows, and exactly its bytes are read. */
  lemma {:induction false} ValueRoundTrip(t: Ty, v: Value, tail: seq<byte>)
    requires HasType(v, t)
    ensures Decode(t, Encode(t, v) + tail) == Parsed(v, tail)
    decreases t, 0, 0
  {
    match t
    case Opt(t1) =>
      if v.SomeV? { ValueRoundTrip(t1, v.v, tail); }
      AroundOpt(t1, v, tail);
    case List(t1) =>
      ListRoundTrip(t1, v.vs, tail);
      AroundList(t1, v.vs, tail);
    case Tuple(ts) => TupleRoundTrip(ts, v.vs, tail);
    case Enum(cs) =>
      ValueRoundTrip(cs[v.variant], v.fields, tail);
      AroundEnum(cs, v.variant, v.fields, tail);
    case Text => BytesRoundTrip(v.s, tail);
    case Unsigned(_) => IntegerRoundTrip(t, v, tail);
    case Signed(_) => IntegerRoundTrip(t, v, tail);
    case F32 => FloatRoundTrip(t, v, tail);
    case F64 => FloatRoundTrip(t, v, tail);
    case _ => ByteRoundTrip(t, v, tail);
  }

  lemma {:induction false} ListRoundTrip(t: Ty, vs: seq<Value>, tail: seq<byte>)
    requires forall i :: 0 <= i < |vs| ==> HasType(vs[i], t)
    ensures ListSurvives(t, vs, tail)
    decreases t, 1, |vs|
  {
    if vs == [] {
      assert EncodeList(t, vs) + tail == tail;
    } else {
      ValueRoundTrip(t, vs[0], EncodeList(t, vs[1..]) + tail);
      ListRoundTrip(t, vs[1..], tail);
      AroundCons(t, vs, tail);
    }
  }

  lemma {:induction false} TupleRoundTrip(ts: seq<Ty>, vs: seq<Value>, tail: seq<byte>)
    requires HaveTypes(vs, ts)
    ensures DecodeTuple(ts, EncodeTuple(ts, vs) + tail) == Parsed(vs, tail)
    decreases ts, 0, 0
  {
    if ts == [] {
      assert EncodeTuple(ts, vs) + tail == tail;
    } else {
      var more := EncodeTuple(ts[1..], vs[1..]) + tail;
      assert EncodeTuple(ts, vs) + tail == Encode(ts[0], vs[0]) + more;
      ValueRoundTrip(ts[0], vs[0], more);
      TupleRoundTrip(ts[1..], vs[1..], tail);
      assert [vs[0]] + vs[1..] == vs;
    }
  }

  // ----- what decoders deliver -----

  /** Whatever bytes the peer sent, a successful decode yields a value of the requested type. */
  lemma {:induction false} DecodeSound(t: Ty, b: seq<byte>)
    requires Decode(t, b).Parsed?
    ensures HasType(Decode(t, b).value, t)
    decreases t, 0, 0
  {
    match t
    case U8 =>
    case I8 =>
    case Unsigned(_) =>
    case Signed(w) => ZigZagBijective(w, UnZigZag(DecodeVarint(w, b).value), DecodeVarint(w, b).value);
    case Bool =>
    case F32 =>
    case F64 =>
    case Text =>
    case Opt(t1) => if b[0] == 1 { DecodeSound(t1, b[1..]); }
    case List(t1) =>
      var p := DecodeVarint(W64, b);
      DecodeListSound(t1, p.value, p.rest);
    case Tuple(ts) => DecodeTupleSound(ts, b);
    case Enum(cs) =>
      var p := DecodeVarint(W32, b);
      DecodeSound(cs[p.value], p.rest);
  }

  lemma {:induction false} DecodeListSound(t: Ty, n: nat, b: seq<byte>)
    requires DecodeList(t, n, b).Parsed?
    ensures var vs := DecodeList(t, n, b).value;
      |vs| == n && forall i :: 0 <= i < n ==> HasType(vs[i], t)
    decreases t, 1, n
  {
    if n > 0 {
      DecodeSound(t, b);
      DecodeListSound(t, n - 1, Decode(t, b).rest);
    }
  }

  lemma {:induction false} DecodeTupleSound(ts: seq<Ty>, b: seq<byte>)
    requires DecodeTuple(ts, b).Parsed?
    ensures HaveTypes(DecodeTuple(ts, b).value, ts)
    decreases ts, 0, 0
  {
    if ts != [] {
      DecodeSound(ts[0], b);
      DecodeTupleSound(ts[1..], Decode(ts[0], b).rest);
      var v, vs := Decode(ts[0], b).value, DecodeTuple(ts[1..], Decode(ts[0], b).rest).value;
      assert forall i :: 0 < i < |ts| ==> ts[i] == ts[1..][i - 1] && ([v] + vs)[i] == vs[i - 1];
    }
  }

  // ----- what decoders refuse -----

  /** Tags that mean nothing, and text that is not UTF-8, are refused whatever follows. */
  lemma BadTagsRefused(tag: byte, t: Ty, tail: seq<byte>)
    requires tag > 1
    ensures Decode(Bool, [tag] + tail) == Malformed && Decode(Opt(t), [tag] + tail) == Malformed
  {}

  lemma UnknownCaseRefused(cs: seq<Ty>, b: seq<byte>)
    requires DecodeVarint(W32, b).Malformed? || DecodeVarint(W32, b).value >= |cs|
    ensures Decode(Enum(cs), b) == Malformed
  {}

  lemma NonUtf8Refused(s: seq<byte>, tail: seq<byte>)
    requires |s| < U64_LIMIT && !ValidUtf8(s)
    ensures Decode(Text, EncodeBytes(s) + tail) == Malformed
  {
    BytesRoundTrip(s, tail);
  }

  /** So is a payload that ends early: nothing decodes from no bytes but unit tuples. */
  lemma ShortInputRefused(b: seq<byte>)
    ensures |b| < 1 ==> Decode(U8, b) == Malformed && Decode(I8, b) == Malformed && Decode(Bool, b) == Malformed
    ensures |b| < 4 ==> Decode(F32, b) == Malformed
    ensures |b| < 8 ==> Decode(F64, b) == Malformed
  {}

  // ----- argument tuples across trait revisions -----

  lemma TypesAppend(ts: seq<Ty>, vs: seq<Value>, more: seq<Ty>, extra: seq<Value>)
    requires HaveTypes(vs, ts) && HaveTypes(extra, more)
    ensures HaveTypes(vs + extra, ts + more)
  {
    forall i | 0 <= i < |ts + more|
      ensures HasType((vs + extra)[i], (ts + more)[i])
    {
      if i >= |ts| { assert HasType(extra[i - |ts|], more[i - |ts|]); }
    }
  }

  lemma FirstOfTuple(ts: seq<Ty>, vs: seq<Value>, more: seq<Ty>, extra: seq<Value>)
    requires ts != [] && HaveTypes(vs, ts) && HaveTypes(vs + extra, ts + more)
    requires HaveTypes(vs[1..] + extra, ts[1..] + more)
    ensures EncodeTuple(ts + more, vs + extra)
         == Encode(ts[0], vs[0]) + EncodeTuple(ts[1..] + more, vs[1..] + extra)
  {
    assert (ts + more)[1..] == ts[1..] + more;
    assert (vs + extra)[1..] == vs[1..] + extra;
  }

  lemma {:induction false} TupleAppend(ts: seq<Ty>, vs: seq<Value>, more: seq<Ty>, extra: seq<Value>)
    requires HaveTypes(vs, ts) && HaveTypes(extra, more)
    ensures HaveTypes(vs + extra, ts + more)
    ensures EncodeTuple(ts + more, vs + extra) == EncodeTuple(ts, vs) + EncodeTuple(more, extra)
    decreases ts
  {
    if ts == [] {
      assert ts + more == more && vs + extra == extra;
    } else {
      TypesAppend(ts, vs, more, extra);
      TupleAppend(ts[1..], vs[1..], more, extra);
      FirstOfTuple(ts, vs, more, extra);
      Reassociate(Encode(ts[0], vs[0]), EncodeTuple(ts[1..], vs[1..]), EncodeTuple(more, extra));
    }
  }

  /** A longer argument tuple read with a shorter parameter list decodes as its prefix, silently. */
  lemma LongerTupleDecodesAsPrefix(ts: seq<Ty>, vs: seq<Value>, more: seq<Ty>, extra: seq<Value>)
    requires HaveTypes(vs, ts) && HaveTypes(extra, more)
    ensures HaveTypes(vs + extra, ts + more)
    ensures DecodeTuple(ts, EncodeTuple(ts + more, vs + extra)) == Parsed(vs, EncodeTuple(more, extra))
  {
    TupleAppend(ts, vs, more, extra);
    TupleRoundTrip(ts, vs, EncodeTuple(more, extra));
  }

  /** Types whose encoding is empty: the unit tuple and tuples of such types. */
  predicate ZeroWidth(t: Ty)
    decreases t
  {
    t.Tuple? && forall i :: 0 <= i < |t.ts| ==> ZeroWidth(t.ts[i])
  }

  lemma {:induction false} EmptyInput(t: Ty)
    ensures Decode(t, []).Parsed? <==> ZeroWidth(t)
    ensures Decode(t, []).Parsed? ==> Decode(t, []).rest == []
    decreases t, 0
  {
    if t.Tuple? {
      EmptyInputTuple(t.ts);
    }
  }

  lemma {:induction false} EmptyInputTuple(ts: seq<Ty>)
    ensures DecodeTuple(ts, []).Parsed? <==> forall i :: 0 <= i < |ts| ==> ZeroWidth(ts[i])
    ensures DecodeTuple(ts, []).Parsed? ==> DecodeTuple(ts, []).rest == []
    decreases ts, 0
  {
    if ts != [] {
      EmptyInput(ts[0]);
      EmptyInputTuple(ts[1..]);
      assert forall i :: 0 < i < |ts| ==> ts[i] == ts[1..][i - 1];
    }
  }

  lemma {:induction false} TupleSplit(ts: seq<Ty>, vs: seq<Value>, more: seq<Ty>)
    requires HaveTypes(vs, ts)
    ensures DecodeTuple(ts + more, EncodeTuple(ts, vs)).Parsed? <==> DecodeTuple(more, []).Parsed?
    decreases ts
  {
    if ts == [] {
      assert ts + more == more;
    } else {
      ValueRoundTrip(ts[0], vs[0], EncodeTuple(ts[1..], vs[1..]));
      assert (ts + more)[1..] == ts[1..] + more;
      TupleSplit(ts[1..], vs[1..], more);
    }
  }

  /** A shorter argument tuple read with a longer parameter list is refused if and only if some
      missing parameter has a non-empty encoding. */
  lemma ShorterTupleRefused(ts: seq<Ty>, vs: seq<Value>, more: seq<Ty>)
    requires HaveTypes(vs, ts)
    ensures DecodeTuple(ts + more, EncodeTuple(ts, vs)) == Malformed
       <==> exists i :: 0 <= i < |more| && !ZeroWidth(more[i])
  {
    TupleSplit(ts, vs, more);
    EmptyInputTuple(more);
  }

  /** Concrete payloads: a pair of signed integers, options, a signed byte, a boolean. */
  lemma PayloadExamples()
    ensures Encode(Tuple([Signed(W32), Signed(W32)]), TupleV([IntV(2), IntV(-10)])) == [4, 19]
    ensures Encode(Opt(U8), SomeV(IntV(7))) == [1, 7] && Encode(Opt(U8), NoneV) == [0]
    ensures Encode(I8, IntV(-1)) == [0xFF] && Encode(Bool, BoolV(true)) == [1]
  {
    assert EncodeTuple([Signed(W32)], [IntV(-10)]) == Encode(Signed(W32), IntV(-10)) + EncodeTuple([], []);
    assert [Signed(W32), Signed(W32)][1..] == [Signed(W32)];
    assert [IntV(2), IntV(-10)][1..] == [IntV(-10)];
  }
}
