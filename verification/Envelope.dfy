/** `Envelope` and its bincode body: variant index, then the fields in declaration order. */
module Envelopes {
  import opened Primitives
  import opened Varint

  datatype RequestData = RequestData(id: u64, methodName: Str, payload: seq<byte>)

  datatype Envelope =
    | Request(req: RequestData)
    | Response(id: u64, payload: seq<byte>)
    | Error(id: u64, code: u16, message: Str)
    | Heartbeat

  /** What a read loop can wake up with; only the client's watches a token. */
  datatype Incoming = Received(env: Envelope) | Unreadable | EndOfStream | TokenSeen

  /** Some event breaks the loop: a read loop never just runs out of events. */
  predicate Breaks(events: seq<Incoming>) { exists i :: 0 <= i < |events| && !events[i].Received? }

  /** The envelopes a read loop handles: those before the first event that breaks it. */
  function LeadingFrames(events: seq<Incoming>): seq<Envelope> {
    if events == [] || !events[0].Received? then [] else [events[0].env] + LeadingFrames(events[1..])
  }

  lemma BreaksLater(events: seq<Incoming>)
    requires Breaks(events) && events[0].Received?
    ensures Breaks(events[1..])
  {
    var i :| 0 <= i < |events| && !events[i].Received?;
    assert events[1..][i - 1] == events[i];
  }

  /** Lengths fit Rust's 64-bit `usize`; every in-memory envelope satisfies this. */
  predicate Sized(e: Envelope) {
    match e
    case Request(r) => |r.methodName| < U64_LIMIT && |r.payload| < U64_LIMIT
    case Response(_, payload) => |payload| < U64_LIMIT
    case Error(_, _, message) => |message| < U64_LIMIT
    case Heartbeat => true
  }

  function EncodeBytes(b: seq<byte>): seq<byte>
    requires |b| < U64_LIMIT
  { EncodeVarint(|b|) + b }

  function DecodeBytes(b: seq<byte>): (p: Parse<seq<byte>>)
    ensures p.Parsed? ==> |p.value| < U64_LIMIT && |p.rest| < |b|
  {
    match DecodeVarint(W64, b)
    case Malformed => Malformed
    case Parsed(n, rest) => if n <= |rest| then Parsed(rest[..n], rest[n..]) else Malformed
  }

  function DecodeStr(b: seq<byte>): (p: Parse<Str>)
    ensures p.Parsed? ==> |p.value| < U64_LIMIT && |p.rest| < |b|
  {
    match DecodeBytes(b)
    case Malformed => Malformed
    case Parsed(s, rest) => if ValidUtf8(s) then Parsed(s, rest) else Malformed
  }

  function EncodeBody(e: Envelope): seq<byte>
    requires Sized(e)
  {
    match e
    case Request(r) => EncodeVarint(0) + (EncodeVarint(r.id) + (EncodeBytes(r.methodName) + EncodeBytes(r.payload)))
    case Response(id, payload) => EncodeVarint(1) + (EncodeVarint(id) + EncodeBytes(payload))
    case Error(id, code, message) => EncodeVarint(2) + (EncodeVarint(id) + (EncodeVarint(code) + EncodeBytes(message)))
    case Heartbeat => EncodeVarint(3)
  }

  /** The bytes of each variant: its number, then the fields in order, byte strings after their length. */
  lemma RequestLayout(r: RequestData)
    requires Sized(Request(r))
    ensures EncodeBody(Request(r)) ==
      [0] + EncodeVarint(r.id) + EncodeVarint(|r.methodName|) + r.methodName + EncodeVarint(|r.payload|) + r.payload
  {}

  lemma ResponseLayout(id: u64, payload: seq<byte>)
    requires |payload| < U64_LIMIT
    ensures EncodeBody(Response(id, payload)) == [1] + EncodeVarint(id) + EncodeVarint(|payload|) + payload
  {}

  lemma ErrorLayout(id: u64, code: u16, message: Str)
    requires |message| < U64_LIMIT
    ensures EncodeBody(Error(id, code, message)) ==
      [2] + EncodeVarint(id) + EncodeVarint(code) + EncodeVarint(|message|) + message
  {}

  lemma HeartbeatLayout()
    ensures EncodeBody(Heartbeat) == [3]
  {}

  function DecodeRequest(b: seq<byte>): Parse<Envelope> {
    match DecodeVarint(W64, b)
    case Malformed => Malformed
    case Parsed(id, b1) =>
      match DecodeStr(b1)
      case Malformed => Malformed
      case Parsed(methodName, b2) =>
        match DecodeBytes(b2)
        case Malformed => Malformed
        case Parsed(payload, b3) => Parsed(Request(RequestData(id, methodName, payload)), b3)
  }

  function DecodeResponse(b: seq<byte>): Parse<Envelope> {
    match DecodeVarint(W64, b)
    case Malformed => Malformed
    case Parsed(id, b1) =>
      match DecodeBytes(b1)
      case Malformed => Malformed
      case Parsed(payload, b2) => Parsed(Response(id, payload), b2)
  }

  function DecodeError(b: seq<byte>): Parse<Envelope> {
    match DecodeVarint(W64, b)
    case Malformed => Malformed
    case Parsed(id, b1) =>
      match DecodeVarint(W16, b1)
      case Malformed => Malformed
      case Parsed(code, b2) =>
        match DecodeStr(b2)
        case Malformed => Malformed
        case Parsed(message, b3) => Parsed(Error(id, code, message), b3)
  }

  function DecodeBody(b: seq<byte>): Parse<Envelope> {
    match DecodeVarint(W32, b)
    case Malformed => Malformed
    case Parsed(tag, rest) =>
      if tag == 0 then DecodeRequest(rest)
      else if tag == 1 then DecodeResponse(rest)
      else if tag == 2 then DecodeError(rest)
      else if tag == 3 then Parsed(Heartbeat, rest)
      else Malformed
  }

  /** A variant number that does not exist, or does not fit 32 bits, is refused, in whatever form it is written. */
  lemma UnknownVariantRefused(b: seq<byte>)
    requires DecodeVarint(W32, b).Malformed? || DecodeVarint(W32, b).value >= 4
    ensures DecodeBody(b) == Malformed
  {}

  /** A string field is refused exactly when its bytes are missing or not UTF-8. */
  lemma StringsAreUtf8(b: seq<byte>)
    ensures DecodeStr(b).Parsed? <==> DecodeBytes(b).Parsed? && ValidUtf8(DecodeBytes(b).value)
    ensures DecodeStr(b).Parsed? ==> DecodeStr(b).value == DecodeBytes(b).value
  {}

  /** A byte string is refused exactly when its length cannot be read or announces more than there is. */
  lemma BytesAcceptedIff(b: seq<byte>)
    ensures DecodeBytes(b).Parsed? <==>
      var n := DecodeVarint(W64, b); n.Parsed? && n.value <= |n.rest|
  {}

  lemma BytesRoundTrip(s: seq<byte>, tail: seq<byte>)
    requires |s| < U64_LIMIT
    ensures DecodeBytes(EncodeBytes(s) + tail) == Parsed(s, tail)
    ensures ValidUtf8(s) ==> DecodeStr(EncodeBytes(s) + tail) == Parsed(s, tail)
    ensures |EncodeBytes(s)| == VarintLength(|s|) + |s|
  {
    VarintRoundTrip(W64, |s|, s + tail);
    assert EncodeBytes(s) + tail == EncodeVarint(|s|) + (s + tail);
    assert (s + tail)[..|s|] == s && (s + tail)[|s|..] == tail;
  }

  lemma BytesExtends(b: seq<byte>, tail: seq<byte>)
    requires DecodeBytes(b).Parsed?
    ensures DecodeBytes(b + tail) == Parsed(DecodeBytes(b).value, DecodeBytes(b).rest + tail)
  {
    VarintExtends(W64, b, tail);
    var p := DecodeVarint(W64, b);
    assert (p.rest + tail)[..p.value] == p.rest[..p.value];
    assert (p.rest + tail)[p.value..] == p.rest[p.value..] + tail;
  }

  lemma ReassociateFour(a: seq<byte>, b: seq<byte>, c: seq<byte>, d: seq<byte>, tail: seq<byte>)
    ensures (a + (b + (c + d))) + tail == a + (b + (c + (d + tail)))
  {}

  lemma RequestRoundTrip(r: RequestData, tail: seq<byte>)
    requires Sized(Request(r))
    ensures DecodeRequest(EncodeVarint(r.id) + (EncodeBytes(r.methodName) + (EncodeBytes(r.payload) + tail)))
         == Parsed(Request(r), tail)
  {
    var t3 := EncodeBytes(r.payload) + tail;
    VarintRoundTrip(W64, r.id, EncodeBytes(r.methodName) + t3);
    BytesRoundTrip(r.methodName, t3);
    BytesRoundTrip(r.payload, tail);
  }

  lemma ResponseRoundTrip(id: u64, payload: seq<byte>, tail: seq<byte>)
    requires |payload| < U64_LIMIT
    ensures DecodeResponse(EncodeVarint(id) + (EncodeBytes(payload) + tail)) == Parsed(Response(id, payload), tail)
  {
    VarintRoundTrip(W64, id, EncodeBytes(payload) + tail);
    BytesRoundTrip(payload, tail);
  }

  lemma ErrorRoundTrip(id: u64, code: u16, message: Str, tail: seq<byte>)
    requires |message| < U64_LIMIT
    ensures DecodeError(EncodeVarint(id) + (EncodeVarint(code) + (EncodeBytes(message) + tail)))
         == Parsed(Error(id, code, message), tail)
  {
    var t3 := EncodeBytes(message) + tail;
    VarintRoundTrip(W64, id, EncodeVarint(code) + t3);
    VarintRoundTrip(W16, code, t3);
    BytesRoundTrip(message, tail);
  }

  /** Decoding an encoding followed by anything gives the envelope back and leaves exactly the tail. */
  lemma BodyRoundTrip(e: Envelope, tail: seq<byte>)
    requires Sized(e)
    ensures DecodeBody(EncodeBody(e) + tail) == Parsed(e, tail)
  {
    match e
    case Request(r) =>
      ReassociateFour(EncodeVarint(0), EncodeVarint(r.id), EncodeBytes(r.methodName), EncodeBytes(r.payload), tail);
      VarintRoundTrip(W32, 0, EncodeVarint(r.id) + (EncodeBytes(r.methodName) + (EncodeBytes(r.payload) + tail)));
      RequestRoundTrip(r, tail);
    case Response(id, payload) =>
      assert EncodeBody(e) + tail == EncodeVarint(1) + (EncodeVarint(id) + (EncodeBytes(payload) + tail));
      VarintRoundTrip(W32, 1, EncodeVarint(id) + (EncodeBytes(payload) + tail));
      ResponseRoundTrip(id, payload, tail);
    case Error(id, code, message) =>
      ReassociateFour(EncodeVarint(2), EncodeVarint(id), EncodeVarint(code), EncodeBytes(message), tail);
      VarintRoundTrip(W32, 2, EncodeVarint(id) + (EncodeVarint(code) + (EncodeBytes(message) + tail)));
      ErrorRoundTrip(id, code, message, tail);
    case Heartbeat =>
      VarintRoundTrip(W32, 3, tail);
  }

  lemma BodyExtends(b: seq<byte>, tail: seq<byte>)
    requires DecodeBody(b).Parsed?
    ensures DecodeBody(b + tail) == Parsed(DecodeBody(b).value, DecodeBody(b).rest + tail)
  {
    VarintExtends(W32, b, tail);
    var p := DecodeVarint(W32, b);
    if p.value != 3 {
      VarintExtends(W64, p.rest, tail);
      var b1 := DecodeVarint(W64, p.rest).rest;
      if p.value == 0 {
        BytesExtends(b1, tail);
        BytesExtends(DecodeBytes(b1).rest, tail);
      } else if p.value == 1 {
        BytesExtends(b1, tail);
      } else {
        VarintExtends(W16, b1, tail);
        BytesExtends(DecodeVarint(W16, b1).rest, tail);
      }
    }
  }

  /** Bodies are prefix-free: no strict prefix of an encoding decodes to anything. */
  lemma BodyPrefixFree(e: Envelope, cut: nat)
    requires Sized(e) && cut < |EncodeBody(e)|
    ensures DecodeBody(EncodeBody(e)[..cut]) == Malformed
  {
    var head, tail := EncodeBody(e)[..cut], EncodeBody(e)[cut..];
    assert head + tail == EncodeBody(e) + [];
    BodyRoundTrip(e, []);
    if DecodeBody(head).Parsed? {
      BodyExtends(head, tail);
    }
  }

  /** Two envelopes whose encodings agree up to any tails are the same envelope and the same tails. */
  lemma BodyInjective(e1: Envelope, t1: seq<byte>, e2: Envelope, t2: seq<byte>)
    requires Sized(e1) && Sized(e2) && EncodeBody(e1) + t1 == EncodeBody(e2) + t2
    ensures e1 == e2 && t1 == t2
  {
    BodyRoundTrip(e1, t1);
    BodyRoundTrip(e2, t2);
  }

  /** Size of a request body: at most 20 bytes over the method and payload while both lengths are
      below 2^32, and exactly 20 over if and only if the id needs 64 bits and both lengths 32. */
  lemma RequestBodySize(r: RequestData)
    requires |r.methodName| < U32_LIMIT && |r.payload| < U32_LIMIT
    ensures |EncodeBody(Request(r))| <= 20 + |r.methodName| + |r.payload|
    ensures |EncodeBody(Request(r))| == 20 + |r.methodName| + |r.payload|
       <==> r.id >= U32_LIMIT && |r.methodName| >= U16_LIMIT && |r.payload| >= U16_LIMIT
  {
    BytesRoundTrip(r.methodName, []);
    BytesRoundTrip(r.payload, []);
    VarintRoundTrip(W64, r.id, []);
    VarintRoundTrip(W64, 0, []);
  }

  /** The bound is reached. */
  lemma RequestBodySizeAttained() returns (r: RequestData)
    ensures |r.methodName| < U32_LIMIT && |r.payload| < U32_LIMIT
    ensures |EncodeBody(Request(r))| == 20 + |r.methodName| + |r.payload|
  {
    var letters := seq(U16_LIMIT, i => 0x61);
    AsciiIsUtf8(letters);
    r := RequestData(U32_LIMIT, letters, letters);
    RequestBodySize(r);
  }
}
