/** The framing layer and `WireCodec`: a stateful incremental decoder over a mutable buffer, proved
    against a pure step function, which in turn refines a parse of the whole byte stream. */
module WireCodecs {
  import opened Primitives
  import opened Varint
  import opened Envelopes

  const DEFAULT_MAX_FRAME_LEN := 64 * 1024 * 1024

  /** Frame caps that the 4-byte prefix can express. */
  type Cap = c: int | 0 <= c < U32_LIMIT

  datatype DecodeState = Head | Data(n: u32)

  datatype WireError = IoError | BodyError

  datatype FrameOut = NeedMore | Frame(body: seq<byte>) | TooLarge

  datatype DecodeOut = Pending | Item(envelope: Envelope) | Failed(error: WireError)

  datatype Stepped<+T> = Stepped(state: DecodeState, buf: seq<byte>, out: T)

  // ----- one call of the decoder, as a function -----

  function FrameStep(cap: Cap, state: DecodeState, buf: seq<byte>): Stepped<FrameOut> {
    if state.Head? then
      if |buf| < 4 then Stepped(Head, buf, NeedMore)
      else if OfBe32(buf[..4]) > cap then Stepped(Head, buf, TooLarge)
      else DataStep(OfBe32(buf[..4]), buf[4..])
    else DataStep(state.n, buf)
  }

  function DataStep(n: u32, buf: seq<byte>): Stepped<FrameOut> {
    if |buf| < n then Stepped(Data(n), buf, NeedMore) else Stepped(Head, buf[n..], Frame(buf[..n]))
  }

  function DecodeStep(cap: Cap, state: DecodeState, buf: seq<byte>): Stepped<DecodeOut> {
    var s := FrameStep(cap, state, buf);
    match s.out
    case NeedMore => Stepped(s.state, s.buf, Pending)
    case TooLarge => Stepped(s.state, s.buf, Failed(IoError))
    case Frame(body) =>
      Stepped(s.state, s.buf, match DecodeBody(body) case Parsed(e, _) => Item(e) case Malformed => Failed(BodyError))
  }

  // ----- encoding, as functions -----

  predicate Fits(cap: Cap, e: Envelope) { Sized(e) && |EncodeBody(e)| <= cap }

  function EncodeFrame(cap: Cap, e: Envelope): seq<byte>
    requires Fits(cap, e)
  { Be32(|EncodeBody(e)|) + EncodeBody(e) }

  function EncodeAll(cap: Cap, es: seq<Envelope>): seq<byte>
    requires forall e :: e in es ==> Fits(cap, e)
  {
    if es == [] then [] else EncodeFrame(cap, es[0]) + EncodeAll(cap, es[1..])
  }

  // ----- the mutable objects -----

  class BytesMut {
    var data: seq<byte>

    constructor ()
      ensures data == []
    { data := []; }

    /** Remove and return the first `n` bytes. */
    method SplitTo(n: nat) returns (front: seq<byte>)
      requires n <= |data|
      modifies this
      ensures front + data == old(data) && |front| == n
    {
      front := data[..n];
      data := data[n..];
    }

    method Extend(bytes: seq<byte>)
      modifies this
      ensures data == old(data) + bytes
    { data := data + bytes; }
  }

  class LengthDelimitedCodec {
    const maxFrameLength: Cap
    var state: DecodeState

    constructor (max: Cap)
      ensures maxFrameLength == max && state == Head
    {
      maxFrameLength := max;
      state := Head;
    }

    /** Reads the 4-byte prefix once it is all there; an oversized one is refused with nothing consumed. */
    method DecodeHead(src: BytesMut) returns (n: Option<u32>, tooLarge: bool)
      modifies src
      ensures tooLarge <==> |old(src.data)| >= 4 && OfBe32(old(src.data)[..4]) > maxFrameLength
      ensures n.Some? <==> |old(src.data)| >= 4 && !tooLarge
      ensures n.Some? ==> old(src.data) == Be32(n.value) + src.data && n.value <= maxFrameLength
      ensures n.None? ==> src.data == old(src.data)
    {
      n, tooLarge := None, false;
      if |src.data| >= 4 {
        var len := OfBe32(src.data[..4]);
        OfBe32RoundTrip(src.data[..4]);
        if len > maxFrameLength {
          tooLarge := true;
        } else {
          var _ := src.SplitTo(4);
          n := Some(len);
        }
      }
    }

    method DecodeFrame(src: BytesMut) returns (r: FrameOut)
      modifies this, src
      ensures Stepped(state, src.data, r) == FrameStep(maxFrameLength, old(state), old(src.data))
    {
      var n: u32 := 0;
      if state.Data? {
        n := state.n;
      } else {
        var head, tooLarge := DecodeHead(src);
        if tooLarge { return TooLarge; }
        if head.None? { return NeedMore; }
        n := head.value;
        state := Data(n);
        Be32RoundTrip(n);
        assert old(src.data)[..4] == Be32(n) && old(src.data)[4..] == src.data;
      }
      if |src.data| < n { return NeedMore; }
      ghost var before := src.data;
      var body := src.SplitTo(n);
      assert before[..n] == body && before[n..] == src.data;
      state := Head;
      return Frame(body);
    }

    method EncodeFrame(body: seq<byte>, dst: BytesMut) returns (ok: bool)
      modifies dst
      ensures ok <==> |body| <= maxFrameLength
      ensures dst.data == old(dst.data) + if ok then Be32(|body|) + body else []
    {
      if |body| > maxFrameLength { return false; }
      dst.Extend(Be32(|body|));
      dst.Extend(body);
      return true;
    }
  }

  class WireCodec {
    const inner: LengthDelimitedCodec

    constructor ()
      ensures fresh(inner) && inner.maxFrameLength == DEFAULT_MAX_FRAME_LEN && inner.state == Head
    { inner := new LengthDelimitedCodec(DEFAULT_MAX_FRAME_LEN); }

    constructor WithMaxFrameLength(max: Cap)
      ensures fresh(inner) && inner.maxFrameLength == max && inner.state == Head
    { inner := new LengthDelimitedCodec(max); }

    method Decode(src: BytesMut) returns (r: DecodeOut)
      modifies inner, src
      ensures Stepped(inner.state, src.data, r) == DecodeStep(inner.maxFrameLength, old(inner.state), old(src.data))
    {
      var frame := inner.DecodeFrame(src);
      match frame
      case NeedMore => return Pending;
      case TooLarge => return Failed(IoError);
      case Frame(body) =>
        match DecodeBody(body)
        case Parsed(e, _) => return Item(e);
        case Malformed => return Failed(BodyError);
    }

    /** Succeeds exactly when the body is within the cap, and then appends exactly one frame. */
    method Encode(item: Envelope, dst: BytesMut) returns (ok: bool)
      requires Sized(item)
      modifies dst
      ensures ok <==> Fits(inner.maxFrameLength, item)
      ensures dst.data == old(dst.data) + if ok then EncodeFrame(inner.maxFrameLength, item) else []
    {
      ok := inner.EncodeFrame(EncodeBody(item), dst);
    }
  }

  // ----- the whole stream -----

  /** `leftover` is what remains unparsed; `error` is why the stream stopped, if it did. */
  datatype Parsing = Parsing(items: seq<Envelope>, leftover: seq<byte>, error: Option<WireError>)

  /** Reference meaning of a byte stream: no decoder state, no buffer, all the bytes at once. */
  function ParseStream(cap: Cap, b: seq<byte>): (p: Parsing)
    ensures |p.leftover| <= |b|
    decreases |b|
  {
    if |b| < 4 then Parsing([], b, None)
    else
      var n := OfBe32(b[..4]);
      if n > cap then Parsing([], b, Some(IoError))
      else if |b| < 4 + n then Parsing([], b, None)
      else
        match DecodeBody(b[4..4 + n])
        case Malformed => Parsing([], b[4 + n..], Some(BodyError))
        case Parsed(e, _) =>
          var p := ParseStream(cap, b[4 + n..]);
          p.(items := [e] + p.items)
  }

  /** The bytes a decoder state and buffer stand for: a consumed prefix is put back. */
  function Residual(state: DecodeState, buf: seq<byte>): seq<byte> {
    if state.Data? then Be32(state.n) + buf else buf
  }

  predicate Consistent(cap: Cap, state: DecodeState) { state.Data? ==> state.n <= cap }

  /** The state a reader is in: what it has delivered so far and how the decoder stands. */
  datatype Reader = Reader(items: seq<Envelope>, state: DecodeState, buf: seq<byte>, error: Option<WireError>)

  /** Call the decoder until it asks for more bytes or fails. */
  function Drain(cap: Cap, state: DecodeState, buf: seq<byte>): Reader
    decreases |Residual(state, buf)|
  {
    var s := DecodeStep(cap, state, buf);
    match s.out
    case Pending => Reader([], s.state, s.buf, None)
    case Failed(e) => Reader([], s.state, s.buf, Some(e))
    case Item(e) =>
      var r := Drain(cap, s.state, s.buf);
      r.(items := [e] + r.items)
  }

  /** Append one chunk to the buffer and drain; a failed reader delivers nothing more. */
  function Feed(cap: Cap, r: Reader, chunk: seq<byte>): Reader {
    if r.error.Some? then r
    else
      var d := Drain(cap, r.state, r.buf + chunk);
      d.(items := r.items + d.items)
  }

  function FeedAll(cap: Cap, chunks: seq<seq<byte>>): Reader {
    if chunks == [] then Reader([], Head, [], None)
    else Feed(cap, FeedAll(cap, chunks[..|chunks| - 1]), chunks[|chunks| - 1])
  }

  function Concat(chunks: seq<seq<byte>>): seq<byte> {
    if chunks == [] then [] else Concat(chunks[..|chunks| - 1]) + chunks[|chunks| - 1]
  }

  /** One step against the reference: a step that yields no item ends the parse in the same way, a
      step that yields one peels exactly the first frame off. */
  lemma StepRefines(cap: Cap, state: DecodeState, buf: seq<byte>)
    requires Consistent(cap, state)
    ensures var s := DecodeStep(cap, state, buf);
      var b := Residual(state, buf);
      && Consistent(cap, s.state)
      && match s.out
         case Pending => ParseStream(cap, b) == Parsing([], Residual(s.state, s.buf), None)
         case Failed(e) => ParseStream(cap, b) == Parsing([], Residual(s.state, s.buf), Some(e))
         case Item(e) =>
           && |Residual(s.state, s.buf)| < |b|
           && var p := ParseStream(cap, Residual(s.state, s.buf));
              ParseStream(cap, b) == p.(items := [e] + p.items)
  {
    var b := Residual(state, buf);
    if |b| >= 4 {
      var n := OfBe32(b[..4]);
      if state.Data? {
        assert b[..4] == Be32(state.n);
        Be32RoundTrip(state.n);
        assert b[4..] == buf;
      } else {
        OfBe32RoundTrip(b[..4]);
        assert b == b[..4] + b[4..];
      }
      if n <= cap && |b| >= 4 + n {
        assert b[4..][..n] == b[4..4 + n] && b[4..][n..] == b[4 + n..];
      }
    }
  }

  lemma {:induction false} DrainRefines(cap: Cap, state: DecodeState, buf: seq<byte>)
    requires Consistent(cap, state)
    ensures var r := Drain(cap, state, buf);
      && Consistent(cap, r.state)
      && ParseStream(cap, Residual(state, buf)) == Parsing(r.items, Residual(r.state, r.buf), r.error)
    decreases |Residual(state, buf)|
  {
    StepRefines(cap, state, buf);
    var s := DecodeStep(cap, state, buf);
    if s.out.Item? {
      DrainRefines(cap, s.state, s.buf);
    }
  }

  /** Joins two consecutive parses: the second one never runs once the first has failed. */
  function Then(p: Parsing, q: Parsing): Parsing {
    if p.error.Some? then p else q.(items := p.items + q.items)
  }

  predicate SameVerdict(p: Parsing, q: Parsing) {
    p.items == q.items && p.error == q.error && (p.error.None? ==> p.leftover == q.leftover)
  }

  lemma FrontUnchanged(a: seq<byte>, b: seq<byte>, n: nat)
    requires |a| >= 4 + n
    ensures (a + b)[..4] == a[..4] && (a + b)[4..4 + n] == a[4..4 + n] && (a + b)[4 + n..] == a[4 + n..] + b
  {}

  lemma PrependItem(e: Envelope, whole: Parsing, p: Parsing, q: Parsing)
    requires SameVerdict(whole, Then(p, q))
    ensures SameVerdict(whole.(items := [e] + whole.items), Then(p.(items := [e] + p.items), q))
  {}

  /** Parsing may stop anywhere and resume from its leftover. */
  lemma {:induction false} ParseResumes(cap: Cap, a: seq<byte>, b: seq<byte>)
    ensures SameVerdict(ParseStream(cap, a + b),
                        Then(ParseStream(cap, a), ParseStream(cap, ParseStream(cap, a).leftover + b)))
    decreases |a|
  {
    if |a| < 4 {
    } else {
      FrontUnchanged(a, b, 0);
      var n := OfBe32(a[..4]);
      if n <= cap && |a| >= 4 + n {
        FrontUnchanged(a, b, n);
        var body, rest := a[4..4 + n], a[4 + n..];
        if DecodeBody(body).Parsed? {
          ParseResumes(cap, rest, b);
          PrependItem(DecodeBody(body).value, ParseStream(cap, rest + b), ParseStream(cap, rest),
                      ParseStream(cap, ParseStream(cap, rest).leftover + b));
        }
      }
    }
  }

  /** The stateful reader has delivered exactly what the reference parse of all bytes seen so far
      delivers, has failed exactly when that has, and otherwise holds exactly its leftover. */
  predicate Agrees(cap: Cap, r: Reader, seen: seq<byte>) {
    Consistent(cap, r.state) && SameVerdict(Verdict(r), ParseStream(cap, seen))
  }

  function Verdict(r: Reader): Parsing { Parsing(r.items, Residual(r.state, r.buf), r.error) }

  /** Verdicts join: `r` agrees with `p`, what it then drains is `q`, and `p` then `q` is the whole. */
  lemma JoinVerdicts(r: Reader, p: Parsing, d: Reader, q: Parsing, whole: Parsing)
    requires SameVerdict(Verdict(r), p) && r.error.None? && q == Verdict(d) && SameVerdict(whole, Then(p, q))
    ensures SameVerdict(Verdict(d.(items := r.items + d.items)), whole)
  {}

  lemma LeftoverIsResidual(cap: Cap, r: Reader, seen: seq<byte>, chunk: seq<byte>)
    requires Agrees(cap, r, seen) && r.error.None?
    ensures Residual(r.state, r.buf + chunk) == ParseStream(cap, seen).leftover + chunk
  {}

  lemma FeedRefines(cap: Cap, r: Reader, seen: seq<byte>, chunk: seq<byte>)
    requires Agrees(cap, r, seen) && r.error.None?
    ensures Agrees(cap, Feed(cap, r, chunk), seen + chunk)
  {
    ParseResumes(cap, seen, chunk);
    LeftoverIsResidual(cap, r, seen, chunk);
    DrainRefines(cap, r.state, r.buf + chunk);
    var p, d := ParseStream(cap, seen), Drain(cap, r.state, r.buf + chunk);
    JoinVerdicts(r, p, d, ParseStream(cap, p.leftover + chunk), ParseStream(cap, seen + chunk));
  }

  lemma FailedStaysFailed(cap: Cap, r: Reader, seen: seq<byte>, chunk: seq<byte>)
    requires Agrees(cap, r, seen) && r.error.Some?
    ensures Agrees(cap, Feed(cap, r, chunk), seen + chunk)
  {
    ParseResumes(cap, seen, chunk);
  }

  /** Chunk independence for arbitrary bytes, at every intermediate point. */
  lemma {:induction false} ChunkIndependence(cap: Cap, chunks: seq<seq<byte>>)
    ensures Agrees(cap, FeedAll(cap, chunks), Concat(chunks))
  {
    if chunks != [] {
      var front := chunks[..|chunks| - 1];
      ChunkIndependence(cap, front);
      var r, seen, chunk := FeedAll(cap, front), Concat(front), chunks[|chunks| - 1];
      if r.error.None? { FeedRefines(cap, r, seen, chunk); } else { FailedStaysFailed(cap, r, seen, chunk); }
    }
  }

  /** A frame from any encoder with a cap no larger is accepted in full by the reference parse. */
  lemma FrameParses(cap: Cap, encoderCap: Cap, e: Envelope, tail: seq<byte>)
    requires Fits(encoderCap, e) && encoderCap <= cap
    ensures var p := ParseStream(cap, tail);
      ParseStream(cap, EncodeFrame(encoderCap, e) + tail) == p.(items := [e] + p.items)
  {
    var body := EncodeBody(e);
    var b := EncodeFrame(encoderCap, e) + tail;
    assert b[..4] == Be32(|body|);
    Be32RoundTrip(|body|);
    assert b[4..4 + |body|] == body == body + [];
    assert b[4 + |body|..] == tail;
    BodyRoundTrip(e, []);
  }

  lemma {:induction false} FramesParse(cap: Cap, encoderCap: Cap, es: seq<Envelope>)
    requires encoderCap <= cap && forall e :: e in es ==> Fits(encoderCap, e)
    ensures ParseStream(cap, EncodeAll(encoderCap, es)) == Parsing(es, [], None)
  {
    if es != [] {
      FramesParse(cap, encoderCap, es[1..]);
      FrameParses(cap, encoderCap, es[0], EncodeAll(encoderCap, es[1..]));
      assert [es[0]] + es[1..] == es;
    }
  }

  /** Stream round trip: however the concatenated frames are cut into chunks, the decoder yields the
      envelopes in order and ends at a frame boundary with an empty buffer. */
  lemma StreamRoundTrip(cap: Cap, encoderCap: Cap, es: seq<Envelope>, chunks: seq<seq<byte>>)
    requires encoderCap <= cap && forall e :: e in es ==> Fits(encoderCap, e)
    requires Concat(chunks) == EncodeAll(encoderCap, es)
    ensures FeedAll(cap, chunks) == Reader(es, Head, [], None)
  {
    ChunkIndependence(cap, chunks);
    FramesParse(cap, encoderCap, es);
  }

  /** Before the stream is complete the decoder has delivered a prefix of the envelopes and not failed. */
  lemma StreamPrefix(cap: Cap, encoderCap: Cap, es: seq<Envelope>, chunks: seq<seq<byte>>, rest: seq<byte>)
    requires encoderCap <= cap && forall e :: e in es ==> Fits(encoderCap, e)
    requires Concat(chunks) + rest == EncodeAll(encoderCap, es)
    ensures FeedAll(cap, chunks).items <= es && FeedAll(cap, chunks).error.None?
  {
    ChunkIndependence(cap, chunks);
    ParseResumes(cap, Concat(chunks), rest);
    FramesParse(cap, encoderCap, es);
  }

  /** An oversized prefix is refused from its four bytes alone, and a smaller one never is. */
  lemma OversizedPrefix(cap: Cap, buf: seq<byte>)
    requires |buf| >= 4
    ensures DecodeStep(cap, Head, buf).out == Failed(IoError) <==> OfBe32(buf[..4]) > cap
    ensures OfBe32(buf[..4]) > cap ==>
      && DecodeStep(cap, Head, buf[..4]) == Stepped(Head, buf[..4], Failed(IoError))
      && DecodeStep(cap, Head, buf) == Stepped(Head, buf, Failed(IoError))
  {
    assert buf[..4][..4] == buf[..4];
  }

  /** Any complete frame within the cap: its body decides, the frame is consumed, what follows is left. */
  lemma FrameDecides(cap: Cap, body: seq<byte>, tail: seq<byte>)
    requires |body| <= cap
    ensures DecodeStep(cap, Head, (Be32(|body|) + body) + tail) == Stepped(Head, tail,
        match DecodeBody(body) case Parsed(e, _) => Item(e) case Malformed => Failed(BodyError))
  {
    var b := (Be32(|body|) + body) + tail;
    assert b[..4] == Be32(|body|);
    Be32RoundTrip(|body|);
    assert b[4..][..|body|] == body && b[4..][|body|..] == tail;
  }

  /** Bytes after the envelope inside its frame are discarded. */
  lemma FrameTailDiscarded(cap: Cap, e: Envelope, junk: seq<byte>, tail: seq<byte>)
    requires Sized(e) && |EncodeBody(e) + junk| <= cap
    ensures var body := EncodeBody(e) + junk;
      DecodeStep(cap, Head, (Be32(|body|) + body) + tail) == Stepped(Head, tail, Item(e))
  {
    BodyRoundTrip(e, junk);
    FrameDecides(cap, EncodeBody(e) + junk, tail);
  }

  /** The default cap is 64 MiB: that much is waited for, one byte more is refused. */
  lemma DefaultCap()
    ensures DecodeStep(DEFAULT_MAX_FRAME_LEN, Head, [4, 0, 0, 0]) == Stepped(Data(0x400_0000), [], Pending)
    ensures DecodeStep(DEFAULT_MAX_FRAME_LEN, Head, [4, 0, 0, 1]) == Stepped(Head, [4, 0, 0, 1], Failed(IoError))
  {
    var most: seq<byte> := [4, 0, 0, 0];
    var more: seq<byte> := [4, 0, 0, 1];
    assert most[..4] == most && most[4..] == [] && OfBe32(most) == 0x400_0000;
    assert more[..4] == more && OfBe32(more) == 0x400_0001;
  }

  /** Concrete bytes: the five-byte heartbeat frame, a response whose id needs two bytes, an unreadable
      body, and a prefix over the cap. */
  lemma WireExamples()
    ensures EncodeFrame(DEFAULT_MAX_FRAME_LEN, Heartbeat) == [0, 0, 0, 1, 3]
    ensures EncodeFrame(DEFAULT_MAX_FRAME_LEN, Response(300, [0xAB])) == [0, 0, 0, 6, 1, 251, 0x2C, 0x01, 1, 0xAB]
    ensures DecodeStep(DEFAULT_MAX_FRAME_LEN, Head, [0, 0, 0, 3, 0xFF, 0xFF, 0xFF])
         == Stepped(Head, [], Failed(BodyError))
    ensures DecodeStep(100, Head, [0, 0, 3, 0xE8]) == Stepped(Head, [0, 0, 3, 0xE8], Failed(IoError))
  {
    var bad: seq<byte> := [0, 0, 0, 3, 0xFF, 0xFF, 0xFF];
    assert OfBe32(bad[..4]) == 3;
    assert bad[4..][..3] == [0xFF, 0xFF, 0xFF] && bad[4..][3..] == [];
    var big: seq<byte> := [0, 0, 3, 0xE8];
    assert big[..4] == big && OfBe32(big) == 1000;
  }
}
