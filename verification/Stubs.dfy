/** The generated client proxy, and the meaning of a remote call: arguments and results cross two real
    codecs, and what comes back is the local result up to the documented error normalisation. */
module Stubs {
  import opened Primitives
  import opened Varint
  import opened Envelopes
  import opened WireCodecs
  import opened Errors
  import opened Schema
  import opened Registry

  /** The payload a generated client method sends. */
  function ArgumentPayload(m: Method, args: seq<Value>): seq<byte>
    requires HaveTypes(args, Types(m.params))
  { Encode(Tuple(Types(m.params)), TupleV(args)) }

  /** What a generated client method makes of `Client::call`'s result. */
  function DecodeReply(m: Method, r: Result<seq<byte>, PatinaError>): Result<Value, PatinaError> {
    match r
    case Err(e) => Err(e)
    case Ok(bytes) => DecodePayload(m.okType, bytes)
  }

  /** The request a proxy of `s` puts on the wire for its method number `i`. */
  function ProxyRequest(s: Service, i: nat, args: seq<Value>, id: u64): RequestData
    requires i < |s.decl.methods| && HaveTypes(args, Types(s.decl.methods[i].params))
  {
    RequestData(id, WireName(s.decl, s.decl.methods[i].ident), ArgumentPayload(s.decl.methods[i], args))
  }

  /** The names resolve to `s`: it was the last one registered under each of its wire names. */
  ghost predicate Serves(handlers: Handlers, s: Service) {
    forall i :: 0 <= i < |s.decl.methods| ==>
      var n := WireName(s.decl, s.decl.methods[i].ident);
      n in handlers && handlers[n] == ServiceMethod(s, n)
  }

  /** A freshly built server with this one service serves it. */
  lemma AddedServiceIsServed(m: Handlers, s: Service)
    ensures Serves(InsertAll(m, ServiceBindings(s)), s)
  {
    var bs := ServiceBindings(s);
    forall i | 0 <= i < |bs|
      ensures bs[i].name in InsertAll(m, bs) && InsertAll(m, bs)[bs[i].name] == bs[i].handler
    {
      InsertAllLookup(m, bs, bs[i].name);
      forall j | i < j < |bs|
        ensures bs[j].name != bs[i].name
      {
        if bs[j].name == bs[i].name {
          WireNameInjective(s.decl, s.decl.methods[i].ident, s.decl, s.decl.methods[j].ident);
        }
      }
      assert IsLast(bs, i, bs[i].name);
    }
  }

  /** The arm picked for a method's own wire name is that method. */
  lemma ArmOfOwnName(t: ServiceTrait, i: nat)
    requires t.Valid() && i < |t.methods|
    ensures FindArm(t, WireName(t, t.methods[i].ident), 0) == Some(i)
  {
    var j := FindArm(t, WireName(t, t.methods[i].ident), 0).value;
    WireNameInjective(t, t.methods[i].ident, t, t.methods[j].ident);
  }

  /** What a proxy sends: the method's wire name, and the encodings of its arguments in order. */
  lemma ProxyRequestText(s: Service, i: nat, args: seq<Value>, id: u64)
    requires i < |s.decl.methods| && HaveTypes(args, Types(s.decl.methods[i].params))
    ensures var m := s.decl.methods[i];
      var req := ProxyRequest(s, i, args, id);
      && req.id == id && req.methodName == s.decl.ident + [0x3A, 0x3A] + m.ident
      && req.payload == EncodeTuple(Types(m.params), args)
  {}

  /** A dispatch arm runs the body on the arguments the payload starts with. */
  lemma ArmRunsBody(s: Service, arm: nat, args: seq<Value>, tail: seq<byte>)
    requires arm < |s.decl.methods| && HaveTypes(args, Types(s.decl.methods[arm].params))
    ensures var m := s.decl.methods[arm];
      var r := RunArm(s, arm, EncodeTuple(Types(m.params), args) + tail);
      match s.body(m.ident, args)
      case Ok(v) => HasType(v, m.okType) && r == Ok(Encode(m.okType, v))
      case Err(e) => r == Err(ToHandlerError(e))
  {
    var ts := Types(s.decl.methods[arm].params);
    PayloadTailDiscarded(Tuple(ts), TupleV(args), tail);
    assert Encode(Tuple(ts), TupleV(args)) == EncodeTuple(ts, args);
  }

  /** A request under a wire name that a service serves reaches that method's arm. */
  lemma ReachesArm(handlers: Handlers, s: Service, i: nat, req: RequestData)
    requires Serves(handlers, s) && i < |s.decl.methods|
    requires req.methodName == s.decl.ident + [0x3A, 0x3A] + s.decl.methods[i].ident
    ensures Dispatch(handlers, req) ==
      match RunArm(s, i, req.payload) case Ok(b) => Response(req.id, b) case Err(e) => Error(req.id, e.code, e.message)
  {
    WireNameText(s.decl, s.decl.methods[i].ident);
    ArmOfOwnName(s.decl, i);
    assert handlers[req.methodName] == ServiceMethod(s, req.methodName);
  }

  /** A request under a service's wire name whose payload starts with the method's arguments runs the
      local implementation on those, whatever comes after them in the payload. */
  lemma ExtraBytesIgnored(handlers: Handlers, s: Service, i: nat, name: Str, args: seq<Value>, tail: seq<byte>, id: u64)
    requires Serves(handlers, s) && i < |s.decl.methods|
    requires name == s.decl.ident + [0x3A, 0x3A] + s.decl.methods[i].ident
    requires HaveTypes(args, Types(s.decl.methods[i].params))
    ensures var m := s.decl.methods[i];
      var reply := Dispatch(handlers, RequestData(id, name, EncodeTuple(Types(m.params), args) + tail));
      match s.body(m.ident, args)
      case Ok(v) => HasType(v, m.okType) && reply == Response(id, Encode(m.okType, v))
      case Err(e) => reply == Error(id, ToHandlerError(e).code, ToHandlerError(e).message)
  {
    ReachesArm(handlers, s, i, RequestData(id, name, EncodeTuple(Types(s.decl.methods[i].params), args) + tail));
    ArmRunsBody(s, i, args, tail);
  }

  /** So a client built with further parameters at the end is answered for the ones the server knows. */
  lemma LongerCallRunsPrefix(handlers: Handlers, s: Service, i: nat, name: Str, args: seq<Value>,
                             more: seq<Ty>, extra: seq<Value>, id: u64)
    requires Serves(handlers, s) && i < |s.decl.methods|
    requires name == s.decl.ident + [0x3A, 0x3A] + s.decl.methods[i].ident
    requires HaveTypes(args, Types(s.decl.methods[i].params)) && HaveTypes(extra, more)
    ensures var m := s.decl.methods[i];
      && HaveTypes(args + extra, Types(m.params) + more)
      && var payload := EncodeTuple(Types(m.params) + more, args + extra);
         var reply := Dispatch(handlers, RequestData(id, name, payload));
         match s.body(m.ident, args)
         case Ok(v) => HasType(v, m.okType) && reply == Response(id, Encode(m.okType, v))
         case Err(e) => reply == Error(id, ToHandlerError(e).code, ToHandlerError(e).message)
  {
    TupleAppend(Types(s.decl.methods[i].params), args, more, extra);
    ExtraBytesIgnored(handlers, s, i, name, args, EncodeTuple(more, extra), id);
  }

  /** What a proxy method returns: the error of the call as it is, the value its reply starts with, or a
      400 if it starts with none. */
  lemma ProxyOutcome(m: Method, e: PatinaError, v: Value, tail: seq<byte>, b: seq<byte>)
    ensures DecodeReply(m, Err(e)) == Err(e)
    ensures HasType(v, m.okType) ==> DecodeReply(m, Ok(Encode(m.okType, v) + tail)) == Ok(v)
    ensures Decode(m.okType, b).Malformed? ==>
      var r := DecodeReply(m, Ok(b)); r.Err? && r.error.Remote? && r.error.code == 400
  {
    if HasType(v, m.okType) { PayloadTailDiscarded(m.okType, v, tail); }
  }

  /** Dispatching a proxy's request runs the local implementation on exactly the given arguments. */
  lemma DispatchRunsLocal(handlers: Handlers, s: Service, i: nat, args: seq<Value>, id: u64)
    requires Serves(handlers, s)
    requires i < |s.decl.methods| && HaveTypes(args, Types(s.decl.methods[i].params))
    ensures var m := s.decl.methods[i];
      var reply := Dispatch(handlers, ProxyRequest(s, i, args, id));
      match s.body(m.ident, args)
      case Ok(v) => HasType(v, m.okType) && reply == Response(id, Encode(m.okType, v))
      case Err(e) => reply == Error(id, ToHandlerError(e).code, ToHandlerError(e).message)
  {
    var m := s.decl.methods[i];
    ArmOfOwnName(s.decl, i);
    ValueRoundTrip(Tuple(Types(m.params)), TupleV(args), []);
    assert ArgumentPayload(m, args) + [] == ArgumentPayload(m, args);
  }

  /** Remote equals local. The request and reply frames are cut into chunks arbitrarily on the way; the
      server sees exactly the proxy's request, and the caller gets the normalised local result. */
  lemma RemoteEqualsLocal(cap: Cap, handlers: Handlers, s: Service, i: nat, args: seq<Value>, id: u64,
                          up: seq<seq<byte>>, down: seq<seq<byte>>)
    requires Serves(handlers, s)
    requires i < |s.decl.methods| && HaveTypes(args, Types(s.decl.methods[i].params))
    requires var request := Request(ProxyRequest(s, i, args, id));
      && Fits(cap, request) && Concat(up) == EncodeFrame(cap, request)
    requires var reply := Dispatch(handlers, ProxyRequest(s, i, args, id));
      && Fits(cap, reply) && Concat(down) == EncodeFrame(cap, reply)
    ensures FeedAll(cap, up) == Reader([Request(ProxyRequest(s, i, args, id))], Head, [], None)
    ensures FeedAll(cap, down).items == [Dispatch(handlers, ProxyRequest(s, i, args, id))]
    ensures DecodeReply(s.decl.methods[i], CallResult(FeedAll(cap, down).items[0]))
         == Normalise(s.body(s.decl.methods[i].ident, args))
  {
    var m := s.decl.methods[i];
    var request := Request(ProxyRequest(s, i, args, id));
    var reply := Dispatch(handlers, request.req);
    OneFrame(cap, request, up);
    OneFrame(cap, reply, down);
    ReplyIsNormalised(handlers, s, i, args, id);
  }

  /** A payload that does not decode as the method's parameters is answered 400 without running it. */
  lemma BadPayloadIs400(handlers: Handlers, s: Service, i: nat, id: u64, payload: seq<byte>)
    requires Serves(handlers, s) && i < |s.decl.methods|
    requires Decode(Tuple(Types(s.decl.methods[i].params)), payload) == Malformed
    ensures var reply := Dispatch(handlers, RequestData(id, WireName(s.decl, s.decl.methods[i].ident), payload));
      reply.Error? && reply.id == id && reply.code == 400 && Spells(reply.message, "decode: ")
  {
    ArmOfOwnName(s.decl, i);
  }

  lemma ReplyIsNormalised(handlers: Handlers, s: Service, i: nat, args: seq<Value>, id: u64)
    requires Serves(handlers, s)
    requires i < |s.decl.methods| && HaveTypes(args, Types(s.decl.methods[i].params))
    ensures DecodeReply(s.decl.methods[i], CallResult(Dispatch(handlers, ProxyRequest(s, i, args, id))))
         == Normalise(s.body(s.decl.methods[i].ident, args))
  {
    var m := s.decl.methods[i];
    DispatchRunsLocal(handlers, s, i, args, id);
    var r := s.body(m.ident, args);
    if r.Ok? {
      ValueRoundTrip(m.okType, r.value, []);
      assert Encode(m.okType, r.value) + [] == Encode(m.okType, r.value);
    }
  }

  lemma OneFrame(cap: Cap, e: Envelope, chunks: seq<seq<byte>>)
    requires Fits(cap, e) && Concat(chunks) == EncodeFrame(cap, e)
    ensures FeedAll(cap, chunks) == Reader([e], Head, [], None)
  {
    assert EncodeAll(cap, [e]) == EncodeFrame(cap, e) + EncodeAll(cap, []);
    StreamRoundTrip(cap, cap, [e], chunks);
  }

  // ----- proxying hops -----

  /** One remote call through a server that registers exactly `s`, frames going through the codec. When a
      frame is over the cap there is no reply; nothing below depends on the value given for that case. */
  function RemoteCall(cap: Cap, s: Service, i: nat, args: seq<Value>, id: u64): Result<Value, PatinaError>
    requires i < |s.decl.methods| && HaveTypes(args, Types(s.decl.methods[i].params))
  {
    var req := ProxyRequest(s, i, args, id);
    var reply := Dispatch(InsertAll(map[], ServiceBindings(s)), req);
    if Fits(cap, Request(req)) && Fits(cap, reply) then DecodeReply(s.decl.methods[i], CallResult(reply))
    else Err(Closed)
  }

  function FindMethod(ms: seq<Method>, name: Ident, from: nat): (i: Option<nat>)
    requires from <= |ms|
    ensures i.Some? ==> from <= i.value < |ms| && ms[i.value].ident == name
    ensures i.None? ==> forall k :: from <= k < |ms| ==> ms[k].ident != name
    decreases |ms| - from
  {
    if from == |ms| then None else if ms[from].ident == name then Some(from) else FindMethod(ms, name, from + 1)
  }

  function ProxyBody(cap: Cap, s: Service, id: u64, name: Ident, args: seq<Value>): Result<Value, PatinaError> {
    match FindMethod(s.decl.methods, name, 0)
    case None => Err(Closed)
    case Some(i) =>
      if HaveTypes(args, Types(s.decl.methods[i].params)) then RemoteCall(cap, s, i, args, id) else Err(Closed)
  }

  function ProxyService(cap: Cap, s: Service, id: u64): RawService {
    RawService(s.decl, (name: Ident, args: seq<Value>) => ProxyBody(cap, s, id, name, args))
  }

  lemma ProxyWellTyped(cap: Cap, s: Service, id: u64)
    ensures WellTyped(ProxyService(cap, s, id))
  {
    var p := ProxyService(cap, s, id);
    forall i, args | 0 <= i < |s.decl.methods| && HaveTypes(args, Types(s.decl.methods[i].params))
      ensures var r := p.body(s.decl.methods[i].ident, args);
        r.Ok? ==> HasType(r.value, s.decl.methods[i].okType)
    {
      var m := s.decl.methods[i];
      assert FindMethod(s.decl.methods, m.ident, 0) == Some(i);
      var r := RemoteCall(cap, s, i, args, id);
      if r.Ok? {
        var reply := Dispatch(InsertAll(map[], ServiceBindings(s)), ProxyRequest(s, i, args, id));
        DecodeSound(m.okType, CallResult(reply).value);
      }
    }
  }

  /** The generated client is itself an implementation of the trait, so it can be served again. */
  function Proxy(cap: Cap, s: Service, id: u64): Service {
    ProxyWellTyped(cap, s, id);
    ProxyService(cap, s, id)
  }

  /** A chain of proxies, hop k using request id `ids[k]`. */
  function Chain(cap: Cap, s: Service, ids: seq<u64>): Service {
    if ids == [] then s else Proxy(cap, Chain(cap, s, ids[..|ids| - 1]), ids[|ids| - 1])
  }

  lemma {:induction false} ChainDecl(cap: Cap, s: Service, ids: seq<u64>)
    ensures Chain(cap, s, ids).decl == s.decl
  {
    if ids != [] { ChainDecl(cap, s, ids[..|ids| - 1]); }
  }

  /** The envelope a server answers with for a local result. */
  function ReplyFor(t: Ty, r: Result<Value, PatinaError>, id: u64): Envelope
    requires r.Ok? ==> HasType(r.value, t)
  {
    match r
    case Ok(v) => Response(id, Encode(t, v))
    case Err(e) => Error(id, ToHandlerError(e).code, ToHandlerError(e).message)
  }

  /** Frames of this call are within the cap, whatever id a hop gives it. */
  predicate FramesFit(cap: Cap, s: Service, i: nat, args: seq<Value>, ids: seq<u64>)
    requires i < |s.decl.methods| && HaveTypes(args, Types(s.decl.methods[i].params))
  {
    forall k :: 0 <= k < |ids| ==>
      && Fits(cap, Request(ProxyRequest(s, i, args, ids[k])))
      && Fits(cap, ReplyFor(s.decl.methods[i].okType, s.body(s.decl.methods[i].ident, args), ids[k]))
  }

  lemma RemoteCallNormalises(cap: Cap, s: Service, i: nat, args: seq<Value>, id: u64)
    requires i < |s.decl.methods| && HaveTypes(args, Types(s.decl.methods[i].params))
    requires Fits(cap, Request(ProxyRequest(s, i, args, id)))
    requires Fits(cap, ReplyFor(s.decl.methods[i].okType, s.body(s.decl.methods[i].ident, args), id))
    ensures RemoteCall(cap, s, i, args, id) == Normalise(s.body(s.decl.methods[i].ident, args))
  {
    var handlers := InsertAll(map[], ServiceBindings(s));
    AddedServiceIsServed(map[], s);
    DispatchRunsLocal(handlers, s, i, args, id);
    ReplyIsNormalised(handlers, s, i, args, id);
  }

  lemma MethodOfOwnName(ms: seq<Method>, i: nat, from: nat)
    requires from <= i < |ms| && forall a, b :: 0 <= a < b < |ms| ==> ms[a].ident != ms[b].ident
    ensures FindMethod(ms, ms[i].ident, from) == Some(i)
  {}

  lemma ProxyBodyIsRemoteCall(cap: Cap, s: Service, i: nat, args: seq<Value>, id: u64)
    requires i < |s.decl.methods| && HaveTypes(args, Types(s.decl.methods[i].params))
    ensures Proxy(cap, s, id).body(s.decl.methods[i].ident, args) == RemoteCall(cap, s, i, args, id)
  {
    var name := s.decl.methods[i].ident;
    MethodOfOwnName(s.decl.methods, i, 0);
    assert ProxyBody(cap, s, id, name, args) == RemoteCall(cap, s, i, args, id);
    assert Proxy(cap, s, id).body(name, args) == ProxyBody(cap, s, id, name, args);
  }

  lemma OneHop(cap: Cap, s: Service, i: nat, args: seq<Value>, id: u64)
    requires i < |s.decl.methods| && HaveTypes(args, Types(s.decl.methods[i].params))
    requires Fits(cap, Request(ProxyRequest(s, i, args, id)))
    requires Fits(cap, ReplyFor(s.decl.methods[i].okType, s.body(s.decl.methods[i].ident, args), id))
    ensures Proxy(cap, s, id).body(s.decl.methods[i].ident, args) == Normalise(s.body(s.decl.methods[i].ident, args))
  {
    RemoteCallNormalises(cap, s, i, args, id);
    ProxyBodyIsRemoteCall(cap, s, i, args, id);
  }

  /** A hop further: the reply below is already normalised, so its envelope is the original one. */
  lemma NextHop(cap: Cap, s: Service, below: Service, i: nat, args: seq<Value>, id: u64)
    requires below.decl == s.decl && i < |s.decl.methods| && HaveTypes(args, Types(s.decl.methods[i].params))
    requires var name := s.decl.methods[i].ident;
      below.body(name, args) == s.body(name, args) || below.body(name, args) == Normalise(s.body(name, args))
    requires FramesFit(cap, s, i, args, [id])
    ensures Proxy(cap, below, id).body(s.decl.methods[i].ident, args)
         == Normalise(s.body(s.decl.methods[i].ident, args))
  {
    var r, t := s.body(s.decl.methods[i].ident, args), s.decl.methods[i].okType;
    NormaliseIdempotent(r);
    assert ReplyFor(t, Normalise(r), id) == ReplyFor(t, r, id);
    assert [id][0] == id;
    assert ProxyRequest(below, i, args, id) == ProxyRequest(s, i, args, id);
    OneHop(cap, below, i, args, id);
  }

  /** Any positive number of proxying hops equals one hop. */
  lemma {:induction false} HopsCollapse(cap: Cap, s: Service, i: nat, args: seq<Value>, ids: seq<u64>)
    requires i < |s.decl.methods| && HaveTypes(args, Types(s.decl.methods[i].params))
    requires ids != [] && FramesFit(cap, s, i, args, ids)
    ensures Chain(cap, s, ids).body(s.decl.methods[i].ident, args) == Normalise(s.body(s.decl.methods[i].ident, args))
  {
    var front, last := ids[..|ids| - 1], ids[|ids| - 1];
    ChainDecl(cap, s, front);
    assert FramesFit(cap, s, i, args, [last]);
    if front != [] {
      HopsCollapse(cap, s, i, args, front);
    }
    NextHop(cap, s, Chain(cap, s, front), i, args, last);
  }

  // ----- trait revisions -----

  /** Exchanging two parameters of one type in the declaration. */
  function SwapParams(ps: seq<Param>, i: nat, j: nat): seq<Param>
    requires i < |ps| && j < |ps|
  { ps[i := ps[j]][j := ps[i]] }

  /** The positional gotcha: a server built from the swapped declaration decodes the old client's
      arguments without error, and binds each of the two names to the other's value. */
  lemma SwappedParametersDecodeSilently(m: Method, i: nat, j: nat, args: seq<Value>)
    requires i < |m.params| && j < |m.params| && m.params[i].ty == m.params[j].ty
    requires HaveTypes(args, Types(m.params))
    ensures var swapped := SwapParams(m.params, i, j);
      && DecodePayload(Tuple(Types(swapped)), ArgumentPayload(m, args)) == Ok(TupleV(args))
      && swapped[i].name == m.params[j].name && swapped[j].name == m.params[i].name
  {
    assert Types(SwapParams(m.params, i, j)) == Types(m.params);
    ValueRoundTrip(Tuple(Types(m.params)), TupleV(args), []);
    assert ArgumentPayload(m, args) + [] == ArgumentPayload(m, args);
  }
}
