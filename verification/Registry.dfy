/** Service descriptions, the generated server dispatcher, and the handler registry of `ServerBuilder`. */
module Registry {
  import opened Primitives
  import opened Envelopes
  import opened Errors
  import opened Schema

  const COLON: byte := 0x3A

  /** A Rust identifier, as far as wire names are concerned: non-empty and free of colons. */
  type Ident = s: Str | s != [] && forall i :: 0 <= i < |s| ==> s[i] != COLON
    witness Ascii("m")

  datatype Param = Param(name: Ident, ty: Ty)

  datatype Method = Method(ident: Ident, params: seq<Param>, okType: Ty)

  /** A validated `#[service]` trait; the compiler rejects two methods of one name. */
  datatype ServiceTrait = ServiceTrait(ident: Ident, methods: seq<Method>) {
    predicate Valid() {
      forall i, j :: 0 <= i < j < |methods| ==> methods[i].ident != methods[j].ident
    }
  }

  function Types(params: seq<Param>): (ts: seq<Ty>)
    ensures |ts| == |params| && forall i :: 0 <= i < |ts| ==> ts[i] == params[i].ty
  {
    seq(|params|, i requires 0 <= i < |params| => params[i].ty)
  }

  type Body = (Ident, seq<Value>) -> Result<Value, PatinaError>

  /** A trait implementation: one function from method and arguments to result, respecting the
      declared types as Rust's type checker would make it. */
  datatype RawService = RawService(decl: ServiceTrait, body: Body)

  ghost predicate WellTyped(s: RawService) {
    s.decl.Valid() &&
    forall i, args {:trigger s.body(s.decl.methods[i].ident, args)} ::
      0 <= i < |s.decl.methods| && HaveTypes(args, Types(s.decl.methods[i].params)) ==>
        var r := s.body(s.decl.methods[i].ident, args);
        r.Ok? ==> HasType(r.value, s.decl.methods[i].okType)
  }

  type Service = s: RawService | WellTyped(s)
    ghost witness RawService(ServiceTrait(Ascii("S"), []), (m, args) => Err(Closed))

  /** `"Trait::method"`. */
  function WireName(t: ServiceTrait, m: Ident): Str {
    Append(Append(t.ident, Ascii("::")), m)
  }

  lemma WireNameText(t: ServiceTrait, m: Ident)
    ensures WireName(t, m) == t.ident + [0x3A, 0x3A] + m
  {}

  lemma FirstColon(t: ServiceTrait, m: Ident)
    ensures var n, k := WireName(t, m), |t.ident|;
      && n[k] == COLON && (forall i :: 0 <= i < k ==> n[i] != COLON)
      && n[..k] == t.ident && n[k + 2..] == m
  {}

  /** Wire names determine both identifiers. */
  lemma WireNameInjective(t1: ServiceTrait, m1: Ident, t2: ServiceTrait, m2: Ident)
    requires WireName(t1, m1) == WireName(t2, m2)
    ensures t1.ident == t2.ident && m1 == m2
  {
    FirstColon(t1, m1);
    FirstColon(t2, m2);
    assert |t1.ident| == |t2.ident|;
  }

  // ----- the generated dispatcher -----

  /** Index of the first match arm for `name`. */
  function FindArm(t: ServiceTrait, name: Str, from: nat): (arm: Option<nat>)
    requires from <= |t.methods|
    ensures arm.Some? ==> from <= arm.value < |t.methods| && WireName(t, t.methods[arm.value].ident) == name
    ensures arm.None? ==> forall i :: from <= i < |t.methods| ==> WireName(t, t.methods[i].ident) != name
    decreases |t.methods| - from
  {
    if from == |t.methods| then None
    else if WireName(t, t.methods[from].ident) == name then Some(from)
    else FindArm(t, name, from + 1)
  }

  /** `__private::decode`: a failure is a 400 (bincode's own wording after the prefix is not modelled). */
  function DecodePayload(t: Ty, b: seq<byte>): Result<Value, PatinaError> {
    match Decode(t, b)
    case Parsed(v, _) => Ok(v)
    case Malformed => Err(Remote(400, Ascii("decode: ")))
  }

  /** A payload's value decides; whatever follows it is discarded. */
  lemma PayloadTailDiscarded(t: Ty, v: Value, tail: seq<byte>)
    requires HasType(v, t)
    ensures DecodePayload(t, Encode(t, v) + tail) == Ok(v)
  {
    ValueRoundTrip(t, v, tail);
  }

  /** Whatever bytes start with a value of the type are read as that value; all others are a 400. */
  lemma PayloadOutcome(t: Ty, b: seq<byte>)
    ensures Decode(t, b).Parsed? ==> DecodePayload(t, b) == Ok(Decode(t, b).value)
    ensures Decode(t, b).Malformed? ==>
      var r := DecodePayload(t, b);
      r.Err? && r.error.Remote? && r.error.code == 400 && Spells(r.error.message, "decode: ")
  {}

  function UnknownMethodText(name: Str): Str { Append(Ascii("unknown method: "), name) }

  function RunArm(s: Service, arm: nat, payload: seq<byte>): Result<seq<byte>, HandlerError>
    requires arm < |s.decl.methods|
  {
    var m := s.decl.methods[arm];
    match DecodePayload(Tuple(Types(m.params)), payload)
    case Err(e) => Err(ToHandlerError(e))
    case Ok(args) =>
      DecodeSound(Tuple(Types(m.params)), payload);
      match s.body(m.ident, args.vs)
      case Err(e) => Err(ToHandlerError(e))
      case Ok(v) => Ok(Encode(m.okType, v))
  }

  function DispatchService(s: Service, name: Str, payload: seq<byte>): Result<seq<byte>, HandlerError> {
    match FindArm(s.decl, name, 0)
    case Some(arm) => RunArm(s, arm, payload)
    case None => Err(HandlerError(404, UnknownMethodText(name)))
  }

  // ----- the registry -----

  /** A boxed handler: a closure or struct of the user's, or one method of a shared service. */
  datatype Handler =
    | Custom(run: seq<byte> -> Result<seq<byte>, HandlerError>)
    | ServiceMethod(svc: Service, name: Str)

  type Handlers = map<Str, Handler>

  function Handle(h: Handler, payload: seq<byte>): Result<seq<byte>, HandlerError> {
    match h
    case Custom(run) => run(payload)
    case ServiceMethod(svc, name) => DispatchService(svc, name, payload)
  }

  /** The reply envelope for a request whose handler, if there is one, came back with `outcome`. */
  function ReplyWith(known: bool, req: RequestData, outcome: Result<seq<byte>, HandlerError>): Envelope {
    if !known then Error(req.id, 404, UnknownMethodText(req.methodName))
    else
      match outcome
      case Ok(bytes) => Response(req.id, bytes)
      case Err(e) => Error(req.id, e.code, e.message)
  }

  function Dispatch(handlers: Handlers, req: RequestData): Envelope {
    if req.methodName in handlers then ReplyWith(true, req, Handle(handlers[req.methodName], req.payload))
    else ReplyWith(false, req, Ok([]))
  }

  /** A request under a name bound to a user's handler runs that handler on the request's own payload,
      and the answer carries the request's id and the handler's bytes, or its code and message. */
  lemma CustomHandlerRuns(m: Handlers, name: Str, run: seq<byte> -> Result<seq<byte>, HandlerError>,
                          id: u64, payload: seq<byte>)
    ensures Dispatch(m[name := Custom(run)], RequestData(id, name, payload)) ==
      match run(payload) case Ok(b) => Response(id, b) case Err(e) => Error(id, e.code, e.message)
  {}

  /** A name nobody registered is answered 404, naming it. */
  lemma UnregisteredIs404(m: Handlers, req: RequestData)
    requires req.methodName !in m
    ensures var reply := Dispatch(m, req);
      reply.Error? && reply.id == req.id && reply.code == 404 && NamesUnknown(reply.message, req.methodName)
  {}

  predicate NamesUnknown(text: seq<byte>, name: Str) {
    |text| >= 16 && Spells(text[..16], "unknown method: ") && text[16..] == name
  }

  /** So is a name a service has no arm for, by the service itself. */
  lemma UnknownArmIs404(s: Service, name: Str, payload: seq<byte>)
    requires forall i :: 0 <= i < |s.decl.methods| ==> s.decl.ident + [0x3A, 0x3A] + s.decl.methods[i].ident != name
    ensures var r := DispatchService(s, name, payload);
      r.Err? && r.error.code == 404 && NamesUnknown(r.error.message, name)
  {
    var arm := FindArm(s.decl, name, 0);
    if arm.Some? {
      WireNameText(s.decl, s.decl.methods[arm.value].ident);
    }
  }

  /** One builder call. */
  datatype Registration = Single(name: Str, run: seq<byte> -> Result<seq<byte>, HandlerError>) | Whole(svc: Service)

  datatype Binding = Binding(name: Str, handler: Handler)

  function ServiceBindings(s: Service): (bs: seq<Binding>)
    ensures |bs| == |s.decl.methods|
    ensures forall i :: 0 <= i < |bs| ==>
      bs[i].name == WireName(s.decl, s.decl.methods[i].ident) && bs[i].handler == ServiceMethod(s, bs[i].name)
  {
    seq(|s.decl.methods|, i requires 0 <= i < |s.decl.methods| =>
      var n := WireName(s.decl, s.decl.methods[i].ident); Binding(n, ServiceMethod(s, n)))
  }

  function CallBindings(r: Registration): seq<Binding> {
    if r.Single? then [Binding(r.name, Custom(r.run))] else ServiceBindings(r.svc)
  }

  /** The (name, handler) pairs a list of builder calls mentions, in order. */
  function Bindings(rs: seq<Registration>): seq<Binding> {
    if rs == [] then [] else Bindings(rs[..|rs| - 1]) + CallBindings(rs[|rs| - 1])
  }

  function InsertAll(m: Handlers, bs: seq<Binding>): Handlers {
    if bs == [] then m
    else InsertAll(m, bs[..|bs| - 1])[bs[|bs| - 1].name := bs[|bs| - 1].handler]
  }

  /** The handler map after these builder calls. */
  function Built(rs: seq<Registration>): Handlers { InsertAll(map[], Bindings(rs)) }

  class ServerBuilder {
    var handlers: Handlers
    ghost var calls: seq<Registration>

    ghost predicate Valid()
      reads this
    { handlers == Built(calls) }

    constructor ()
      ensures Valid() && calls == []
    { handlers, calls := map[], []; }

    method Register(name: Str, run: seq<byte> -> Result<seq<byte>, HandlerError>)
      requires Valid()
      modifies this
      ensures Valid() && calls == old(calls) + [Single(name, run)]
      ensures handlers == old(handlers)[name := Custom(run)]
    {
      handlers := handlers[name := Custom(run)];
      calls := calls + [Single(name, run)];
      assert calls[..|calls| - 1] == old(calls);
    }

    method AddService(svc: Service)
      requires Valid()
      modifies this
      ensures Valid() && calls == old(calls) + [Whole(svc)]
      ensures handlers == InsertAll(old(handlers), ServiceBindings(svc))
    {
      ghost var bs := ServiceBindings(svc);
      for i := 0 to |svc.decl.methods|
        invariant handlers == InsertAll(old(handlers), bs[..i])
        invariant calls == old(calls)
      {
        var name := WireName(svc.decl, svc.decl.methods[i].ident);
        handlers := handlers[name := ServiceMethod(svc, name)];
        assert bs[..i + 1][..i] == bs[..i];
      }
      assert bs[..|bs|] == bs;
      calls := calls + [Whole(svc)];
      InsertAllWhole(old(calls), svc);
    }
  }

  lemma {:induction false} InsertAllAppend(m: Handlers, a: seq<Binding>, b: seq<Binding>)
    ensures InsertAll(m, a + b) == InsertAll(InsertAll(m, a), b)
  {
    if b == [] {
      assert a + b == a;
    } else {
      assert (a + b)[..|a + b| - 1] == a + b[..|b| - 1];
      InsertAllAppend(m, a, b[..|b| - 1]);
    }
  }

  lemma BindingsOfWhole(rs: seq<Registration>, svc: Service)
    ensures Bindings(rs + [Whole(svc)]) == Bindings(rs) + ServiceBindings(svc)
  {
    assert (rs + [Whole(svc)])[..|rs|] == rs;
  }

  lemma InsertAllWhole(rs: seq<Registration>, svc: Service)
    ensures InsertAll(map[], Bindings(rs + [Whole(svc)]))
         == InsertAll(InsertAll(map[], Bindings(rs)), ServiceBindings(svc))
  {
    BindingsOfWhole(rs, svc);
    InsertAllAppend(map[], Bindings(rs), ServiceBindings(svc));
  }

  /** Position `k` holds the last binding of `name`. */
  predicate IsLast(bs: seq<Binding>, k: int, name: Str) {
    0 <= k < |bs| && bs[k].name == name && forall j :: k < j < |bs| ==> bs[j].name != name
  }

  /** Inserting a list of bindings: the last one of a name wins, and names it does not mention keep
      what the map said before. */
  lemma {:induction false} InsertAllLookup(m: Handlers, bs: seq<Binding>, name: Str)
    ensures forall k :: IsLast(bs, k, name) ==> name in InsertAll(m, bs) && InsertAll(m, bs)[name] == bs[k].handler
    ensures !Mentions(bs, name) ==> (name in InsertAll(m, bs) <==> name in m)
    ensures !Mentions(bs, name) && name in m ==> InsertAll(m, bs)[name] == m[name]
  {
    if bs != [] {
      var front, n := bs[..|bs| - 1], |bs| - 1;
      InsertAllLookup(m, front, name);
      forall k | IsLast(bs, k, name)
        ensures name in InsertAll(m, bs) && InsertAll(m, bs)[name] == bs[k].handler
      {
        if k < n {
          assert IsLast(front, k, name);
        }
      }
      if !Mentions(bs, name) {
        assert bs[n].name != name;
        assert forall k :: 0 <= k < n ==> front[k] == bs[k];
        assert !Mentions(front, name);
      }
    }
  }

  /** After any builder calls, lookup finds exactly the last registration made for the name. */
  lemma LookupIsLastRegistration(rs: seq<Registration>, name: Str)
    ensures name in InsertAll(map[], Bindings(rs)) <==> Mentions(Bindings(rs), name)
    ensures Mentions(Bindings(rs), name) ==>
      exists k :: IsLast(Bindings(rs), k, name) && InsertAll(map[], Bindings(rs))[name] == Bindings(rs)[k].handler
  {
    var bs := Bindings(rs);
    InsertAllLookup(map[], bs, name);
    if Mentions(bs, name) {
      var k := LastMention(bs, name);
      assert IsLast(bs, k, name);
    }
  }

  // ----- builder calls, in their own terms -----

  /** The call binds `name`. */
  predicate Registers(r: Registration, name: Str) {
    match r
    case Single(n, _) => n == name
    case Whole(s) =>
      exists i :: 0 <= i < |s.decl.methods| && s.decl.ident + [0x3A, 0x3A] + s.decl.methods[i].ident == name
  }

  /** Call number `k` is the last one that binds `name`. */
  predicate LastCall(rs: seq<Registration>, k: nat, name: Str) {
    k < |rs| && Registers(rs[k], name) && forall j :: k < j < |rs| ==> !Registers(rs[j], name)
  }

  lemma CallMentions(r: Registration, name: Str)
    ensures Mentions(CallBindings(r), name) <==> Registers(r, name)
  {
    var bs := CallBindings(r);
    if r.Single? {
      assert bs[0].name == r.name;
    } else {
      var s := r.svc;
      forall i | 0 <= i < |bs|
        ensures bs[i].name == s.decl.ident + [0x3A, 0x3A] + s.decl.methods[i].ident
      {
        WireNameText(s.decl, s.decl.methods[i].ident);
      }
    }
  }

  lemma BuiltStep(rs: seq<Registration>)
    requires rs != []
    ensures Built(rs) == InsertAll(Built(rs[..|rs| - 1]), CallBindings(rs[|rs| - 1]))
  {
    InsertAllAppend(map[], Bindings(rs[..|rs| - 1]), CallBindings(rs[|rs| - 1]));
  }

  function HandlerOf(r: Registration, name: Str): Handler {
    match r case Single(_, run) => Custom(run) case Whole(svc) => ServiceMethod(svc, name)
  }

  lemma CallBinds(m: Handlers, r: Registration, name: Str)
    ensures Registers(r, name) ==>
      name in InsertAll(m, CallBindings(r)) && InsertAll(m, CallBindings(r))[name] == HandlerOf(r, name)
    ensures !Registers(r, name) ==> (name in InsertAll(m, CallBindings(r)) <==> name in m)
    ensures !Registers(r, name) && name in m ==> InsertAll(m, CallBindings(r))[name] == m[name]
  {
    CallMentions(r, name);
    InsertAllLookup(m, CallBindings(r), name);
    if Registers(r, name) {
      var b := LastMention(CallBindings(r), name);
    }
  }

  lemma LastCallInFront(rs: seq<Registration>, k: nat, name: Str)
    requires LastCall(rs, k, name) && k < |rs| - 1
    ensures LastCall(rs[..|rs| - 1], k, name) && rs[..|rs| - 1][k] == rs[k]
  {}

  /** The last builder call that binds a name decides what it is bound to. */
  lemma {:induction false} LastCallWins(rs: seq<Registration>, k: nat, name: Str)
    requires LastCall(rs, k, name)
    ensures name in Built(rs) && Built(rs)[name] == HandlerOf(rs[k], name)
  {
    var front, last := rs[..|rs| - 1], rs[|rs| - 1];
    BuiltStep(rs);
    CallBinds(Built(front), last, name);
    if k < |front| {
      assert !Registers(last, name);
      LastCallInFront(rs, k, name);
      LastCallWins(front, k, name);
    }
  }

  /** A name no call binds is absent. */
  lemma {:induction false} UncalledIsAbsent(rs: seq<Registration>, name: Str)
    requires forall j :: 0 <= j < |rs| ==> !Registers(rs[j], name)
    ensures name !in Built(rs)
  {
    if rs != [] {
      BuiltStep(rs);
      CallBinds(Built(rs[..|rs| - 1]), rs[|rs| - 1], name);
      UncalledIsAbsent(rs[..|rs| - 1], name);
    }
  }

  predicate Mentions(bs: seq<Binding>, name: Str) { exists k :: 0 <= k < |bs| && bs[k].name == name }

  lemma {:induction false} LastMention(bs: seq<Binding>, name: Str) returns (k: nat)
    requires Mentions(bs, name)
    ensures IsLast(bs, k, name)
  {
    k := |bs| - 1;
    if bs[k].name != name {
      k := LastMention(bs[..k], name);
    }
  }

  /** Binding lists without a common name commute. */
  lemma DisjointBindingsCommute(m: Handlers, a: seq<Binding>, b: seq<Binding>)
    requires forall i, j :: 0 <= i < |a| && 0 <= j < |b| ==> a[i].name != b[j].name
    ensures InsertAll(InsertAll(m, a), b) == InsertAll(InsertAll(m, b), a)
  {
    var x, y := InsertAll(InsertAll(m, a), b), InsertAll(InsertAll(m, b), a);
    forall n: Str
      ensures n in x <==> n in y
      ensures n in x ==> x[n] == y[n]
    {
      InsertAllLookup(m, a, n);
      InsertAllLookup(m, b, n);
      InsertAllLookup(InsertAll(m, a), b, n);
      InsertAllLookup(InsertAll(m, b), a, n);
      if Mentions(a, n) {
        var k := LastMention(a, n);
      } else if Mentions(b, n) {
        var k := LastMention(b, n);
      }
    }
  }

  /** Services of different trait names can be added in either order. */
  lemma ServicesCommute(rs: seq<Registration>, s1: Service, s2: Service)
    requires s1.decl.ident != s2.decl.ident
    ensures InsertAll(map[], Bindings(rs + [Whole(s1), Whole(s2)]))
         == InsertAll(map[], Bindings(rs + [Whole(s2), Whole(s1)]))
  {
    var b1, b2 := ServiceBindings(s1), ServiceBindings(s2);
    forall i, j | 0 <= i < |b1| && 0 <= j < |b2|
      ensures b1[i].name != b2[j].name
    {
      if b1[i].name == b2[j].name {
        WireNameInjective(s1.decl, s1.decl.methods[i].ident, s2.decl, s2.decl.methods[j].ident);
      }
    }
    BindingsOfTwo(rs, s1, s2);
    BindingsOfTwo(rs, s2, s1);
    var m := InsertAll(map[], Bindings(rs));
    InsertAllAppend(map[], Bindings(rs), b1 + b2);
    InsertAllAppend(m, b1, b2);
    InsertAllAppend(map[], Bindings(rs), b2 + b1);
    InsertAllAppend(m, b2, b1);
    DisjointBindingsCommute(m, b1, b2);
  }

  lemma BindingsOfTwo(rs: seq<Registration>, s1: Service, s2: Service)
    ensures Bindings(rs + [Whole(s1), Whole(s2)]) == Bindings(rs) + (ServiceBindings(s1) + ServiceBindings(s2))
  {
    var one := rs + [Whole(s1)];
    BindingsOfWhole(rs, s1);
    BindingsOfWhole(one, s2);
    Reassociate(rs, [Whole(s1)], [Whole(s2)]);
    Reassociate(Bindings(rs), ServiceBindings(s1), ServiceBindings(s2));
    assert [Whole(s1)] + [Whole(s2)] == [Whole(s1), Whole(s2)];
  }

  lemma {:induction false} BindingsAreOwn(rs: seq<Registration>, k: nat)
    requires k < |Bindings(rs)|
    ensures var b := Bindings(rs)[k];
      b.handler.ServiceMethod? ==> b.handler.name == b.name && FindArm(b.handler.svc.decl, b.name, 0).Some?
  {
    var front := Bindings(rs[..|rs| - 1]);
    if k < |front| {
      BindingsAreOwn(rs[..|rs| - 1], k);
    }
  }

  /** A request that reaches a generated service through its registered name is never answered by that
      service's own 404 arm. */
  lemma RegisteredNamesHaveArms(rs: seq<Registration>, name: Str)
    requires name in InsertAll(map[], Bindings(rs)) && InsertAll(map[], Bindings(rs))[name].ServiceMethod?
    ensures var h := InsertAll(map[], Bindings(rs))[name];
      h.name == name && FindArm(h.svc.decl, name, 0).Some?
  {
    LookupIsLastRegistration(rs, name);
    var k :| IsLast(Bindings(rs), k, name) && InsertAll(map[], Bindings(rs))[name] == Bindings(rs)[k].handler;
    BindingsAreOwn(rs, k);
  }
}
