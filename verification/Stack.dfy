/** The whole call path: a generated proxy over the multiplexed connection behaves like the local
    implementation. */
module Stack {
  import opened Primitives
  import opened WireCodecs
  import opened Errors
  import opened Schema
  import opened Registry
  import opened Stubs
  import opened Link

  /** The wires are what the codec makes of byte streams: for any chunks of the bytes encoding the frames
      a side has sent, the other side's decoder yields frames that side has taken off the wire or will,
      in order, without failing; and all of them once all bytes are there. */
  lemma BytesCarryTheWires(cap: Cap, st: State, up: seq<seq<byte>>, upRest: seq<byte>,
                           down: seq<seq<byte>>, downRest: seq<byte>)
    requires Inv(st)
    requires forall e :: e in st.c.sent ==> Fits(cap, e)
    requires forall e :: e in st.s.written ==> Fits(cap, e)
    requires Concat(up) + upRest == EncodeAll(cap, st.c.sent)
    requires Concat(down) + downRest == EncodeAll(cap, st.s.written)
    ensures FeedAll(cap, up).items <= st.s.ingested + st.up && FeedAll(cap, up).error.None?
    ensures FeedAll(cap, down).items <= st.c.received + st.down && FeedAll(cap, down).error.None?
    ensures upRest == [] ==> FeedAll(cap, up).items == st.s.ingested + st.up
    ensures downRest == [] ==> FeedAll(cap, down).items == st.c.received + st.down
  {
    StreamPrefix(cap, cap, st.c.sent, up, upRest);
    StreamPrefix(cap, cap, st.s.written, down, downRest);
    if upRest == [] {
      assert Concat(up) + upRest == Concat(up);
      StreamRoundTrip(cap, cap, st.c.sent, up);
    }
    if downRest == [] {
      assert Concat(down) + downRest == Concat(down);
      StreamRoundTrip(cap, cap, st.s.written, down);
    }
  }

  /** The server's workers ran the handlers that `handlers` registers. */
  ghost predicate RanHandlers(s: S.State, handlers: Handlers) {
    && s.methods == handlers.Keys
    && forall j :: 0 <= j < |s.executed| && j < |s.outcomes| && s.executed[j].methodName in handlers ==>
        s.outcomes[j] == Handle(handlers[s.executed[j].methodName], s.executed[j].payload)
  }

  /** Call `k` was made by a proxy of `svc`, on its method number `i` with `args`. */
  predicate MadeByProxy(c: C.State, k: C.Ticket, svc: Service, i: nat, args: seq<Value>)
    requires k < |c.calls| && i < |svc.decl.methods| && HaveTypes(args, Types(svc.decl.methods[i].params))
  {
    c.calls[k].args == C.Args(WireName(svc.decl, svc.decl.methods[i].ident), ArgumentPayload(svc.decl.methods[i], args))
  }

  /** In any run, among any other calls, faults and cancellations: when a proxy's call comes back with a
      payload or a remote error, the proxy method returns the normalised result of the local
      implementation on the proxy's own arguments, which the server ran exactly once. */
  lemma ProxyOverConnection(handlers: Handlers, wire: nat, run: seq<Step>, k: C.Ticket,
                            svc: Service, m: nat, args: seq<Value>) returns (i: nat)
    requires Runs(Init(handlers.Keys, wire), run) && Serves(handlers, svc)
    requires m < |svc.decl.methods| && HaveTypes(args, Types(svc.decl.methods[m].params))
    requires var st := Final(Init(handlers.Keys, wire), run);
      && CT.FewCalls(st.c) && RanHandlers(st.s, handlers)
      && k < |st.c.calls| && MadeByProxy(st.c, k, svc, m, args)
      && st.c.calls[k].phase.Done? && st.c.calls[k].phase.verdict.Returned?
      && st.c.calls[k].phase.verdict.result != Err(Closed)
    ensures var st := Final(Init(handlers.Keys, wire), run);
      && AnsweredBy(st, k, i)
      && DecodeReply(svc.decl.methods[m], st.c.calls[k].phase.verdict.result)
         == Normalise(svc.body(svc.decl.methods[m].ident, args))
  {
    var st := Final(Init(handlers.Keys, wire), run);
    i := Routing(handlers.Keys, wire, run, k);
    var req := st.s.executed[i];
    assert req == ProxyRequest(svc, m, args, st.c.calls[k].id);
    assert S.Reply(st.s.methods, req, st.s.outcomes[i]) == Dispatch(handlers, req);
    ReplyIsNormalised(handlers, svc, m, args, st.c.calls[k].id);
  }

  /** The same for a raw `Client::call`: a registered method's bytes or error come back unchanged, and
      an unregistered one is a 404 naming the method. */
  lemma RawCallOverConnection(handlers: Handlers, wire: nat, run: seq<Step>, k: C.Ticket)
    requires Runs(Init(handlers.Keys, wire), run)
    requires var st := Final(Init(handlers.Keys, wire), run);
      && CT.FewCalls(st.c) && RanHandlers(st.s, handlers)
      && k < |st.c.calls| && st.c.calls[k].phase.Done? && st.c.calls[k].phase.verdict.Returned?
      && st.c.calls[k].phase.verdict.result != Err(Closed)
    ensures var st := Final(Init(handlers.Keys, wire), run);
      var args := st.c.calls[k].args;
      st.c.calls[k].phase.verdict.result ==
        if args.methodName !in handlers then Err(Remote(404, Append(Ascii("unknown method: "), args.methodName)))
        else match Handle(handlers[args.methodName], args.payload)
             case Ok(bytes) => Ok(bytes)
             case Err(e) => Err(Remote(e.code, e.message))
  {
    var i := Routing(handlers.Keys, wire, run, k);
  }

  /** In the terms of the builder: with handlers built by the calls `rs`, a raw call of a method whose last
      registration is a handler of the user's returns what that handler makes of the call's own payload. */
  lemma RawCallRunsHandler(rs: seq<Registration>, j: nat, wire: nat, run: seq<Step>, k: C.Ticket)
    requires Runs(Init(Built(rs).Keys, wire), run)
    requires var st := Final(Init(Built(rs).Keys, wire), run);
      && CT.FewCalls(st.c) && RanHandlers(st.s, Built(rs))
      && k < |st.c.calls| && st.c.calls[k].phase.Done? && st.c.calls[k].phase.verdict.Returned?
      && st.c.calls[k].phase.verdict.result != Err(Closed)
      && LastCall(rs, j, st.c.calls[k].args.methodName) && rs[j].Single?
    ensures var c := Final(Init(Built(rs).Keys, wire), run).c.calls[k];
      c.phase.verdict.result ==
        match rs[j].run(c.args.payload) case Ok(bytes) => Ok(bytes) case Err(e) => Err(Remote(e.code, e.message))
  {
    RawCallOverConnection(Built(rs), wire, run, k);
    LastCallWins(rs, j, Final(Init(Built(rs).Keys, wire), run).c.calls[k].args.methodName);
  }
}
