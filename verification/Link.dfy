/** A client and a server joined by two bounded FIFO wires: routing, at-most-once execution and
    conservation of requests over every run. */
module Link {
  import opened Primitives
  import opened Envelopes
  import opened Errors
  import C = ClientMux
  import CI = ClientInvariant
  import CT = ClientTheorems
  import CO = CallOutcomes
  import S = ServerMux

  /** `wire` is how many frames each direction holds before a send has to wait. */
  datatype State = State(c: C.State, up: seq<Envelope>, s: S.State, down: seq<Envelope>, wire: nat)

  datatype Step = Cl(a: C.Action) | Sv(b: S.Action)

  function Init(methods: set<Str>, wire: nat): State { State(C.Init, [], S.Init(methods), [], wire) }

  predicate Enabled(st: State, step: Step) {
    match step
    case Cl(a) =>
      && C.Enabled(st.c, a)
      && (a.WriterPut? ==> |st.up| < st.wire)
      && (a.ReaderFrame? ==> st.down != [] && a.env == st.down[0])
    case Sv(b) =>
      && S.Enabled(st.s, b)
      && (b.WriterPut? ==> |st.down| < st.wire)
      && (b.Ingest? ==> st.up != [] && b.env == st.up[0])
  }

  function Apply(st: State, step: Step): State
    requires Enabled(st, step)
  {
    match step
    case Cl(a) =>
      st.(c := C.Apply(st.c, a),
          up := if a.WriterPut? then st.up + [st.c.writer.env] else st.up,
          down := if a.ReaderFrame? then st.down[1..] else st.down)
    case Sv(b) =>
      st.(s := S.Apply(st.s, b),
          up := if b.Ingest? then st.up[1..] else st.up,
          down := if b.WriterPut? then st.down + [st.s.writer.env] else st.down)
  }

  predicate Runs(st: State, run: seq<Step>)
    decreases |run|
  {
    run == [] || (Enabled(st, run[0]) && Runs(Apply(st, run[0]), run[1..]))
  }

  function Final(st: State, run: seq<Step>): State
    requires Runs(st, run)
    decreases |run|
  {
    if run == [] then st else Final(Apply(st, run[0]), run[1..])
  }

  /** A send returns while the wire has room, and a side reads the oldest frame on its wire; everything
      else is as each side has it. */
  lemma StepsOfWires(st: State, a: C.Action, b: S.Action)
    ensures Enabled(st, Cl(C.WriterPut)) <==> st.c.writer.WSending? && |st.up| < st.wire
    ensures Enabled(st, Sv(S.WriterPut)) <==> st.s.writer.SSending? && |st.down| < st.wire
    ensures a.ReaderFrame? ==> (Enabled(st, Cl(a)) <==> st.c.reader == C.RIdle && st.down != [] && a.env == st.down[0])
    ensures b.Ingest? ==> (Enabled(st, Sv(b)) <==> st.s.dispatcher == S.Reading && st.up != [] && b.env == st.up[0])
    ensures !a.WriterPut? && !a.ReaderFrame? ==> (Enabled(st, Cl(a)) <==> C.Enabled(st.c, a))
    ensures !b.WriterPut? && !b.Ingest? ==> (Enabled(st, Sv(b)) <==> S.Enabled(st.s, b))
  {}

  // ----- invariant -----

  /** The wires neither lose, duplicate nor reorder. */
  predicate WiresOk(st: State) {
    st.c.sent == st.s.ingested + st.up && st.s.written == st.c.received + st.down
  }

  predicate Inv(st: State) { C.Inv(st.c) && S.Inv(st.s) && WiresOk(st) }

  lemma WiresClientStep(st: State, a: C.Action)
    requires WiresOk(st) && Enabled(st, Cl(a))
    ensures WiresOk(Apply(st, Cl(a)))
  {}

  lemma WiresServerStep(st: State, b: S.Action)
    requires WiresOk(st) && Enabled(st, Sv(b))
    ensures WiresOk(Apply(st, Sv(b)))
  {}

  lemma InvStep(st: State, step: Step)
    requires Inv(st) && Enabled(st, step)
    ensures Inv(Apply(st, step))
  {
    match step
    case Cl(a) => CI.InvStep(st.c, a); WiresClientStep(st, a);
    case Sv(b) => S.InvStep(st.s, b); WiresServerStep(st, b);
  }

  lemma {:induction false} InvRun(st: State, run: seq<Step>)
    requires Inv(st) && Runs(st, run)
    ensures Inv(Final(st, run))
    decreases |run|
  {
    if run != [] {
      InvStep(st, run[0]);
      InvRun(Apply(st, run[0]), run[1..]);
    }
  }

  lemma Reachable(methods: set<Str>, wire: nat, run: seq<Step>)
    requires Runs(Init(methods, wire), run)
    ensures Inv(Final(Init(methods, wire), run))
  {
    CI.InitInv();
    S.InitInv(methods);
    InvRun(Init(methods, wire), run);
  }

  // ----- what each side sees of a run -----

  function ClientPart(run: seq<Step>): seq<C.Action> {
    if run == [] then []
    else if run[0].Cl? then [run[0].a] + ClientPart(run[1..])
    else ClientPart(run[1..])
  }

  function ServerPart(run: seq<Step>): seq<S.Action> {
    if run == [] then []
    else if run[0].Sv? then [run[0].b] + ServerPart(run[1..])
    else ServerPart(run[1..])
  }

  /** A step is its own side's action, and leaves the other side alone. */
  lemma StepParts(st: State, step: Step)
    requires Enabled(st, step)
    ensures step.Cl? ==> C.Enabled(st.c, step.a) && Apply(st, step).c == C.Apply(st.c, step.a)
    ensures step.Sv? ==> S.Enabled(st.s, step.b) && Apply(st, step).s == S.Apply(st.s, step.b)
    ensures (step.Sv? ==> Apply(st, step).c == st.c) && (step.Cl? ==> Apply(st, step).s == st.s)
  {}

  lemma ServerRunOf(s: S.State, b: S.Action, rest: seq<S.Action>)
    requires S.Enabled(s, b) && S.Runs(S.Apply(s, b), rest)
    ensures S.Runs(s, [b] + rest) && S.Final(s, [b] + rest) == S.Final(S.Apply(s, b), rest)
  {
    assert ([b] + rest)[1..] == rest;
  }

  /** The client's steps in a run of the whole are a run of the client. */
  lemma {:induction false} ClientPartRuns(st: State, run: seq<Step>)
    requires Runs(st, run)
    ensures C.Runs(st.c, ClientPart(run)) && C.Final(st.c, ClientPart(run)) == Final(st, run).c
    decreases |run|
  {
    if run != [] {
      ClientPartRuns(Apply(st, run[0]), run[1..]);
      StepParts(st, run[0]);
      if run[0].Cl? { var _ := CT.Prepend(st.c, run[0].a, ClientPart(run[1..])); }
    }
  }

  /** Likewise the server's. */
  lemma {:induction false} ServerPartRuns(st: State, run: seq<Step>)
    requires Runs(st, run)
    ensures S.Runs(st.s, ServerPart(run)) && S.Final(st.s, ServerPart(run)) == Final(st, run).s
    decreases |run|
  {
    if run != [] {
      ServerPartRuns(Apply(st, run[0]), run[1..]);
      StepParts(st, run[0]);
      if run[0].Sv? { ServerRunOf(st.s, run[0].b, ServerPart(run[1..])); }
    }
  }

  /** Disconnect in the whole system: with the client's reader gone, a parked caller is stuck if and only
      if its insert came after the drain. */
  lemma WokenUnlessLate(methods: set<Str>, wire: nat, run: seq<Step>, k: C.Ticket)
    requires Runs(Init(methods, wire), run)
    requires var c := Final(Init(methods, wire), run).c;
      CT.FewCalls(c) && c.reader.RGone? && k < |c.calls| && c.calls[k].phase.Parked?
    ensures var c := Final(Init(methods, wire), run).c; c.calls[k].slot.Open? <==> c.calls[k].late
  {
    ClientPartRuns(Init(methods, wire), run);
    CT.WokenUnlessLate(ClientPart(run), k);
  }

  /** And once everything on the client has settled, the stranded calls are exactly the late ones. */
  lemma StrandedCallsExactly(methods: set<Str>, wire: nat, run: seq<Step>, k: C.Ticket)
    requires Runs(Init(methods, wire), run)
    requires var c := Final(Init(methods, wire), run).c; CT.FewCalls(c) && CT.Settled(c) && k < |c.calls|
    ensures var c := Final(Init(methods, wire), run).c;
      && (c.calls[k].phase.Parked? <==> c.calls[k].late && k in c.order && c.calls[k].phase != C.Done(C.Cancelled))
      && (c.calls[k].phase.Parked? <==> C.InMap(c, k))
  {
    ClientPartRuns(Init(methods, wire), run);
    CT.StrandedCallsExactly(ClientPart(run), k);
  }

  /** Graceful drain in the whole system: if the server returned and no send of its writer failed, each
      request it read, panics apart, has its reply with the client or on the wire to it, and nowhere else. */
  lemma GracefulDrain(methods: set<Str>, wire: nat, run: seq<Step>)
    requires Runs(Init(methods, wire), run)
    requires var s := Final(Init(methods, wire), run).s; s.dispatcher.ReturnedOk? && !s.sendFailed
    ensures var st := Final(Init(methods, wire), run);
      && st.s.running == [] && st.s.dropped == []
      && multiset(S.ReplyIds(st.c.received)) + multiset(S.ReplyIds(st.down)) + multiset(S.RequestIds(st.s.panicked))
         == multiset(S.RequestIds(S.Requests(st.s.ingested)))
  {
    var st := Final(Init(methods, wire), run);
    Reachable(methods, wire, run);
    ServerPartRuns(Init(methods, wire), run);
    S.GracefulDrain(methods, ServerPart(run));
    S.IdsAppend((e: Envelope) => S.AnsweredId(e), st.c.received, st.down);
  }

  // ----- requests, from queue to worker -----

  function ReqOf(c: C.Call): RequestData { C.RequestOf(c).req }

  lemma {:induction false} AllRequests(es: seq<Envelope>)
    requires forall i :: 0 <= i < |es| ==> es[i].Request?
    ensures |S.Requests(es)| == |es| && forall i :: 0 <= i < |es| ==> S.Requests(es)[i] == es[i].req
  {
    if es != [] { AllRequests(es[..|es| - 1]); }
  }

  lemma IngestedArePrefix(st: State)
    requires C.FlowOk(st.c) && WiresOk(st)
    ensures st.s.ingested <= st.c.submitted
  {
    assert st.c.submitted == st.s.ingested + (st.up + st.c.lost + C.InWriter(st.c) + st.c.queue);
  }

  /** The requests the server read are, in order, a prefix of those the calls enqueued. */
  lemma RequestsAreCalls(st: State)
    requires Inv(st)
    ensures |st.s.requests| <= |st.c.order|
    ensures forall i :: 0 <= i < |st.s.requests| ==>
      st.c.order[i] < |st.c.calls| && st.s.requests[i] == ReqOf(st.c.calls[st.c.order[i]])
  {
    IngestedArePrefix(st);
    assert forall i :: 0 <= i < |st.s.ingested| ==> st.s.ingested[i] == st.c.submitted[i];
    AllRequests(st.s.ingested);
  }

  predicate DistinctIds(rs: seq<RequestData>) { forall i, j :: 0 <= i < j < |rs| ==> rs[i].id != rs[j].id }

  lemma RequestIdIsTicket(st: State, i: nat)
    requires Inv(st) && CT.FewCalls(st.c) && i < |st.s.requests|
    ensures i < |st.c.order| && st.s.requests[i].id == st.c.order[i] < |st.c.calls|
    ensures st.s.requests[i] == ReqOf(st.c.calls[st.c.order[i]])
  {
    RequestsAreCalls(st);
  }

  lemma RequestIdsDistinct(st: State)
    requires Inv(st) && CT.FewCalls(st.c)
    ensures DistinctIds(st.s.requests)
  {
    forall i, j | 0 <= i < j < |st.s.requests|
      ensures st.s.requests[i].id != st.s.requests[j].id
    {
      RequestIdIsTicket(st, i);
      RequestIdIsTicket(st, j);
    }
  }

  lemma TwiceInBag<T>(xs: seq<T>, i: nat, j: nat)
    requires i < j < |xs| && xs[i] == xs[j]
    ensures multiset(xs)[xs[i]] >= 2
  {
    S.WithoutBag(xs, j);
    assert S.Without(xs, j)[i] == xs[i];
    assert xs[i] in multiset(S.Without(xs, j));
  }

  lemma {:induction false} DistinctBag(rs: seq<RequestData>, r: RequestData)
    requires DistinctIds(rs)
    ensures multiset(rs)[r] <= 1
  {
    if rs != [] {
      var front := rs[..|rs| - 1];
      DistinctBag(front, r);
      assert rs == front + [rs[|rs| - 1]];
      if rs[|rs| - 1] == r && r in multiset(front) {
        var i := S.FindInBag(r, front);
        assert false;
      }
    }
  }

  lemma ExecutedIsRequested(s: S.State, i: nat)
    requires S.RequestsConserved(s) && i < |s.executed|
    ensures exists j :: 0 <= j < |s.requests| && s.requests[j] == s.executed[i]
  {
    assert s.executed[i] in multiset(s.executed);
    assert multiset(s.requests) == multiset(s.running) + multiset(s.panicked) + multiset(s.executed);
    var j := S.FindInBag(s.executed[i], s.requests);
  }

  /** Each id is executed at most once, over any run with fewer than 2^64 calls. */
  lemma ExecutedAtMostOnce(st: State, i: nat, j: nat)
    requires Inv(st) && CT.FewCalls(st.c) && i < |st.s.executed| && j < |st.s.executed|
    requires st.s.executed[i].id == st.s.executed[j].id
    ensures i == j
  {
    ExecutedIsCall(st, i);
    ExecutedIsCall(st, j);
    RequestIdsDistinct(st);
    if i < j { ExecutedTwice(st.s, i, j); }
    if j < i { ExecutedTwice(st.s, j, i); }
  }

  lemma ExecutedTwice(s: S.State, i: nat, j: nat)
    requires S.RequestsConserved(s) && DistinctIds(s.requests) && i < j < |s.executed|
    ensures s.executed[i] != s.executed[j]
  {
    if s.executed[i] == s.executed[j] {
      TwiceInBag(s.executed, i, j);
      var r := s.executed[i];
      assert multiset(s.requests)[r] >= multiset(s.executed)[r];
      DistinctBag(s.requests, r);
    }
  }

  // ----- replies, from worker to caller -----

  lemma WrittenIsEgress(s: S.State, e: Envelope)
    requires e in s.written
    ensures e in multiset(S.Egress(s))
  {
    S.EgressBag(s);
  }

  /** Every reply that reached the wire is the reply of some execution. */
  lemma WrittenIsReply(st: State, e: Envelope) returns (i: nat)
    requires S.Inv(st.s) && e in st.s.written
    ensures i < |st.s.replies| == |st.s.executed| == |st.s.outcomes|
    ensures e == st.s.replies[i] == S.Reply(st.s.methods, st.s.executed[i], st.s.outcomes[i])
    ensures S.AnsweredId(e) == st.s.executed[i].id && C.ReplyId(e) == Some(st.s.executed[i].id)
  {
    WrittenIsEgress(st.s, e);
    assert multiset(st.s.replies) == multiset(st.s.finished) + multiset(S.Egress(st.s));
    i := S.FindInBag(e, st.s.replies);
  }

  /** The execution that answers a caller: on exactly that caller's id, method and payload. */
  predicate AnsweredBy(st: State, k: C.Ticket, i: nat)
    requires k < |st.c.calls|
  {
    && i < |st.s.executed| && i < |st.s.outcomes|
    && st.s.executed[i] == ReqOf(st.c.calls[k])
    && (forall j :: 0 <= j < |st.s.executed| && st.s.executed[j].id == st.c.calls[k].id ==> j == i)
  }

  lemma ExecutedIsCall(st: State, i: nat)
    requires Inv(st) && CT.FewCalls(st.c) && i < |st.s.executed|
    ensures var k := st.s.executed[i].id;
      k < |st.c.calls| && k in st.c.order && st.s.executed[i] == ReqOf(st.c.calls[k])
  {
    ExecutedIsRequested(st.s, i);
    var j :| 0 <= j < |st.s.requests| && st.s.requests[j] == st.s.executed[i];
    RequestIdIsTicket(st, j);
  }

  lemma ExecutionIsUnique(st: State, i: nat)
    requires Inv(st) && CT.FewCalls(st.c) && i < |st.s.executed|
    ensures forall j :: 0 <= j < |st.s.executed| && st.s.executed[j].id == st.s.executed[i].id ==> j == i
  {
    forall j | 0 <= j < |st.s.executed| && st.s.executed[j].id == st.s.executed[i].id
      ensures j == i
    {
      ExecutedAtMostOnce(st, i, j);
    }
  }

  lemma ReceivedReplyAnswers(st: State, e: Envelope, k: C.Ticket) returns (i: nat)
    requires Inv(st) && CT.FewCalls(st.c) && e in st.c.received
    requires k < |st.c.calls| && C.ReplyId(e) == Some(st.c.calls[k].id)
    ensures AnsweredBy(st, k, i) && e == S.Reply(st.s.methods, st.s.executed[i], st.s.outcomes[i])
  {
    i := WrittenIsReply(st, e);
    ExecutedIsCall(st, i);
    ExecutionIsUnique(st, i);
    IdIsTicket(st.c, k);
  }

  lemma IdIsTicket(c: C.State, k: C.Ticket)
    requires C.IdsOk(c) && CT.FewCalls(c) && k < |c.calls|
    ensures c.calls[k].id == k
  {}

  /** End-to-end routing: a call that returned a payload or a remote error was executed by exactly one
      worker, exactly once, on its own id, method and payload, and its result is that worker's outcome. */
  lemma Routing(methods: set<Str>, wire: nat, run: seq<Step>, k: C.Ticket) returns (i: nat)
    requires Runs(Init(methods, wire), run)
    requires var st := Final(Init(methods, wire), run);
      && CT.FewCalls(st.c) && k < |st.c.calls|
      && st.c.calls[k].phase.Done? && st.c.calls[k].phase.verdict.Returned?
      && st.c.calls[k].phase.verdict.result != Err(Closed)
    ensures var st := Final(Init(methods, wire), run);
      && AnsweredBy(st, k, i)
      && st.c.calls[k].phase.verdict.result == CallResult(S.Reply(st.s.methods, st.s.executed[i], st.s.outcomes[i]))
  {
    Reachable(methods, wire, run);
    var st := Final(Init(methods, wire), run);
    assert C.CallOk(st.c, k);
    i := ReceivedReplyAnswers(st, st.c.calls[k].slot.env, k);
  }

  /** What the caller is told of a worker's outcome. */
  function ToldOf(known: bool, name: Str, outcome: S.Outcome): Result<seq<byte>, PatinaError> {
    if !known then Err(Remote(404, Append(Ascii("unknown method: "), name)))
    else match outcome
         case Ok(bytes) => Ok(bytes)
         case Err(e) => Err(Remote(e.code, e.message))
  }

  /** A delivered reply is returned: an enqueued call that was not cancelled and whose one-shot fired
      finished with the outcome of the one worker that ran its request, even if the connection has been
      closed in between. */
  lemma DeliveredIsReturned(methods: set<Str>, wire: nat, run: seq<Step>, k: C.Ticket) returns (i: nat)
    requires Runs(Init(methods, wire), run)
    requires var c := Final(Init(methods, wire), run).c;
      && CT.FewCalls(c) && k < |c.calls| && k in c.order
      && c.calls[k].phase.Done? && c.calls[k].phase.verdict.Returned? && c.calls[k].slot.Fired?
    ensures var st := Final(Init(methods, wire), run);
      && AnsweredBy(st, k, i)
      && st.c.calls[k].phase.verdict.result ==
           ToldOf(st.c.calls[k].args.methodName in st.s.methods, st.c.calls[k].args.methodName, st.s.outcomes[i])
  {
    var st := Final(Init(methods, wire), run);
    ClientPartRuns(Init(methods, wire), run);
    CI.InitInv();
    CO.OutcomesRun(C.Init, ClientPart(run));
    assert CO.OutcomeOk(st.c, k);
    CI.Reachable(ClientPart(run));
    CT.FiredValueIsOwnReply(st.c, k);
    i := Routing(methods, wire, run, k);
  }

  // ----- conservation -----

  function IdOf(e: Envelope): u64 { if e.Request? then e.req.id else S.AnsweredId(e) }

  /** How many frames of `es` carry `id`. */
  function Frames(es: seq<Envelope>, id: u64): nat { multiset(S.IdsBy((e: Envelope) => IdOf(e), es))[id] }

  function Workers(rs: seq<RequestData>, id: u64): nat { multiset(S.RequestIds(rs))[id] }

  lemma FramesAppend(a: seq<Envelope>, b: seq<Envelope>, id: u64)
    ensures Frames(a + b, id) == Frames(a, id) + Frames(b, id)
  {
    var f := (e: Envelope) => IdOf(e);
    assert S.IdsBy(f, a + b) == S.IdsBy(f, a) + S.IdsBy(f, b);
  }

  lemma WorkersAppend(a: seq<RequestData>, b: seq<RequestData>, id: u64)
    ensures Workers(a + b, id) == Workers(a, id) + Workers(b, id)
  {
    assert S.RequestIds(a + b) == S.RequestIds(a) + S.RequestIds(b);
  }

  /** Requests that have not reached a worker, anywhere on the way or lost before it. */
  function Inbound(st: State, id: u64): nat {
    Frames(st.c.queue, id) + Frames(C.InWriter(st.c), id) + Frames(st.c.lost, id) + Frames(st.up, id)
  }

  /** Requests with a worker, running or panicked. */
  function AtWorker(st: State, id: u64): nat { Workers(st.s.running, id) + Workers(st.s.panicked, id) }

  /** Replies between worker and client reader, or dropped on the way. */
  function Outbound(st: State, id: u64): nat {
    Frames(st.s.finished, id) + Frames(st.s.queue, id) + Frames(S.InWriter(st.s), id) + Frames(st.s.dropped, id)
    + Frames(st.down, id)
  }

  lemma FramesOfFive(a: seq<Envelope>, b: seq<Envelope>, c: seq<Envelope>, d: seq<Envelope>, e: seq<Envelope>, id: u64)
    ensures Frames(a + b + c + d + e, id)
         == Frames(a, id) + Frames(b, id) + Frames(c, id) + Frames(d, id) + Frames(e, id)
  {
    FramesAppend(a + b + c + d, e, id);
    FramesAppend(a + b + c, d, id);
    FramesAppend(a + b, c, id);
    FramesAppend(a, b, id);
  }

  lemma SubmittedSplit(st: State, id: u64)
    requires Inv(st)
    ensures Frames(st.c.submitted, id) == Inbound(st, id) + Workers(st.s.requests, id)
  {
    assert st.c.submitted == st.s.ingested + st.up + st.c.lost + C.InWriter(st.c) + st.c.queue;
    FramesOfFive(st.s.ingested, st.up, st.c.lost, C.InWriter(st.c), st.c.queue, id);
    RequestsKeepIds(st);
  }

  lemma RequestsKeepIds(st: State)
    requires Inv(st)
    ensures S.RequestIds(st.s.requests) == S.IdsBy((e: Envelope) => IdOf(e), st.s.ingested)
  {
    assert forall i :: 0 <= i < |st.s.ingested| ==> st.s.ingested[i] == st.c.submitted[i];
    AllRequests(st.s.ingested);
  }

  lemma RequestsSplit(st: State, id: u64)
    requires Inv(st)
    ensures Workers(st.s.requests, id) == AtWorker(st, id) + Frames(st.s.replies, id)
  {
    var s := st.s;
    S.IdsOfEqualBags((r: RequestData) => r.id, s.requests, s.running + (s.panicked + s.executed));
    WorkersAppend(s.running, s.panicked + s.executed, id);
    WorkersAppend(s.panicked, s.executed, id);
    assert S.RequestIds(s.executed) == S.IdsBy((e: Envelope) => IdOf(e), s.replies);
  }

  lemma RepliesSplit(st: State, id: u64)
    requires Inv(st)
    ensures Frames(st.s.replies, id) == Outbound(st, id) + Frames(st.c.received, id)
  {
    var s := st.s;
    var a, b, c, d := s.queue, S.InWriter(s), s.written, s.dropped;
    S.IdsOfEqualBags((e: Envelope) => IdOf(e), s.replies, s.finished + S.Egress(s));
    FramesAppend(s.finished, S.Egress(s), id);
    FramesAppend(a, b + (c + d), id);
    FramesAppend(b, c + d, id);
    FramesAppend(c, d, id);
    FramesAppend(st.c.received, st.down, id);
  }

  lemma OnceInBag<T>(xs: seq<T>, i: nat)
    requires i < |xs| && forall j :: 0 <= j < |xs| && j != i ==> xs[j] != xs[i]
    ensures multiset(xs)[xs[i]] == 1
  {
    S.WithoutBag(xs, i);
    assert forall j :: 0 <= j < |xs| - 1 ==> S.Without(xs, i)[j] == (if j < i then xs[j] else xs[j + 1]);
    assert xs[i] !in S.Without(xs, i);
  }

  lemma SubmittedOnce(st: State, k: C.Ticket)
    requires Inv(st) && CT.FewCalls(st.c) && k < |st.c.calls|
    ensures Frames(st.c.submitted, k) == C.Count(k in st.c.order)
  {
    var ids := S.IdsBy((e: Envelope) => IdOf(e), st.c.submitted);
    assert forall i :: 0 <= i < |ids| ==> ids[i] == st.c.order[i];
    if k in st.c.order {
      var i :| 0 <= i < |ids| && ids[i] == k;
      OnceInBag(ids, i);
    }
  }

  /** Conservation: at every moment of every run, the request of an enqueued call is at exactly one
      stage of the pipeline, counted over all of them; a call not enqueued is at none. */
  lemma ExactlyOneStage(methods: set<Str>, wire: nat, run: seq<Step>, k: C.Ticket)
    requires Runs(Init(methods, wire), run)
    requires CT.FewCalls(Final(Init(methods, wire), run).c) && k < |Final(Init(methods, wire), run).c.calls|
    ensures var st := Final(Init(methods, wire), run);
      Inbound(st, k) + AtWorker(st, k) + Outbound(st, k) + Frames(st.c.received, k) == C.Count(k in st.c.order)
  {
    Reachable(methods, wire, run);
    var st := Final(Init(methods, wire), run);
    SubmittedOnce(st, k);
    SubmittedSplit(st, k);
    RequestsSplit(st, k);
    RepliesSplit(st, k);
  }
}
