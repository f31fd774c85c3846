/** One server connection as a transition system: the dispatcher loop, one worker per request, the
    128-slot response queue and its writer task. Handlers' outcomes, scheduling and failures are in the
    choice of the next action. */
module ServerMux {
  import opened Primitives
  import opened Envelopes
  import opened Errors
  import opened Registry

  const WRITER_CHANNEL_CAPACITY := 128

  type Outcome = Result<seq<byte>, HandlerError>

  /** The dispatcher: reading; out of its loop with its own queue sender dropped; returned; or its
      future dropped, which aborts the writer task. */
  datatype Dispatcher = Reading | AwaitingWriter | ReturnedOk | Aborted

  datatype SWriter = SIdle | SSending(env: Envelope) | SGone

  /** `methods` is the frozen registry's key set. History: envelopes and requests taken off the wire,
      executed requests with outcome and reply (index by index), replies written, replies dropped,
      workers that panicked, and whether a send failed. */
  datatype State = State(
    methods: set<Str>, dispatcher: Dispatcher, running: seq<RequestData>, finished: seq<Envelope>,
    queue: seq<Envelope>, writer: SWriter,
    ingested: seq<Envelope>, requests: seq<RequestData>,
    executed: seq<RequestData>, outcomes: seq<Outcome>, replies: seq<Envelope>,
    written: seq<Envelope>, dropped: seq<Envelope>, panicked: seq<RequestData>, sendFailed: bool)

  function Init(methods: set<Str>): State {
    State(methods, Reading, [], [], [], SIdle, [], [], [], [], [], [], [], [], false)
  }

  datatype Action =
    | Ingest(env: Envelope) | Finish(i: nat, outcome: Outcome) | Panic(i: nat) | Push(i: nat) | PushRefused(i: nat)
    | WriterRecv | WriterPut | WriterFail | WriterSeesEnd | WriterAborted
    | StopReading | Return | Abort

  function Reply(methods: set<Str>, req: RequestData, outcome: Outcome): Envelope {
    ReplyWith(req.methodName in methods, req, outcome)
  }

  /** Every queue sender is gone: the dispatcher's own and one per worker. */
  predicate NoSenders(s: State) { !s.dispatcher.Reading? && s.running == [] && s.finished == [] }

  predicate Enabled(s: State, a: Action) {
    match a
    case Ingest(_) => s.dispatcher.Reading?
    case Finish(i, _) => i < |s.running|
    case Panic(i) => i < |s.running|
    case Push(i) => i < |s.finished| && |s.queue| < WRITER_CHANNEL_CAPACITY && !s.writer.SGone?
    case PushRefused(i) => i < |s.finished| && s.writer.SGone?
    case WriterRecv => s.writer.SIdle? && s.queue != []
    case WriterPut => s.writer.SSending?
    case WriterFail => s.writer.SSending?
    case WriterSeesEnd => s.writer.SIdle? && s.queue == [] && NoSenders(s)
    case WriterAborted => s.dispatcher.Aborted? && !s.writer.SGone?
    case StopReading => s.dispatcher.Reading?
    case Return => s.dispatcher.AwaitingWriter? && s.writer.SGone?
    case Abort => s.dispatcher.Reading? || s.dispatcher.AwaitingWriter?
  }

  function Without<T>(xs: seq<T>, i: nat): seq<T>
    requires i < |xs|
  { xs[..i] + xs[i + 1..] }

  function InWriter(s: State): seq<Envelope> { if s.writer.SSending? then [s.writer.env] else [] }

  function DoIngest(s: State, e: Envelope): State {
    var t := s.(ingested := s.ingested + [e]);
    if e.Request? then t.(running := s.running + [e.req], requests := s.requests + [e.req]) else t
  }

  function DoFinish(s: State, i: nat, outcome: Outcome, reply: Envelope): State
    requires i < |s.running|
  {
    s.(running := Without(s.running, i), finished := s.finished + [reply],
       executed := s.executed + [s.running[i]], outcomes := s.outcomes + [outcome], replies := s.replies + [reply])
  }

  function Apply(s: State, a: Action): State
    requires Enabled(s, a)
  {
    match a
    case Ingest(e) => DoIngest(s, e)
    case Finish(i, outcome) => DoFinish(s, i, outcome, Reply(s.methods, s.running[i], outcome))
    case Panic(i) => s.(running := Without(s.running, i), panicked := s.panicked + [s.running[i]])
    case Push(i) => s.(finished := Without(s.finished, i), queue := s.queue + [s.finished[i]])
    case PushRefused(i) => s.(finished := Without(s.finished, i), dropped := s.dropped + [s.finished[i]])
    case WriterRecv => s.(writer := SSending(s.queue[0]), queue := s.queue[1..])
    case WriterPut => s.(writer := SIdle, written := s.written + [s.writer.env])
    case WriterFail =>
      s.(writer := SGone, dropped := s.dropped + [s.writer.env] + s.queue, queue := [], sendFailed := true)
    case WriterSeesEnd => s.(writer := SGone)
    case WriterAborted => s.(writer := SGone, dropped := s.dropped + InWriter(s) + s.queue, queue := [])
    case StopReading => s.(dispatcher := AwaitingWriter)
    case Return => s.(dispatcher := ReturnedOk)
    case Abort => s.(dispatcher := Aborted)
  }

  predicate Runs(s: State, run: seq<Action>)
    decreases |run|
  {
    run == [] || (Enabled(s, run[0]) && Runs(Apply(s, run[0]), run[1..]))
  }

  function Final(s: State, run: seq<Action>): State
    requires Runs(s, run)
    decreases |run|
  {
    if run == [] then s else Final(Apply(s, run[0]), run[1..])
  }

  // ----- the invariant -----

  function Requests(es: seq<Envelope>): seq<RequestData> {
    if es == [] then []
    else Requests(es[..|es| - 1]) + if es[|es| - 1].Request? then [es[|es| - 1].req] else []
  }

  /** Every request taken off the wire is with exactly one worker, lost to exactly one panic, or
      executed exactly once, multiplicities included. */
  predicate RequestsConserved(s: State) {
    s.requests == Requests(s.ingested) && multiset(s.requests) == multiset(s.running + (s.panicked + s.executed))
  }

  /** Every reply is at exactly one stage, or dropped, multiplicities included. */
  predicate RepliesConserved(s: State) {
    multiset(s.replies) == multiset(s.finished + Egress(s))
  }

  /** Replies past their worker: in the queue, with the writer, written, dropped. */
  function Egress(s: State): seq<Envelope> { s.queue + (InWriter(s) + (s.written + s.dropped)) }

  predicate Conserved(s: State) { RequestsConserved(s) && RepliesConserved(s) }

  predicate LogOk(s: State) {
    && |s.executed| == |s.outcomes| == |s.replies|
    && forall i :: 0 <= i < |s.replies| ==> s.replies[i] == Reply(s.methods, s.executed[i], s.outcomes[i])
  }

  predicate DrainOk(s: State) {
    && (s.writer.SGone? && !s.sendFailed && !s.dispatcher.Aborted? ==> NoSenders(s) && s.queue == [])
    && (s.writer.SGone? ==> s.queue == [])
    && (s.dispatcher.ReturnedOk? ==> s.writer.SGone?)
    && (!s.sendFailed && !s.dispatcher.Aborted? ==> s.dropped == [])
    && (s.sendFailed ==> s.writer.SGone?)
    && |s.queue| <= WRITER_CHANNEL_CAPACITY
  }

  predicate Inv(s: State) { Conserved(s) && LogOk(s) && DrainOk(s) }

  lemma WithoutBag<T>(xs: seq<T>, i: nat)
    requires i < |xs|
    ensures multiset(xs) == multiset(Without(xs, i)) + multiset{xs[i]}
  {
    assert xs == xs[..i] + [xs[i]] + xs[i + 1..];
  }

  lemma RequestsAppend(es: seq<Envelope>, e: Envelope)
    ensures Requests(es + [e]) == Requests(es) + if e.Request? then [e.req] else []
  {
    assert (es + [e])[..|es|] == es;
  }

  /** Moving one element from a sequence to anywhere in what follows keeps the bag. */
  lemma MoveOne<T>(xs: seq<T>, i: nat, ys: seq<T>, zs: seq<T>)
    requires i < |xs|
    ensures multiset(xs + (ys + zs)) == multiset(Without(xs, i) + ((ys + [xs[i]]) + zs))
    ensures multiset(xs + (ys + zs)) == multiset(Without(xs, i) + (ys + (zs + [xs[i]])))
  {
    WithoutBag(xs, i);
    assert multiset(Without(xs, i) + ((ys + [xs[i]]) + zs))
        == multiset(Without(xs, i)) + multiset(ys) + multiset{xs[i]} + multiset(zs);
    assert multiset(Without(xs, i) + (ys + (zs + [xs[i]])))
        == multiset(Without(xs, i)) + multiset(ys) + multiset(zs) + multiset{xs[i]};
  }

  lemma RequestsStep(s: State, a: Action)
    requires RequestsConserved(s) && Enabled(s, a)
    ensures RequestsConserved(Apply(s, a))
  {
    match a
    case Ingest(e) =>
      RequestsAppend(s.ingested, e);
      if e.Request? { InsertOne(s.requests, s.running, s.panicked + s.executed, e.req); }
    case Finish(i, _) => MoveOne(s.running, i, s.panicked, s.executed);
    case Panic(i) => MoveOne(s.running, i, s.panicked, s.executed);
    case _ =>
  }

  lemma InsertOne<T>(total: seq<T>, xs: seq<T>, ys: seq<T>, x: T)
    requires multiset(total) == multiset(xs + ys)
    ensures multiset(total + [x]) == multiset((xs + [x]) + ys)
  {
    assert multiset((xs + [x]) + ys) == multiset(xs) + multiset{x} + multiset(ys);
  }

  lemma FinishStep(s: State, a: Action)
    requires RepliesConserved(s) && Enabled(s, a) && a.Finish?
    ensures RepliesConserved(Apply(s, a))
  {
    InsertOne(s.replies, s.finished, Egress(s), Reply(s.methods, s.running[a.i], a.outcome));
    assert Egress(Apply(s, a)) == Egress(s);
  }

  lemma PushStep(s: State, a: Action)
    requires RepliesConserved(s) && Enabled(s, a) && a.Push?
    ensures RepliesConserved(Apply(s, a))
  {
    var rest := InWriter(s) + (s.written + s.dropped);
    MoveOne(s.finished, a.i, s.queue, rest);
    assert Egress(Apply(s, a)) == (s.queue + [s.finished[a.i]]) + rest;
  }

  lemma MoveToEnd<T>(xs: seq<T>, i: nat, ys: seq<T>)
    requires i < |xs|
    ensures multiset(xs + ys) == multiset(Without(xs, i) + (ys + [xs[i]]))
  {
    WithoutBag(xs, i);
  }

  lemma DropAppends(s: State, x: Envelope)
    ensures Egress(s.(dropped := s.dropped + [x])) == Egress(s) + [x]
  {}

  lemma PushRefusedStep(s: State, a: Action)
    requires RepliesConserved(s) && Enabled(s, a) && a.PushRefused?
    ensures RepliesConserved(Apply(s, a))
  {
    var x := s.finished[a.i];
    MoveToEnd(s.finished, a.i, Egress(s));
    DropAppends(s, x);
    var t := Apply(s, a);
    assert Egress(t) == Egress(s.(dropped := s.dropped + [x]));
  }

  lemma EgressBag(s: State)
    ensures multiset(Egress(s)) == multiset(s.queue) + multiset(InWriter(s)) + multiset(s.written) + multiset(s.dropped)
  {}

  lemma RecvBag<T>(q: seq<T>, rest: seq<T>)
    requires q != []
    ensures multiset(q[1..] + ([q[0]] + rest)) == multiset(q + rest)
  {
    assert q == [q[0]] + q[1..];
  }

  lemma PutBag<T>(q: seq<T>, x: T, w: seq<T>, d: seq<T>)
    ensures multiset(q + ((w + [x]) + d)) == multiset(q + ([x] + (w + d)))
  {}

  lemma DropBag<T>(q: seq<T>, iw: seq<T>, w: seq<T>, d: seq<T>)
    ensures multiset(w + (d + iw + q)) == multiset(q + (iw + (w + d)))
  {}

  lemma RepliesWriterStep(s: State, a: Action)
    requires RepliesConserved(s) && Enabled(s, a) && !a.Finish? && !a.Push? && !a.PushRefused?
    ensures RepliesConserved(Apply(s, a))
  {
    var t := Apply(s, a);
    EgressStep(s, a);
    assert multiset(t.finished + Egress(t)) == multiset(s.finished) + multiset(Egress(t));
    assert multiset(s.finished + Egress(s)) == multiset(s.finished) + multiset(Egress(s));
  }

  lemma RecvStep(s: State)
    requires Enabled(s, WriterRecv)
    ensures multiset(Egress(Apply(s, WriterRecv))) == multiset(Egress(s))
  {
    RecvBag(s.queue, s.written + s.dropped);
    assert Egress(s) == s.queue + (s.written + s.dropped);
  }

  lemma PutStep(s: State)
    requires Enabled(s, WriterPut)
    ensures multiset(Egress(Apply(s, WriterPut))) == multiset(Egress(s))
  {
    PutBag(s.queue, s.writer.env, s.written, s.dropped);
    assert Egress(Apply(s, WriterPut)) == s.queue + ((s.written + [s.writer.env]) + s.dropped);
  }

  lemma LoseStep(s: State, a: Action)
    requires Enabled(s, a) && (a.WriterFail? || a.WriterAborted?)
    ensures multiset(Egress(Apply(s, a))) == multiset(Egress(s))
  {
    DropBag(s.queue, InWriter(s), s.written, s.dropped);
    assert Egress(Apply(s, a)) == s.written + (s.dropped + InWriter(s) + s.queue);
  }

  lemma EgressKept(s: State, a: Action)
    requires Enabled(s, a) && (a.Ingest? || a.Panic? || a.WriterSeesEnd? || a.StopReading? || a.Return? || a.Abort?)
    ensures Egress(Apply(s, a)) == Egress(s)
  {}

  lemma EgressStep(s: State, a: Action)
    requires Enabled(s, a) && !a.Finish? && !a.Push? && !a.PushRefused?
    ensures multiset(Egress(Apply(s, a))) == multiset(Egress(s))
  {
    if a.WriterRecv? { RecvStep(s); }
    else if a.WriterPut? { PutStep(s); }
    else if a.WriterFail? || a.WriterAborted? { LoseStep(s, a); }
    else { EgressKept(s, a); }
  }

  lemma LogStep(s: State, a: Action)
    requires LogOk(s) && Enabled(s, a)
    ensures LogOk(Apply(s, a))
  {}

  lemma DrainStep(s: State, a: Action)
    requires DrainOk(s) && Enabled(s, a)
    ensures DrainOk(Apply(s, a))
  {}

  lemma InvStep(s: State, a: Action)
    requires Inv(s) && Enabled(s, a)
    ensures Inv(Apply(s, a))
  {
    RequestsStep(s, a);
    LogStep(s, a);
    DrainStep(s, a);
    match a
    case Finish(_, _) => FinishStep(s, a);
    case Push(_) => PushStep(s, a);
    case PushRefused(_) => PushRefusedStep(s, a);
    case _ => RepliesWriterStep(s, a);
  }

  lemma {:induction false} InvRun(s: State, run: seq<Action>)
    requires Inv(s) && Runs(s, run)
    ensures Inv(Final(s, run))
    decreases |run|
  {
    if run != [] {
      InvStep(s, run[0]);
      InvRun(Apply(s, run[0]), run[1..]);
    }
  }

  lemma InitInv(methods: set<Str>)
    ensures Inv(Init(methods))
  {}

  lemma Reachable(methods: set<Str>, run: seq<Action>)
    requires Runs(Init(methods), run)
    ensures Inv(Final(Init(methods), run))
  {
    InitInv(methods);
    InvRun(Init(methods), run);
  }

  // ----- consequences -----

  /** The id a reply envelope answers. */
  function AnsweredId(e: Envelope): u64 { if e.Response? || e.Error? then e.id else 0 }

  function IdsBy<T>(f: T -> u64, xs: seq<T>): (ids: seq<u64>)
    ensures |ids| == |xs| && forall i :: 0 <= i < |xs| ==> ids[i] == f(xs[i])
  { seq(|xs|, i requires 0 <= i < |xs| => f(xs[i])) }

  function RequestIds(rs: seq<RequestData>): seq<u64> { IdsBy((r: RequestData) => r.id, rs) }

  function ReplyIds(es: seq<Envelope>): seq<u64> { IdsBy((e: Envelope) => AnsweredId(e), es) }

  lemma FindInBag<T>(x: T, b: seq<T>) returns (i: nat)
    requires x in multiset(b)
    ensures i < |b| && b[i] == x
  {
    i :| i < |b| && b[i] == x;
  }

  lemma RemoveSame<T>(a: seq<T>, b: seq<T>, i: nat)
    requires a != [] && i < |b| && b[i] == a[0] && multiset(a) == multiset(b)
    ensures multiset(a[1..]) == multiset(Without(b, i))
  {
    WithoutBag(b, i);
    assert a == [a[0]] + a[1..];
    assert multiset(a[1..]) == multiset(a) - multiset{a[0]};
  }

  /** Equal bags have equal bags of ids. */
  lemma {:induction false} IdsOfEqualBags<T>(f: T -> u64, a: seq<T>, b: seq<T>)
    requires multiset(a) == multiset(b)
    ensures multiset(IdsBy(f, a)) == multiset(IdsBy(f, b))
  {
    if a == [] {
      assert |b| == |multiset(b)| == 0;
    } else {
      var i := FindInBag(a[0], b);
      RemoveSame(a, b, i);
      IdsOfEqualBags(f, a[1..], Without(b, i));
      assert IdsBy(f, a) == [f(a[0])] + IdsBy(f, a[1..]);
      assert IdsBy(f, Without(b, i)) == Without(IdsBy(f, b), i);
      WithoutBag(IdsBy(f, b), i);
    }
  }

  lemma RepliesCarryRequestIds(s: State)
    requires LogOk(s)
    ensures ReplyIds(s.replies) == RequestIds(s.executed)
  {}

  lemma IdsAppend<T>(f: T -> u64, a: seq<T>, b: seq<T>)
    ensures multiset(IdsBy(f, a + b)) == multiset(IdsBy(f, a)) + multiset(IdsBy(f, b))
  {
    assert IdsBy(f, a + b) == IdsBy(f, a) + IdsBy(f, b);
  }

  lemma RequestIdsSplit(s: State)
    requires RequestsConserved(s)
    ensures multiset(RequestIds(s.requests))
         == multiset(RequestIds(s.running)) + multiset(RequestIds(s.panicked)) + multiset(RequestIds(s.executed))
  {
    var f := (r: RequestData) => r.id;
    IdsOfEqualBags(f, s.requests, s.running + (s.panicked + s.executed));
    IdsAppend(f, s.running, s.panicked + s.executed);
    IdsAppend(f, s.panicked, s.executed);
  }

  lemma ReplyIdsSplit(s: State)
    requires RepliesConserved(s)
    ensures multiset(ReplyIds(s.replies))
         == multiset(ReplyIds(s.finished)) + multiset(ReplyIds(s.queue)) + multiset(ReplyIds(InWriter(s)))
            + multiset(ReplyIds(s.written)) + multiset(ReplyIds(s.dropped))
  {
    var f := (e: Envelope) => AnsweredId(e);
    IdsOfEqualBags(f, s.replies, s.finished + Egress(s));
    IdsAppend(f, s.finished, Egress(s));
    IdsAppend(f, s.queue, InWriter(s) + (s.written + s.dropped));
    IdsAppend(f, InWriter(s), s.written + s.dropped);
    IdsAppend(f, s.written, s.dropped);
  }

  /** Ids of the requests whose reply is on its way or written. */
  function OnTheWay(s: State): multiset<u64> {
    multiset(RequestIds(s.running)) + multiset(ReplyIds(s.finished)) + multiset(ReplyIds(s.queue))
    + multiset(ReplyIds(InWriter(s))) + multiset(ReplyIds(s.written))
  }

  /** In every run, the ids of all requests read are, with multiplicity, those with a worker, on their
      way back, written, lost to a panic, or dropped. */
  lemma EveryRequestAccounted(methods: set<Str>, run: seq<Action>)
    requires Runs(Init(methods), run)
    ensures var s := Final(Init(methods), run);
      multiset(RequestIds(Requests(s.ingested)))
      == OnTheWay(s) + multiset(RequestIds(s.panicked)) + multiset(ReplyIds(s.dropped))
  {
    Reachable(methods, run);
    var s := Final(Init(methods), run);
    RequestIdsSplit(s);
    ReplyIdsSplit(s);
    RepliesCarryRequestIds(s);
  }

  /** Graceful drain: if the connection function returns and no send failed, then no worker is live, the
      queue is empty, every reply was written, and the ids answered together with those of panicked
      handlers are the ids of all requests read, with multiplicity. */
  lemma GracefulDrain(methods: set<Str>, run: seq<Action>)
    requires Runs(Init(methods), run)
    requires var s := Final(Init(methods), run); s.dispatcher.ReturnedOk? && !s.sendFailed
    ensures var s := Final(Init(methods), run);
      && s.running == [] && s.finished == [] && s.queue == [] && s.writer.SGone? && s.dropped == []
      && multiset(s.replies) == multiset(s.written)
      && multiset(ReplyIds(s.written)) + multiset(RequestIds(s.panicked)) == multiset(RequestIds(Requests(s.ingested)))
  {
    Reachable(methods, run);
    EveryRequestAccounted(methods, run);
    var s := Final(Init(methods), run);
    assert s.finished + Egress(s) == s.written;
  }

  /** What handlers, peer and network decide: frames, how a handler ends, whether and how a pending send
      returns, and an abort from outside. Every other step is the connection's own. */
  predicate Outside(a: Action) {
    a.Ingest? || a.StopReading? || a.Finish? || a.Panic? || a.WriterPut? || a.WriterFail? || a.Abort?
  }

  ghost predicate AtRest(s: State) { forall a :: Enabled(s, a) ==> Outside(a) }

  lemma RestingServer(s: State)
    requires DrainOk(s) && AtRest(s) && (s.dispatcher.AwaitingWriter? || s.dispatcher.ReturnedOk?)
    ensures s.dispatcher.ReturnedOk? <==> s.sendFailed || (s.running == [] && !s.writer.SSending?)
  {
    if s.dispatcher.AwaitingWriter? {
      assert !Enabled(s, Return) && !Enabled(s, WriterRecv) && !Enabled(s, WriterSeesEnd);
      if s.finished != [] { assert !Enabled(s, Push(0)) && !Enabled(s, PushRefused(0)); }
    }
  }

  /** A stopped server gets there: once it has left its read loop without being aborted and has no step of
      its own left, it has returned if and only if its writer died or no handler is running and no send is
      pending. `Liveness.ServerRunIsFinite` bounds how long that takes. */
  lemma StoppedServerReturns(methods: set<Str>, run: seq<Action>)
    requires Runs(Init(methods), run)
    requires var s := Final(Init(methods), run); !s.dispatcher.Reading? && !s.dispatcher.Aborted? && AtRest(s)
    ensures var s := Final(Init(methods), run);
      s.dispatcher.ReturnedOk? <==> s.sendFailed || (s.running == [] && !s.writer.SSending?)
  {
    Reachable(methods, run);
    RestingServer(Final(Init(methods), run));
  }

  /** Nothing is dropped without a send failure or an abort: with no panic either, every request read is
      with a worker, on its way back, or answered. */
  lemma NothingLostWhileHealthy(methods: set<Str>, run: seq<Action>)
    requires Runs(Init(methods), run)
    requires var s := Final(Init(methods), run); !s.sendFailed && !s.dispatcher.Aborted? && s.panicked == []
    ensures var s := Final(Init(methods), run); multiset(RequestIds(Requests(s.ingested))) == OnTheWay(s)
  {
    Reachable(methods, run);
    EveryRequestAccounted(methods, run);
  }

  // ----- order of replies -----

  /** The replies that workers pushed in this run, in that order. */
  function Pushed(s: State, run: seq<Action>): seq<Envelope>
    requires Runs(s, run)
    decreases |run|
  {
    if run == [] then []
    else (if run[0].Push? then [s.finished[run[0].i]] else []) + Pushed(Apply(s, run[0]), run[1..])
  }

  /** What has entered the queue, oldest first. */
  function Outgoing(s: State): seq<Envelope> { s.written + InWriter(s) + s.queue }

  lemma PushGoesLast(s: State, i: nat)
    requires Enabled(s, Push(i))
    ensures Outgoing(Apply(s, Push(i))) == Outgoing(s) + [s.finished[i]]
  {}

  lemma OutgoingKept(s: State, a: Action)
    requires Enabled(s, a) && !a.Push? && !a.WriterFail? && !a.WriterAborted?
    ensures Outgoing(Apply(s, a)) == Outgoing(s) && s.written <= Apply(s, a).written
  {
    if a.WriterRecv? { assert s.queue == [s.queue[0]] + s.queue[1..]; }
  }

  lemma DeadWriter(s: State, a: Action)
    requires Enabled(s, a) && s.writer.SGone? && s.queue == []
    ensures !a.Push? && Apply(s, a).writer.SGone? && Apply(s, a).queue == [] && Apply(s, a).written == s.written
  {}

  lemma {:induction false} NothingAfterDeath(s: State, run: seq<Action>)
    requires Runs(s, run) && s.writer.SGone? && s.queue == []
    ensures Final(s, run).written == s.written && Final(s, run).writer.SGone?
    decreases |run|
  {
    if run != [] {
      DeadWriter(s, run[0]);
      NothingAfterDeath(Apply(s, run[0]), run[1..]);
    }
  }

  /** Replies are written in the order the workers pushed them; while the writer lives, what has been
      pushed is written, in its hands or queued, and nothing else is. */
  lemma {:induction false} WrittenInPushOrder(s: State, run: seq<Action>)
    requires Runs(s, run) && (s.writer.SGone? ==> s.queue == [])
    ensures var t := Final(s, run);
      && t.written <= Outgoing(s) + Pushed(s, run)
      && (!t.writer.SGone? ==> Outgoing(t) == Outgoing(s) + Pushed(s, run))
    decreases |run|
  {
    if run != [] {
      var a, u := run[0], Apply(s, run[0]);
      if u.writer.SGone? && u.queue == [] {
        NothingAfterDeath(u, run[1..]);
        WrittenGrowsWithin(s, a);
      } else {
        WrittenInPushOrder(u, run[1..]);
        if a.Push? {
          PushGoesLast(s, a.i);
          Reassociate(Outgoing(s), [s.finished[a.i]], Pushed(u, run[1..]));
        } else {
          OutgoingKept(s, a);
          assert [] + Pushed(u, run[1..]) == Pushed(u, run[1..]);
        }
      }
    }
  }

  lemma WrittenGrowsWithin(s: State, a: Action)
    requires Enabled(s, a)
    ensures Apply(s, a).written <= Outgoing(s)
  {}

  // ----- what can happen at each wait -----

  /** The dispatcher takes a frame whenever it reads, however full the queue is; any worker may be the next
      to finish, and any finished one the next to push; a push waits exactly while 128 replies are queued. */
  lemma StepsOfServer(s: State, e: Envelope, i: nat, outcome: Outcome)
    ensures Enabled(s, Ingest(e)) <==> s.dispatcher == Reading
    ensures Enabled(s, StopReading) <==> s.dispatcher == Reading
    ensures Enabled(s, Finish(i, outcome)) <==> i < |s.running|
    ensures Enabled(s, Push(i)) <==> i < |s.finished| && |s.queue| < 128 && s.writer != SGone
    ensures Enabled(s, PushRefused(i)) <==> i < |s.finished| && s.writer == SGone
    ensures Enabled(s, WriterRecv) <==> s.writer == SIdle && s.queue != []
    ensures Enabled(s, WriterSeesEnd) <==>
      s.writer == SIdle && s.queue == [] && s.dispatcher != Reading && s.running == [] && s.finished == []
    ensures Enabled(s, Return) <==> s.dispatcher == AwaitingWriter && s.writer == SGone
    ensures Enabled(s, Panic(i)) <==> i < |s.running|
    ensures Enabled(s, WriterPut) <==> s.writer.SSending?
    ensures Enabled(s, WriterFail) <==> s.writer.SSending?
    ensures Enabled(s, Abort) <==> s.dispatcher == Reading || s.dispatcher == AwaitingWriter
    ensures Enabled(s, WriterAborted) <==> s.dispatcher == Aborted && s.writer != SGone
  {}

  /** Ways out: the end of the input leaves the writer to drain, a dropped connection future aborts it. */
  lemma ServerExits(s: State)
    ensures Enabled(s, StopReading) ==> Apply(s, StopReading) == s.(dispatcher := AwaitingWriter)
    ensures Enabled(s, Return) ==> Apply(s, Return) == s.(dispatcher := ReturnedOk)
    ensures Enabled(s, Abort) ==> Apply(s, Abort) == s.(dispatcher := Aborted)
    ensures Enabled(s, WriterAborted) ==>
      Apply(s, WriterAborted) == s.(writer := SGone, queue := [], dropped := s.dropped + InWriter(s) + s.queue)
  {}

  /** A request is handed to a worker as it is; other frames start nothing. */
  lemma IngestHandsOver(s: State, e: Envelope)
    requires s.dispatcher == Reading
    ensures Apply(s, Ingest(e)).running == s.running + (if e.Request? then [e.req] else [])
    ensures var t := Apply(s, Ingest(e)); t.finished == s.finished && t.queue == s.queue && t.writer == s.writer
  {}
}
