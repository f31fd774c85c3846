/** Progress: every run of the whole system is finite, and while the connection is up no live call is
    ever stuck, despite two bounded queues and two bounded wires. */
module Liveness {
  import opened Primitives
  import opened Envelopes
  import opened Errors
  import opened Link

  // ----- the measure -----

  function CallWeight(c: C.Call): nat {
    match c.phase
    case Allocated => 15
    case Inserted => 13
    case Parked => 2
    case Unwinding(_) => 1
    case Done(_) => 0
  }

  function CallsWeight(calls: seq<C.Call>): nat {
    if calls == [] then 0 else CallsWeight(calls[..|calls| - 1]) + CallWeight(calls[|calls| - 1])
  }

  function WriterWeight(w: C.Writer): nat {
    match w
    case WSending(_) => 13 case WIdle => 4 case WLeaving => 3 case WCancelled => 2 case WGone => 0
  }

  function ReaderWeight(r: C.Reader): nat {
    match r
    case RGot(_) => 7 case RHolding(_, _) => 6 case RIdle => 5 case RLeaving => 4 case RCancelled => 3
    case RDraining(m) => 1 + |m| case RGone => 0
  }

  function ClientWeight(c: C.State): nat {
    CallsWeight(c.calls) + 16 * |c.entering| + C.Count(c.alive) + |c.pending| + 10 * |c.queue|
    + WriterWeight(c.writer) + ReaderWeight(c.reader)
  }

  function DispatcherWeight(d: S.Dispatcher): nat {
    match d case Reading => 3 case AwaitingWriter => 2 case ReturnedOk => 1 case Aborted => 1
  }

  function SWriterWeight(w: S.SWriter): nat {
    match w case SSending(_) => 6 case SIdle => 2 case SGone => 0
  }

  function ServerWeight(s: S.State): nat {
    7 * |s.running| + 6 * |s.finished| + 5 * |s.queue| + SWriterWeight(s.writer) + DispatcherWeight(s.dispatcher)
  }

  /** The stages that everything in the system still has ahead of it. */
  function Weight(st: State): nat {
    ClientWeight(st.c) + 8 * |st.up| + ServerWeight(st.s) + 3 * |st.down|
  }

  lemma {:induction false} ReplaceCall(calls: seq<C.Call>, k: nat, c: C.Call)
    requires k < |calls|
    ensures CallsWeight(calls[k := c]) + CallWeight(calls[k]) == CallsWeight(calls) + CallWeight(c)
  {
    var n := |calls| - 1;
    if k == n {
      assert calls[k := c][..n] == calls[..n];
    } else {
      assert calls[k := c][..n] == calls[..n][k := c];
      ReplaceCall(calls[..n], k, c);
    }
  }

  lemma SlotWeight(calls: seq<C.Call>, m: map<u64, C.Ticket>, id: u64)
    ensures CallsWeight(C.DropEntry(calls, m, id)) == CallsWeight(calls)
  {
    if id in m && m[id] < |calls| {
      ReplaceCall(calls, m[id], calls[m[id]].(slot := C.SenderDropped));
    }
  }

  lemma RemoveKey(m: map<u64, C.Ticket>, id: u64)
    ensures |m - {id}| == |m| - C.Count(id in m)
  {
    assert (m - {id}).Keys == m.Keys - {id};
  }

  lemma AddKey(m: map<u64, C.Ticket>, id: u64, k: C.Ticket)
    ensures |m[id := k]| <= |m| + 1
  {
    assert m[id := k].Keys == m.Keys + {id};
  }

  lemma InsertWeight(c: C.State, k: C.Ticket)
    requires C.CallEnabled(c, C.Insert(k))
    ensures ClientWeight(C.DoInsert(c, k)) < ClientWeight(c)
  {
    var id := c.calls[k].id;
    var dropped := C.DropEntry(c.calls, c.pending, id);
    SlotWeight(c.calls, c.pending, id);
    AddKey(c.pending, id, k);
    ReplaceCall(dropped, k, dropped[k].(phase := C.Inserted, late := C.Drained(c)));
  }

  lemma GuardDropWeight(c: C.State, k: C.Ticket)
    requires C.CallEnabled(c, C.GuardDrop(k))
    ensures ClientWeight(C.DoGuardDrop(c, k)) < ClientWeight(c)
  {
    var id := c.calls[k].id;
    var dropped := C.DropEntry(c.calls, c.pending, id);
    SlotWeight(c.calls, c.pending, id);
    RemoveKey(c.pending, id);
    ReplaceCall(dropped, k, dropped[k].(phase := C.Done(c.calls[k].phase.verdict)));
  }

  lemma AllocateWeight(c: C.State, a: C.Action)
    requires C.CallEnabled(c, a) && a.Allocate?
    ensures ClientWeight(C.ApplyCall(c, a)) < ClientWeight(c)
  {
    var t := C.ApplyCall(c, a);
    assert t.calls[..|c.calls|] == c.calls;
    assert c.entering == t.entering + multiset{a.args};
  }

  lemma PhaseStepWeight(c: C.State, a: C.Action)
    requires C.CallEnabled(c, a) && (a.Enqueue? || a.SendRefused? || a.Resume? || a.Cancel?)
    ensures ClientWeight(C.ApplyCall(c, a)) < ClientWeight(c)
  {
    ReplaceCall(c.calls, a.k, C.ApplyCall(c, a).calls[a.k]);
  }

  lemma WriterStepWeight(c: C.State, a: C.Action)
    requires C.TaskEnabled(c, a) && !CI.OfReader(a)
    ensures ClientWeight(C.ApplyTask(c, a)) + 1 + 8 * C.Count(a.WriterPut?) <= ClientWeight(c)
  {}

  lemma TakeWeight(c: C.State)
    requires c.reader.RGot?
    ensures ClientWeight(C.DoTake(c)) < ClientWeight(c)
  {
    var id := C.ReplyId(c.reader.env);
    if id.Some? { RemoveKey(c.pending, id.value); }
  }

  lemma FireWeight(c: C.State)
    requires c.reader.RHolding?
    ensures ClientWeight(C.DoFire(c)) < ClientWeight(c)
  {
    var k := c.reader.ticket;
    if k < |c.calls| { ReplaceCall(c.calls, k, C.DoFire(c).calls[k]); }
  }

  lemma DropOneWeight(c: C.State, id: u64)
    requires C.TaskEnabled(c, C.ReaderDropOne(id))
    ensures ClientWeight(C.ApplyTask(c, C.ReaderDropOne(id))) < ClientWeight(c)
  {
    SlotWeight(c.calls, c.reader.senders, id);
    RemoveKey(c.reader.senders, id);
  }

  lemma ReaderStepWeight(c: C.State, a: C.Action)
    requires C.TaskEnabled(c, a) && CI.OfReader(a)
    ensures ClientWeight(C.ApplyTask(c, a)) + 1 <= ClientWeight(c) + 3 * C.Count(a.ReaderFrame?)
  {
    if a.ReaderTake? { TakeWeight(c); }
    else if a.ReaderFire? { FireWeight(c); }
    else if a.ReaderDropOne? { DropOneWeight(c, a.id); }
  }

  lemma ClientStepWeight(c: C.State, a: C.Action)
    requires C.Enabled(c, a) && !a.Check?
    ensures ClientWeight(C.Apply(c, a)) + 1 + 8 * C.Count(a.WriterPut?) <= ClientWeight(c) + 3 * C.Count(a.ReaderFrame?)
  {
    if !C.CallEnabled(c, a) {
      if CI.OfReader(a) { ReaderStepWeight(c, a); } else { WriterStepWeight(c, a); }
    }
    else if a.Insert? { InsertWeight(c, a.k); }
    else if a.GuardDrop? { GuardDropWeight(c, a.k); }
    else if a.Allocate? { AllocateWeight(c, a); }
    else if !a.DropClient? { PhaseStepWeight(c, a); }
  }

  lemma ServerStepWeight(s: S.State, b: S.Action)
    requires S.Enabled(s, b)
    ensures ServerWeight(S.Apply(s, b)) + 1 + 3 * C.Count(b.WriterPut?) <= ServerWeight(s) + 8 * C.Count(b.Ingest?)
  {}

  /** Every step but a new call brings the whole system closer to rest. */
  lemma StepLowersWeight(st: State, step: Step)
    requires Enabled(st, step) && !(step.Cl? && step.a.Check?)
    ensures Weight(Apply(st, step)) < Weight(st)
  {
    match step
    case Cl(a) => ClientStepWeight(st.c, a);
    case Sv(b) => ServerStepWeight(st.s, b);
  }

  lemma CheckWeight(st: State, step: Step)
    requires Enabled(st, step) && step.Cl? && step.a.Check?
    ensures Weight(Apply(st, step)) <= Weight(st) + 16
  {}

  function NewCalls(run: seq<Step>): nat {
    if run == [] then 0 else C.Count(run[0].Cl? && run[0].a.Check?) + NewCalls(run[1..])
  }

  lemma {:induction false} RunLength(st: State, run: seq<Step>)
    requires Runs(st, run)
    ensures |run| + Weight(Final(st, run)) <= Weight(st) + 17 * NewCalls(run)
    decreases |run|
  {
    if run != [] {
      if run[0].Cl? && run[0].a.Check? { CheckWeight(st, run[0]); } else { StepLowersWeight(st, run[0]); }
      RunLength(Apply(st, run[0]), run[1..]);
    }
  }

  /** Termination of everything: a run with `n` calls, whatever the faults, cancellations and
      interleavings, takes at most 16 steps a call plus 15 besides the calls' own entry steps. */
  lemma EveryRunIsFinite(methods: set<Str>, wire: nat, run: seq<Step>)
    requires Runs(Init(methods, wire), run)
    ensures |run| - NewCalls(run) <= 16 * NewCalls(run) + 15
  {
    RunLength(Init(methods, wire), run);
  }

  function Checks(run: seq<C.Action>): nat {
    if run == [] then 0 else C.Count(run[0].Check?) + Checks(run[1..])
  }

  function FramesRead(run: seq<C.Action>): nat {
    if run == [] then 0 else C.Count(run[0].ReaderFrame?) + FramesRead(run[1..])
  }

  lemma ClientCheckWeight(c: C.State, a: C.Action)
    requires C.CallEnabled(c, a) && a.Check?
    ensures ClientWeight(C.ApplyCall(c, a)) <= ClientWeight(c) + 16
  {}

  /** The client alone, against any peer: a run is bounded by the calls started and the frames the peer
      sends, so after a teardown began it ends as soon as those do. */
  lemma {:induction false} ClientRunIsFinite(c: C.State, run: seq<C.Action>)
    requires C.Runs(c, run)
    ensures |run| + ClientWeight(C.Final(c, run)) <= ClientWeight(c) + 17 * Checks(run) + 3 * FramesRead(run)
    decreases |run|
  {
    if run != [] {
      if run[0].Check? { ClientCheckWeight(c, run[0]); } else { ClientStepWeight(c, run[0]); }
      ClientRunIsFinite(C.Apply(c, run[0]), run[1..]);
    }
  }

  function FramesIngested(run: seq<S.Action>): nat {
    if run == [] then 0 else C.Count(run[0].Ingest?) + FramesIngested(run[1..])
  }

  /** The server alone, against any peer: a run is bounded by the frames the peer sends, so after the read
      loop has ended it ends by itself. */
  lemma {:induction false} ServerRunIsFinite(s: S.State, run: seq<S.Action>)
    requires S.Runs(s, run)
    ensures |run| + ServerWeight(S.Final(s, run)) <= ServerWeight(s) + 8 * FramesIngested(run)
    decreases |run|
  {
    if run != [] {
      ServerStepWeight(s, run[0]);
      ServerRunIsFinite(S.Apply(s, run[0]), run[1..]);
    }
  }

  // ----- the connection is up -----

  /** The client has seen no failure, end of stream or shutdown, and the server still reads. Handlers may
      have panicked, and the server's writer may have died on a failed send. */
  predicate Serving(st: State) {
    && !st.c.cancelled && st.c.alive
    && (st.c.writer.WIdle? || st.c.writer.WSending?)
    && (st.c.reader.RIdle? || st.c.reader.RGot? || st.c.reader.RHolding?)
    && st.s.dispatcher.Reading?
  }

  /** Neither side has seen a failure, an end of stream or a shutdown. */
  predicate Up(st: State) {
    Serving(st) && !st.s.writer.SGone? && !st.s.sendFailed && st.s.panicked == []
  }

  /** Steps in which some party gets on with its work: no fault, shutdown, cancellation or new call. */
  predicate Progress(step: Step) {
    match step
    case Cl(a) => a.Allocate? || a.Insert? || a.Enqueue? || a.Resume? || a.GuardDrop?
        || a.WriterRecv? || a.WriterPut? || a.ReaderFrame? || a.ReaderTake? || a.ReaderFire?
    case Sv(b) => b.Ingest? || b.Finish? || b.Push? || b.PushRefused? || b.WriterRecv? || b.WriterPut?
  }

  /** Progress without any handler returning. */
  predicate Transit(step: Step) { Progress(step) && !(step.Sv? && step.b.Finish?) }

  /** Every reply the reader has dealt with found its caller's sender, or the caller had given up. */
  predicate ReplyTaken(c: C.State, i: nat, k: C.Ticket)
    requires i < |c.received| && k < |c.calls|
  {
    C.ReplyId(c.received[i]) != Some(c.calls[k].id) || (c.reader.RGot? && i == |c.received| - 1)
    || !c.calls[k].slot.Open? || C.InHand(c, k)
  }

  predicate RepliesTaken(c: C.State) {
    forall i, k {:trigger ReplyTaken(c, i, k)} :: 0 <= i < |c.received| && 0 <= k < |c.calls| ==> ReplyTaken(c, i, k)
  }

  predicate LinkInv(st: State) { Inv(st) && RepliesTaken(st.c) && CT.AllClosedOk(st.c) }

  /** A reply can only answer a call that exists and has been enqueued. */
  lemma ReceivedAnswersEnqueued(st: State, i: nat)
    requires Inv(st) && CT.FewCalls(st.c) && i < |st.c.received|
    ensures C.ReplyId(st.c.received[i]).Some?
    ensures var k := C.ReplyId(st.c.received[i]).value;
      k < |st.c.calls| && k in st.c.order && !st.c.calls[k].phase.Allocated?
  {
    assert st.c.received[i] == st.s.written[i];
    var j := WrittenIsReply(st, st.c.received[i]);
    ExecutedIsCall(st, j);
  }

  /** When the reader takes the sender for a reply to call `k`, that sender is in the map or used up. */
  lemma AnsweredSenderPlace(st: State, i: nat, k: C.Ticket)
    requires Inv(st) && CT.FewCalls(st.c) && st.c.reader.RGot? && i < |st.c.received| && k < |st.c.calls|
    requires C.ReplyId(st.c.received[i]) == Some(st.c.calls[k].id)
    ensures C.InMap(st.c, k) || !st.c.calls[k].slot.Open?
  {
    ReceivedAnswersEnqueued(st, i);
    assert st.c.calls[k].id == k;
    assert C.SenderPlaces(st.c, k) == 1;
  }

  lemma TakeKeepsTaken(st: State, i: nat, k: C.Ticket)
    requires Inv(st) && CT.FewCalls(st.c) && Enabled(st, Cl(C.ReaderTake))
    requires i < |st.c.received| && k < |st.c.calls| && ReplyTaken(st.c, i, k)
    ensures ReplyTaken(C.DoTake(st.c), i, k)
  {
    if C.ReplyId(st.c.received[i]) == Some(st.c.calls[k].id) && i == |st.c.received| - 1 {
      AnsweredSenderPlace(st, i, k);
      assert st.c.received[i] == st.c.reader.env;
    }
  }

  lemma CallKeepsTaken(c: C.State, a: C.Action, i: nat, k: C.Ticket)
    requires C.SendersOk(c) && C.CallEnabled(c, a) && i < |c.received| && k < |c.calls| && ReplyTaken(c, i, k)
    ensures i < |C.ApplyCall(c, a).received| && k < |C.ApplyCall(c, a).calls| && ReplyTaken(C.ApplyCall(c, a), i, k)
  {
    if !c.calls[k].slot.Open? { CT.SlotFinalCall(c, a, k); }
    if !a.Allocate? { CI.CallsKeepIdentity(c, a); }
  }

  lemma TaskKeepsTaken(c: C.State, a: C.Action, i: nat, k: C.Ticket)
    requires C.SendersOk(c) && C.TaskEnabled(c, a) && !a.ReaderTake? && !a.ReaderFrame?
    requires i < |c.received| && k < |c.calls| && ReplyTaken(c, i, k)
    ensures i < |C.ApplyTask(c, a).received| && k < |C.ApplyTask(c, a).calls| && ReplyTaken(C.ApplyTask(c, a), i, k)
  {
    if !c.calls[k].slot.Open? { CT.SlotFinalTask(c, a, k); }
    CI.TasksKeepCalls(c, a);
  }

  lemma KnownCallKeepsTaken(st: State, a: C.Action, i: nat, k: C.Ticket)
    requires Inv(st) && Enabled(st, Cl(a)) && CT.FewCalls(st.c)
    requires i < |st.c.received| && k < |st.c.calls| && ReplyTaken(st.c, i, k)
    ensures i < |C.Apply(st.c, a).received| && k < |C.Apply(st.c, a).calls| && ReplyTaken(C.Apply(st.c, a), i, k)
  {
    if a.ReaderTake? { TakeKeepsTaken(st, i, k); }
    else if C.CallEnabled(st.c, a) { CallKeepsTaken(st.c, a, i, k); }
    else if !a.ReaderFrame? { TaskKeepsTaken(st.c, a, i, k); }
  }

  /** No reply received so far can carry the id of a call allocated now. */
  lemma NewCallKeepsTaken(st: State, args: C.Args, i: nat)
    requires Inv(st) && C.CallEnabled(st.c, C.Allocate(args)) && CT.FewCalls(C.ApplyCall(st.c, C.Allocate(args)))
    requires i < |st.c.received|
    ensures ReplyTaken(C.ApplyCall(st.c, C.Allocate(args)), i, |st.c.calls|)
  {
    ReceivedAnswersEnqueued(st, i);
    assert st.c.nextId == |st.c.calls|;
  }

  lemma ReceivedGrows(c: C.State, a: C.Action)
    requires C.Enabled(c, a)
    ensures |C.Apply(c, a).received| == |c.received| + C.Count(a.ReaderFrame?)
    ensures a.ReaderFrame? ==> C.Apply(c, a).reader.RGot?
    ensures |C.Apply(c, a).calls| == |c.calls| + C.Count(a.Allocate?)
  {
    if C.CallEnabled(c, a) {
      if !a.Allocate? { CI.CallsKeepIdentity(c, a); }
    } else {
      CI.TasksKeepCalls(c, a);
    }
  }

  lemma ClientKeepsTaken(st: State, a: C.Action)
    requires Inv(st) && RepliesTaken(st.c) && Enabled(st, Cl(a)) && CT.FewCalls(Apply(st, Cl(a)).c)
    ensures RepliesTaken(C.Apply(st.c, a))
  {
    var t := C.Apply(st.c, a);
    ReceivedGrows(st.c, a);
    forall i, k | 0 <= i < |t.received| && 0 <= k < |t.calls|
      ensures ReplyTaken(t, i, k)
    {
      if i < |st.c.received| {
        if k < |st.c.calls| {
          assert ReplyTaken(st.c, i, k);
          KnownCallKeepsTaken(st, a, i, k);
        } else {
          NewCallKeepsTaken(st, a.args, i);
        }
      }
    }
  }

  lemma LinkInvStep(st: State, step: Step)
    requires LinkInv(st) && Enabled(st, step) && CT.FewCalls(Apply(st, step).c)
    ensures LinkInv(Apply(st, step))
  {
    InvStep(st, step);
    if step.Cl? {
      CT.CallsGrow(st.c, step.a);
      ClientKeepsTaken(st, step.a);
      CT.ClosedStep(st.c, step.a);
    }
  }

  lemma CallsGrow(st: State, step: Step)
    requires Enabled(st, step)
    ensures |st.c.calls| <= |Apply(st, step).c.calls| && Apply(st, step).wire == st.wire
  {
    if step.Cl? { CT.CallsGrow(st.c, step.a); }
  }

  lemma {:induction false} CallsGrowOverRuns(st: State, run: seq<Step>)
    requires Runs(st, run)
    ensures |st.c.calls| <= |Final(st, run).c.calls| && Final(st, run).wire == st.wire
    decreases |run|
  {
    if run != [] {
      CallsGrow(st, run[0]);
      CallsGrowOverRuns(Apply(st, run[0]), run[1..]);
    }
  }

  lemma {:induction false} LinkInvRun(st: State, run: seq<Step>)
    requires LinkInv(st) && Runs(st, run) && CT.FewCalls(Final(st, run).c)
    ensures LinkInv(Final(st, run))
    decreases |run|
  {
    if run != [] {
      CallsGrowOverRuns(Apply(st, run[0]), run[1..]);
      LinkInvStep(st, run[0]);
      LinkInvRun(Apply(st, run[0]), run[1..]);
    }
  }

  // ----- deadlock freedom -----

  /** Nothing is on its way between the callers and the handlers or back; handlers may be running. */
  predicate PipelineEmpty(st: State) {
    && st.c.queue == [] && st.c.writer.WIdle? && st.up == []
    && st.s.finished == [] && st.s.queue == [] && !st.s.writer.SSending?
    && st.down == [] && st.c.reader.RIdle?
  }

  /** Requests that will never be answered: the handler panicked, or the reply was dropped because the
      server's writer had died. */
  function Unanswered(st: State, k: C.Ticket): nat
    requires k < U64_LIMIT
  { Workers(st.s.panicked, k) + Frames(st.s.dropped, k) }

  /** Requests without a reply as yet: the handler is still running, or there will never be one. */
  function Unreplied(st: State, k: C.Ticket): nat
    requires k < U64_LIMIT
  { Workers(st.s.running, k) + Unanswered(st, k) }

  lemma NothingUnanswered(st: State, k: C.Ticket)
    requires Inv(st) && Up(st) && k < U64_LIMIT
    ensures Unanswered(st, k) == 0 && (st.s.running == [] ==> Unreplied(st, k) == 0)
  {}

  /** With an empty pipeline, each enqueued request has had its reply or has none, not both. */
  lemma AnsweredOrNot(st: State, k: C.Ticket)
    requires Inv(st) && CT.FewCalls(st.c) && Serving(st) && PipelineEmpty(st) && k < |st.c.calls|
    ensures Unreplied(st, k) + Frames(st.c.received, k) == C.Count(k in st.c.order)
  {
    SubmittedOnce(st, k);
    SubmittedSplit(st, k);
    RequestsSplit(st, k);
    RepliesSplit(st, k);
  }

  lemma ReplyReceived(st: State, k: C.Ticket) returns (i: nat)
    requires Inv(st) && CT.FewCalls(st.c) && k < |st.c.calls| && Frames(st.c.received, k) > 0
    ensures i < |st.c.received| && C.ReplyId(st.c.received[i]) == Some(k)
  {
    var ids := S.IdsBy((e: Envelope) => IdOf(e), st.c.received);
    assert k in multiset(ids);
    i := S.FindInBag(k, ids);
    ReceivedAnswersEnqueued(st, i);
  }

  lemma ReplyWakes(st: State, k: C.Ticket)
    requires LinkInv(st) && CT.FewCalls(st.c) && st.c.reader.RIdle? && k < |st.c.calls|
    requires Frames(st.c.received, k) > 0
    ensures !st.c.calls[k].slot.Open?
  {
    var i := ReplyReceived(st, k);
    assert ReplyTaken(st.c, i, k) && st.c.calls[k].id == k;
  }

  lemma ReplyCounted(c: C.State, e: Envelope, k: C.Ticket)
    requires e in c.received && C.ReplyId(e) == Some(k) && k < U64_LIMIT
    ensures Frames(c.received, k) > 0
  {
    var ids := S.IdsBy((e: Envelope) => IdOf(e), c.received);
    var i :| 0 <= i < |c.received| && c.received[i] == e;
    assert ids[i] == k;
    assert k in multiset(ids);
  }

  /** With an empty pipeline, a parked caller is left waiting if and only if its own handler is still
      running or panicked, or its own reply was dropped. */
  lemma LeftWaitingIff(st: State, k: C.Ticket)
    requires LinkInv(st) && CT.FewCalls(st.c) && Serving(st) && PipelineEmpty(st)
    requires k < |st.c.calls| && st.c.calls[k].phase.Parked?
    ensures st.c.calls[k].slot.Open? <==> Unreplied(st, k) == 1
    ensures Unreplied(st, k) <= 1
  {
    AnsweredOrNot(st, k);
    assert C.CallOk(st.c, k) && CT.ClosedOk(st.c, k) && st.c.calls[k].id == k;
    if st.c.calls[k].slot.Fired? { ReplyCounted(st.c, st.c.calls[k].slot.env, k); }
    if Frames(st.c.received, k) > 0 { ReplyWakes(st, k); }
  }

  /** In particular, with the connection up and no handler running, no caller is left waiting. */
  lemma EmptyPipelineAnswersAll(st: State, k: C.Ticket)
    requires LinkInv(st) && CT.FewCalls(st.c) && Up(st) && PipelineEmpty(st) && st.s.running == []
    requires k < |st.c.calls| && st.c.calls[k].phase.Parked?
    ensures !st.c.calls[k].slot.Open?
  {
    LeftWaitingIff(st, k);
    NothingUnanswered(st, k);
  }

  predicate AllResolved(st: State) { st.c.entering == multiset{} && C.AllDone(st.c) }

  /** Call `k` waits for its own handler, or for a reply that will never come. */
  predicate Held(st: State, k: C.Ticket)
    requires k < |st.c.calls| <= U64_LIMIT
  {
    st.c.calls[k].phase.Parked? && st.c.calls[k].slot.Open? && Unreplied(st, k) == 1
  }

  /** Everybody is done or waits for nobody but its own handler. */
  predicate Rested(st: State)
    requires CT.FewCalls(st.c)
  {
    st.c.entering == multiset{} && forall k :: 0 <= k < |st.c.calls| ==> st.c.calls[k].phase.Done? || Held(st, k)
  }

  lemma RestedWhileUp(st: State)
    requires Inv(st) && CT.FewCalls(st.c) && Up(st) && Rested(st) && st.s.running == []
    ensures AllResolved(st)
  {
    forall k | 0 <= k < |st.c.calls|
      ensures st.c.calls[k].phase.Done?
    {
      NothingUnanswered(st, k);
    }
  }

  predicate ServerIdle(s: S.State) {
    !s.writer.SSending? && s.queue == [] && s.finished == []
  }

  /** The next step of a server with a reply to forward, given room on the wire. */
  lemma ServerProgress(st: State) returns (step: Step)
    requires Inv(st) && st.wire > 0 && st.down == [] && !ServerIdle(st.s)
    ensures Enabled(st, step) && Transit(step)
  {
    if st.s.writer.SSending? { step := Sv(S.WriterPut); }
    else if st.s.queue != [] { step := Sv(S.WriterRecv); }
    else { step := Sv(if st.s.writer.SGone? then S.PushRefused(0) else S.Push(0)); }
  }

  /** The next step of one call, once nothing is ahead of it in the client's queue. */
  lemma CallProgress(st: State, k: C.Ticket) returns (step: Step)
    requires Serving(st) && st.c.queue == [] && k < |st.c.calls| && !st.c.calls[k].phase.Done?
    requires st.c.calls[k].phase.Parked? ==> !st.c.calls[k].slot.Open?
    ensures Enabled(st, step) && Transit(step)
  {
    match st.c.calls[k].phase
    case Allocated => step := Cl(C.Insert(k));
    case Inserted => step := Cl(C.Enqueue(k));
    case Parked => step := Cl(C.Resume(k));
    case Unwinding(_) => step := Cl(C.GuardDrop(k));
  }

  /** The next step of a client reader with a frame to handle. */
  lemma ReaderProgress(st: State) returns (step: Step)
    requires Serving(st) && (st.down != [] || !st.c.reader.RIdle?)
    ensures Enabled(st, step) && Transit(step)
  {
    if st.c.reader.RGot? { step := Cl(C.ReaderTake); }
    else if st.c.reader.RHolding? { step := Cl(C.ReaderFire); }
    else { step := Cl(C.ReaderFrame(st.down[0])); }
  }

  /** The next step of a request that has not reached the server. */
  lemma RequestProgress(st: State) returns (step: Step)
    requires Serving(st) && st.wire > 0 && (st.up != [] || st.c.writer.WSending? || st.c.queue != [])
    ensures Enabled(st, step) && Transit(step)
  {
    if st.up != [] { step := Sv(S.Ingest(st.up[0])); }
    else if st.c.writer.WSending? { step := Cl(C.WriterPut); }
    else { step := Cl(C.WriterRecv); }
  }

  /** The next step of whatever is in the pipeline. */
  lemma PipelineProgress(st: State) returns (step: Step)
    requires Inv(st) && Serving(st) && st.wire > 0 && !PipelineEmpty(st)
    ensures Enabled(st, step) && Transit(step)
  {
    if st.down != [] || !st.c.reader.RIdle? { step := ReaderProgress(st); }
    else if !ServerIdle(st.s) { step := ServerProgress(st); }
    else { step := RequestProgress(st); }
  }

  /** Deadlock freedom: while the client is connected and the server reads, some party can take a step,
      whatever filled up the queues and the wires and even if no handler ever returns, unless every call
      is done or waits for its own handler or a reply that will never come. */
  lemma NoDeadlock(st: State) returns (step: Step)
    requires LinkInv(st) && CT.FewCalls(st.c) && Serving(st) && st.wire > 0 && !Rested(st)
    ensures Enabled(st, step) && Transit(step)
  {
    if !PipelineEmpty(st) {
      step := PipelineProgress(st);
    } else if st.c.entering != multiset{} {
      var args :| args in st.c.entering;
      step := Cl(C.Allocate(args));
    } else {
      var k :| 0 <= k < |st.c.calls| && !st.c.calls[k].phase.Done? && !Held(st, k);
      if st.c.calls[k].phase.Parked? { LeftWaitingIff(st, k); }
      step := CallProgress(st, k);
    }
  }

  /** Nobody can take a step, except that handlers may return. */
  ghost predicate Quiet(st: State) { forall step :: Transit(step) ==> !Enabled(st, step) }

  /** Nobody can take a step at all. */
  ghost predicate Quiescent(st: State) { forall step :: Progress(step) ==> !Enabled(st, step) }

  lemma QuiescentIsQuiet(st: State)
    requires Quiescent(st)
    ensures Quiet(st) && st.s.running == []
  {
    if st.s.running != [] {
      assert Enabled(st, Sv(S.Finish(0, Ok([]))));
    }
  }

  /** Once nobody but the handlers can take a step, everybody is done or held, and the pipeline empty. */
  lemma QuietIsRested(st: State)
    requires LinkInv(st) && CT.FewCalls(st.c) && Serving(st) && st.wire > 0 && Quiet(st)
    ensures Rested(st) && PipelineEmpty(st)
  {
    if !Rested(st) {
      var step := NoDeadlock(st);
      assert false;
    }
    if !PipelineEmpty(st) {
      var step := PipelineProgress(st);
      assert false;
    }
  }

  // ----- a plan -----

  /** Progress does not end the connection. */
  lemma ProgressKeepsServing(st: State, step: Step)
    requires Serving(st) && Enabled(st, step) && Progress(step)
    ensures Serving(Apply(st, step)) && (Up(st) ==> Up(Apply(st, step))) && Apply(st, step).wire == st.wire
  {}

  lemma ProgressAddsNoCall(st: State, step: Step)
    requires Enabled(st, step) && Progress(step)
    ensures var c := Apply(st, step).c; |c.calls| + |c.entering| == |st.c.calls| + |st.c.entering|
  {
    if step.Cl? {
      if !C.CallEnabled(st.c, step.a) { CI.TasksKeepCalls(st.c, step.a); }
      else if step.a.Allocate? { assert st.c.entering == Apply(st, step).c.entering + multiset{step.a.args}; }
      else { CI.CallsKeepIdentity(st.c, step.a); }
    }
  }

  predicate AllProgress(run: seq<Step>) { forall i :: 0 <= i < |run| ==> Progress(run[i]) }

  /** Everything a plan needs to know about where it starts. */
  predicate Plannable(st: State) {
    LinkInv(st) && Serving(st) && st.wire > 0 && |st.c.calls| + |st.c.entering| <= U64_LIMIT
  }

  predicate AtGoal(st: State)
    requires CT.FewCalls(st.c)
  { Rested(st) && st.s.running == [] }

  lemma PlanStep(st: State) returns (step: Step)
    requires Plannable(st) && !AtGoal(st)
    ensures Enabled(st, step) && Progress(step) && Plannable(Apply(st, step))
    ensures Weight(Apply(st, step)) < Weight(st) && (Up(st) ==> Up(Apply(st, step)))
  {
    if Rested(st) { step := Sv(S.Finish(0, Ok([]))); } else { step := NoDeadlock(st); }
    ProgressKeepsServing(st, step);
    ProgressAddsNoCall(st, step);
    LinkInvStep(st, step);
    StepLowersWeight(st, step);
  }

  /** The plan takes at most `Weight` steps of progress, after which all handlers have returned and
      everybody is done or will never be answered; if the connection was up, it still is and every call
      is resolved. */
  predicate Settles(st: State, plan: seq<Step>) {
    && Runs(st, plan) && AllProgress(plan) && |plan| <= Weight(st)
    && CT.FewCalls(Final(st, plan).c) && AtGoal(Final(st, plan))
    && (Up(st) ==> Up(Final(st, plan)) && AllResolved(Final(st, plan)))
  }

  lemma PrependPlan(st: State, step: Step, rest: seq<Step>)
    requires Enabled(st, step) && Progress(step) && Settles(Apply(st, step), rest)
    requires Weight(Apply(st, step)) < Weight(st) && (Up(st) ==> Up(Apply(st, step)))
    ensures Settles(st, [step] + rest)
  {
    var plan := [step] + rest;
    assert plan[1..] == rest;
    assert Final(st, plan) == Final(Apply(st, step), rest);
  }

  /** From any such state, at most `Weight` steps of progress bring everybody to rest. */
  lemma {:induction false} RestIsReachable(st: State) returns (plan: seq<Step>)
    requires Plannable(st)
    ensures Settles(st, plan)
    decreases Weight(st)
  {
    if AtGoal(st) {
      plan := [];
      if Up(st) { RestedWhileUp(st); }
    } else {
      var step := PlanStep(st);
      var rest := RestIsReachable(Apply(st, step));
      plan := [step] + rest;
      PrependPlan(st, step, rest);
    }
  }

  /** With the connection up, a finished call was cancelled or returned something other than `Closed`. */
  lemma NotClosedWhileUp(st: State, k: C.Ticket)
    requires LinkInv(st) && Serving(st) && k < |st.c.calls| && st.c.calls[k].phase.Done?
    ensures st.c.calls[k].phase.verdict == C.Cancelled
         || (st.c.calls[k].phase.verdict.Returned? && st.c.calls[k].phase.verdict.result != Err(Closed))
  {
    assert CT.ClosedOk(st.c, k);
  }

  lemma ReachableLink(methods: set<Str>, wire: nat, run: seq<Step>)
    requires Runs(Init(methods, wire), run) && CT.FewCalls(Final(Init(methods, wire), run).c)
    ensures LinkInv(Final(Init(methods, wire), run)) && Final(Init(methods, wire), run).wire == wire
  {
    CI.InitInv();
    S.InitInv(methods);
    CallsGrowOverRuns(Init(methods, wire), run);
    LinkInvRun(Init(methods, wire), run);
  }

  /** A finished call that was not cancelled had its reply. */
  lemma ReturnedWasAnswered(st: State, k: C.Ticket)
    requires LinkInv(st) && CT.FewCalls(st.c) && Serving(st) && PipelineEmpty(st)
    requires k < |st.c.calls| && st.c.calls[k].phase.Done? && st.c.calls[k].phase.verdict.Returned?
    ensures Unreplied(st, k) == 0
  {
    AnsweredOrNot(st, k);
    NotClosedWhileUp(st, k);
    assert C.CallOk(st.c, k) && st.c.calls[k].id == k;
    ReplyCounted(st.c, st.c.calls[k].slot.env, k);
  }

  /** Under any scheduler: once nobody but the handlers can take a step with the client connected and the
      server reading, a call is unresolved if and only if it was not cancelled and its own handler is still
      running or panicked, or its own reply was dropped: a slow handler holds up nobody else. Every other
      call was cancelled or returned the outcome of the one worker that ran its request. Together with
      `EveryRunIsFinite`, every schedule gets there. */
  lemma EveryScheduleSettles(methods: set<Str>, wire: nat, run: seq<Step>, k: C.Ticket) returns (i: nat)
    requires Runs(Init(methods, wire), run) && wire > 0
    requires var st := Final(Init(methods, wire), run);
      CT.FewCalls(st.c) && Serving(st) && k < |st.c.calls| && Quiet(st)
    ensures var st := Final(Init(methods, wire), run);
      var phase := st.c.calls[k].phase;
      && st.c.entering == multiset{}
      && (!phase.Done? <==> Unreplied(st, k) == 1 && phase != C.Done(C.Cancelled))
      && (phase.Done? && phase != C.Done(C.Cancelled) ==>
            AnsweredBy(st, k, i)
            && phase == C.Done(C.Returned(CallResult(S.Reply(st.s.methods, st.s.executed[i], st.s.outcomes[i])))))
  {
    var st := Final(Init(methods, wire), run);
    ReachableLink(methods, wire, run);
    QuietIsRested(st);
    i := 0;
    if st.c.calls[k].phase.Done? {
      NotClosedWhileUp(st, k);
      if st.c.calls[k].phase.verdict.Returned? {
        ReturnedWasAnswered(st, k);
        i := Routing(methods, wire, run, k);
      }
    }
  }

  /** In particular, with the connection up and all handlers back, every call has been resolved, and each
      one that was not cancelled returned the outcome of the one worker that ran its request. */
  lemma EveryScheduleResolves(methods: set<Str>, wire: nat, run: seq<Step>, k: C.Ticket) returns (i: nat)
    requires Runs(Init(methods, wire), run) && wire > 0
    requires var st := Final(Init(methods, wire), run);
      CT.FewCalls(st.c) && Up(st) && k < |st.c.calls| && Quiescent(st)
    ensures var st := Final(Init(methods, wire), run);
      && AllResolved(st)
      && (st.c.calls[k].phase == C.Done(C.Cancelled)
          || (AnsweredBy(st, k, i)
              && st.c.calls[k].phase
                 == C.Done(C.Returned(CallResult(S.Reply(st.s.methods, st.s.executed[i], st.s.outcomes[i]))))))
  {
    var st := Final(Init(methods, wire), run);
    ReachableLink(methods, wire, run);
    QuiescentIsQuiet(st);
    QuietIsRested(st);
    RestedWhileUp(st);
    i := EveryScheduleSettles(methods, wire, run, k);
  }

  /** From every reachable state that is serving there is a plan, of at most `Weight` steps, that brings
      everybody to rest; with the connection up it resolves every call. */
  lemma SettlingPlan(methods: set<Str>, wire: nat, run: seq<Step>) returns (plan: seq<Step>)
    requires Runs(Init(methods, wire), run) && wire > 0
    requires var st := Final(Init(methods, wire), run);
      Serving(st) && |st.c.calls| + |st.c.entering| <= U64_LIMIT
    ensures Settles(Final(Init(methods, wire), run), plan)
  {
    ReachableLink(methods, wire, run);
    plan := RestIsReachable(Final(Init(methods, wire), run));
  }

  // ----- a caller that hangs on a live connection -----

  /** Call `k` waits for a reply that will never come. */
  predicate Hung(st: State, k: C.Ticket)
    requires k < |st.c.calls| <= U64_LIMIT
  {
    st.c.calls[k].phase.Parked? && st.c.calls[k].slot.Open? && Unanswered(st, k) == 1
  }

  lemma {:induction false} Extend(st: State, run: seq<Step>, step: Step) returns (longer: seq<Step>)
    requires Runs(st, run) && Enabled(Final(st, run), step)
    ensures longer == run + [step] && Runs(st, longer) && Final(st, longer) == Apply(Final(st, run), step)
    decreases |run|
  {
    longer := run + [step];
    if run == [] {
      assert longer[1..] == [];
    } else {
      var rest := Extend(Apply(st, run[0]), run[1..], step);
      assert longer[1..] == rest;
    }
  }

  function ParkedCall(args: C.Args): C.Call { C.Call(0, args, C.Parked, C.Open, false) }

  /** The client after its first call has been enqueued. */
  function OneQueued(args: C.Args): C.State {
    var request := C.RequestOf(ParkedCall(args));
    C.Init.(nextId := 1, calls := [ParkedCall(args)], pending := map[0 := 0], queue := [request],
            submitted := [request], order := [0])
  }

  lemma OneCallRegisters(methods: set<Str>, wire: nat, args: C.Args) returns (run: seq<Step>)
    ensures Runs(Init(methods, wire), run)
    ensures Final(Init(methods, wire), run) == Init(methods, wire).(c := C.Init.(nextId := 1,
              calls := [C.Call(0, args, C.Inserted, C.Open, false)], pending := map[0 := 0]))
  {
    var st := Init(methods, wire);
    run := Extend(st, [], Cl(C.Check(args)));
    run := Extend(st, run, Cl(C.Allocate(args)));
    assert Final(st, run).c == C.Init.(nextId := 1, calls := [C.Call(0, args, C.Allocated, C.Open, false)]);
    run := Extend(st, run, Cl(C.Insert(0)));
    assert Final(st, run).c.calls == [C.Call(0, args, C.Inserted, C.Open, false)];
  }

  lemma OneCallEnqueues(methods: set<Str>, wire: nat, args: C.Args) returns (run: seq<Step>)
    ensures Runs(Init(methods, wire), run)
    ensures Final(Init(methods, wire), run) == Init(methods, wire).(c := OneQueued(args))
  {
    var st := Init(methods, wire);
    run := OneCallRegisters(methods, wire, args);
    run := Extend(st, run, Cl(C.Enqueue(0)));
    assert Final(st, run).c.calls == [ParkedCall(args)];
  }

  lemma OneCallArrives(methods: set<Str>, wire: nat, args: C.Args) returns (run: seq<Step>)
    requires wire > 0
    ensures var request := C.RequestOf(ParkedCall(args));
      && Runs(Init(methods, wire), run)
      && Final(Init(methods, wire), run) == Init(methods, wire).(
           c := OneQueued(args).(queue := [], sent := [request]),
           s := S.Init(methods).(running := [request.req], ingested := [request], requests := [request.req]))
  {
    var st := Init(methods, wire);
    run := OneCallEnqueues(methods, wire, args);
    run := Extend(st, run, Cl(C.WriterRecv));
    run := Extend(st, run, Cl(C.WriterPut));
    run := Extend(st, run, Sv(S.Ingest(C.RequestOf(ParkedCall(args)))));
  }

  /** It can happen: a handler panics, and its caller is left waiting on a connection that serves on. */
  lemma PanicHangsCaller(methods: set<Str>, wire: nat, args: C.Args) returns (run: seq<Step>)
    requires wire > 0
    ensures Runs(Init(methods, wire), run)
    ensures var st := Final(Init(methods, wire), run);
      Serving(st) && PipelineEmpty(st) && st.s.running == [] && |st.c.calls| == 1 && Hung(st, 0)
  {
    run := OneCallArrives(methods, wire, args);
    run := Extend(Init(methods, wire), run, Sv(S.Panic(0)));
    var st := Final(Init(methods, wire), run);
    assert st.s.panicked == [ReqOf(ParkedCall(args))] && st.s.dropped == [];
    assert S.RequestIds(st.s.panicked) == [0];
  }

  /** The one worker finishes. */
  lemma OneWorkerFinishes(st: State, run: seq<Step>, req: RequestData, outcome: S.Outcome) returns (longer: seq<Step>)
    requires Runs(st, run) && Final(st, run).s.running == [req]
    ensures Runs(st, longer)
    ensures var s := Final(st, run).s;
      var reply := S.Reply(s.methods, req, outcome);
      Final(st, longer) == Final(st, run).(s :=
        s.(running := [], finished := s.finished + [reply], executed := s.executed + [req],
           outcomes := s.outcomes + [outcome], replies := s.replies + [reply]))
  {
    longer := Extend(st, run, Sv(S.Finish(0, outcome)));
    assert S.Without([req], 0) == [];
  }

  /** Its reply enters the queue. */
  lemma OneReplyQueued(st: State, run: seq<Step>, reply: Envelope) returns (longer: seq<Step>)
    requires Runs(st, run)
    requires var s := Final(st, run).s; s.finished == [reply] && s.queue == [] && s.writer.SIdle?
    ensures Runs(st, longer)
    ensures Final(st, longer) == Final(st, run).(s := Final(st, run).s.(finished := [], queue := [reply]))
  {
    longer := Extend(st, run, Sv(S.Push(0)));
    assert S.Without([reply], 0) == [];
  }

  /** The send of the one queued reply fails. */
  lemma OneReplyFails(st: State, run: seq<Step>, reply: Envelope) returns (longer: seq<Step>)
    requires Runs(st, run) && Final(st, run).s.queue == [reply] && Final(st, run).s.writer.SIdle?
    ensures Runs(st, longer)
    ensures var s := Final(st, run).s;
      Final(st, longer) == Final(st, run).(s :=
        s.(queue := [], writer := S.SGone, dropped := s.dropped + [reply], sendFailed := true))
  {
    longer := Extend(st, run, Sv(S.WriterRecv));
    longer := Extend(st, longer, Sv(S.WriterFail));
    var s := Final(st, run).s;
    assert s.dropped + [reply] + [] == s.dropped + [reply];
  }

  /** So is a caller whose reply could not be sent: the server's writer dies, and the server reads on. */
  lemma FailedReplyHangsCaller(methods: set<Str>, wire: nat, args: C.Args, outcome: S.Outcome)
    returns (run: seq<Step>)
    requires wire > 0
    ensures Runs(Init(methods, wire), run)
    ensures var st := Final(Init(methods, wire), run);
      Serving(st) && PipelineEmpty(st) && st.s.running == [] && |st.c.calls| == 1 && Hung(st, 0)
  {
    var reply := S.Reply(methods, ReqOf(ParkedCall(args)), outcome);
    run := OneCallArrives(methods, wire, args);
    run := OneWorkerFinishes(Init(methods, wire), run, ReqOf(ParkedCall(args)), outcome);
    run := OneReplyQueued(Init(methods, wire), run, reply);
    run := OneReplyFails(Init(methods, wire), run, reply);
    assert S.IdsBy((e: Envelope) => IdOf(e), [reply]) == [0];
  }
}
