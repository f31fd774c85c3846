/** What the client's two loops mean: which caller gets which frame, which requests reach the wire, and
    that each loop is one of the interleavings the transition system allows. */
module ClientLoops {
  import opened Primitives
  import opened Envelopes
  import opened ClientMux
  import opened ClientTasks
  import CI = ClientInvariant
  import CT = ClientTheorems

  // ----- the reader delivers -----

  /** The first reply among `frames` that carries `id`. */
  function FirstReply(frames: seq<Envelope>, id: u64): Option<Envelope> {
    if frames == [] then None
    else if ReplyId(frames[0]) == Some(id) then Some(frames[0])
    else FirstReply(frames[1..], id)
  }

  function Fire(c: Call, e: Envelope): Call { c.(slot := if Waiting(c) then Fired(e) else SenderDropped) }

  lemma TakeFireInv(got: State)
    requires Inv(got) && got.reader.RGot?
    ensures var taken := DoTake(got); Inv(taken) && (taken.reader.RHolding? ==> Inv(DoFire(taken)))
  {
    CI.InvTaskStep(got, ReaderTake);
    var taken := DoTake(got);
    if taken.reader.RHolding? { CI.InvTaskStep(taken, ReaderFire); }
  }

  lemma AfterFrameInv(s: State, e: Envelope)
    requires Inv(s) && s.reader.RIdle?
    ensures Inv(AfterFrame(s, e))
  {
    CI.InvTaskStep(s, ReaderFrame(e));
    TakeFireInv(ApplyTask(s, ReaderFrame(e)));
  }

  /** One frame: it goes to the call parked under its id, if any, and to no other. */
  lemma FrameOutcome(s: State, e: Envelope, k: Ticket)
    requires Inv(s) && s.reader.RIdle? && k < |s.calls|
    ensures var t := AfterFrame(s, e);
      && |t.calls| == |s.calls| && t.received == s.received + [e]
      && (if InMap(s, k) && ReplyId(e) == Some(s.calls[k].id) then t.calls[k] == Fire(s.calls[k], e) && !InMap(t, k)
          else t.calls[k] == s.calls[k] && (InMap(t, k) <==> InMap(s, k)))
  {}

  /** Any frames: each parked call gets the first reply carrying its id; everything else is ignored. */
  lemma {:induction false} FramesOutcome(s: State, frames: seq<Envelope>, k: Ticket)
    requires Inv(s) && s.reader.RIdle? && k < |s.calls|
    ensures var t := AfterFrames(s, frames);
      var reply := FirstReply(frames, s.calls[k].id);
      && Inv(t) && |t.calls| == |s.calls|
      && (if InMap(s, k) && reply.Some? then t.calls[k] == Fire(s.calls[k], reply.value) && !InMap(t, k)
          else t.calls[k] == s.calls[k] && (InMap(t, k) <==> InMap(s, k)))
    decreases |frames|
  {
    if frames != [] {
      FrameOutcome(s, frames[0], k);
      AfterFrameInv(s, frames[0]);
      FramesOutcome(AfterFrame(s, frames[0]), frames[1..], k);
    }
  }

  /** The whole reader loop: a call parked when it starts ends with the first reply for its id among the
      frames read, or is woken by its sender's drop if there was none; no other call is touched, the map
      ends empty and the connection closed. */
  lemma ReaderLoopDelivers(s: State, frames: seq<Envelope>, k: Ticket)
    requires Inv(s) && s.reader.RIdle? && k < |s.calls|
    ensures var t := AfterReader(s, frames);
      var reply := FirstReply(frames, s.calls[k].id);
      && t.pending == map[] && t.cancelled && t.reader.RGone? && |t.calls| == |s.calls|
      && t.calls[k] ==
         if !InMap(s, k) then s.calls[k]
         else if reply.Some? then Fire(s.calls[k], reply.value)
         else s.calls[k].(slot := SenderDropped)
  {
    FramesOutcome(s, frames, k);
    var t := AfterFrames(s, frames);
    assert k in t.pending.Values <==> InMap(t, k);
  }

  // ----- the writer forwards -----

  /** The writer loop sends a prefix of the queue, one request per successful send and in order, and
      loses exactly the rest. */
  lemma {:induction false} WriterLoopForwards(s: State, events: seq<WriterEvent>)
    requires WriterScript(s, events)
    ensures var t := AfterWriter(s, events);
      var n := LeadingCount(events, Recv(true));
      n <= |s.queue| && t.sent == s.sent + s.queue[..n] && t.lost == s.lost + s.queue[n..] && t.queue == []
    decreases |events|
  {
    if events[0] == Recv(true) {
      WriterLoopForwards(AfterPut(s), events[1..]);
      Peel(s.sent, s.lost, s.queue, LeadingCount(events[1..], Recv(true)));
    } else if events[0] == Recv(false) {
      assert (s.lost + [s.queue[0]]) + s.queue[1..] == s.lost + s.queue[0..];
      assert s.sent + s.queue[..0] == s.sent;
    } else {
      assert s.sent + s.queue[..0] == s.sent;
    }
  }

  // ----- the loops are runs -----

  lemma FrameIsRun(s: State, run: seq<Action>, e: Envelope) returns (longer: seq<Action>)
    requires Runs(s, run) && Final(s, run).reader.RIdle?
    ensures Runs(s, longer) && Final(s, longer) == AfterFrame(Final(s, run), e)
  {
    longer := CT.ExtendTask(s, run, ReaderFrame(e));
    longer := CT.ExtendTask(s, longer, ReaderTake);
    if Final(s, longer).reader.RHolding? { longer := CT.ExtendTask(s, longer, ReaderFire); }
  }

  lemma {:induction false} FramesAreRun(s: State, run: seq<Action>, frames: seq<Envelope>) returns (longer: seq<Action>)
    requires Runs(s, run) && Final(s, run).reader.RIdle?
    ensures Runs(s, longer) && Final(s, longer) == AfterFrames(Final(s, run), frames)
    decreases |frames|
  {
    longer := run;
    if frames != [] {
      longer := FrameIsRun(s, run, frames[0]);
      longer := FramesAreRun(s, longer, frames[1..]);
    }
  }

  lemma {:induction false} DropsAreRun(s: State, run: seq<Action>) returns (longer: seq<Action>)
    requires Runs(s, run) && Final(s, run).reader.RDraining?
    ensures Runs(s, longer) && Final(s, longer) == AfterDrops(Final(s, run))
    decreases |Final(s, run).reader.senders|
  {
    var t := Final(s, run);
    var m := t.reader.senders;
    if m == map[] {
      longer := CT.ExtendTask(s, run, ReaderExit);
      assert DropAll(t.calls, m) == t.calls;
    } else {
      var id :| id in m;
      longer := CT.ExtendTask(s, run, ReaderDropOne(id));
      assert (m - {id}).Keys == m.Keys - {id};
      DropOneOfAll(t.calls, m, id);
      longer := DropsAreRun(s, longer);
    }
  }

  lemma LeavingIsRun(s: State, run: seq<Action>) returns (longer: seq<Action>)
    requires Runs(s, run) && Final(s, run).reader.RIdle?
    ensures Runs(s, longer) && Final(s, longer) == Final(s, run).(cancelled := true, reader := RCancelled)
  {
    longer := CT.ExtendTask(s, run, ReaderEnd);
    longer := CT.ExtendTask(s, longer, ReaderCancel);
  }

  lemma DrainIsRun(s: State, run: seq<Action>) returns (longer: seq<Action>)
    requires Runs(s, run) && Final(s, run).reader.RCancelled?
    ensures var t := Final(s, run);
      Runs(s, longer) && Final(s, longer) == AfterDrops(t.(pending := map[], reader := RDraining(t.pending)))
  {
    longer := CT.ExtendTask(s, run, ReaderDrain);
    longer := DropsAreRun(s, longer);
  }

  /** The reader loop is a run of the transition system. */
  lemma ReaderLoopIsRun(s: State, frames: seq<Envelope>) returns (run: seq<Action>)
    requires s.reader.RIdle?
    ensures Runs(s, run) && Final(s, run) == AfterReader(s, frames)
  {
    run := FramesAreRun(s, [], frames);
    run := LeavingIsRun(s, run);
    run := DrainIsRun(s, run);
  }

  lemma ExitIsRun(s: State, run: seq<Action>) returns (longer: seq<Action>)
    requires Runs(s, run) && Final(s, run).writer.WLeaving?
    ensures Runs(s, longer) && Final(s, longer) == WriterExit(Final(s, run))
  {
    longer := CT.ExtendTask(s, run, WriterCancel);
    longer := CT.ExtendTask(s, longer, WriterDrop);
  }

  lemma BreakIsRun(s: State, run: seq<Action>, event: WriterEvent) returns (longer: seq<Action>)
    requires Runs(s, run) && WriterScript(Final(s, run), [event]) && !event.Recv?
    ensures Runs(s, longer) && Final(s, longer) == WriterExit(Final(s, run))
  {
    longer := CT.ExtendTask(s, run, if event.TokenCancelled? then WriterSeesCancel else WriterSeesEnd);
    longer := ExitIsRun(s, longer);
  }

  lemma LossIsRun(s: State, run: seq<Action>) returns (longer: seq<Action>)
    requires Runs(s, run) && Final(s, run).writer.WIdle? && Final(s, run).queue != []
    ensures Runs(s, longer) && Final(s, longer) == WriterExit(AfterLoss(Final(s, run)))
  {
    longer := CT.ExtendTask(s, run, WriterRecv);
    longer := CT.ExtendTask(s, longer, WriterFail);
    longer := ExitIsRun(s, longer);
  }

  lemma PutIsRun(s: State, run: seq<Action>) returns (longer: seq<Action>)
    requires Runs(s, run) && Final(s, run).writer.WIdle? && Final(s, run).queue != []
    ensures Runs(s, longer) && Final(s, longer) == AfterPut(Final(s, run))
  {
    longer := CT.ExtendTask(s, run, WriterRecv);
    longer := CT.ExtendTask(s, longer, WriterPut);
  }

  /** So is the writer loop. */
  lemma {:induction false} WriterLoopIsRun(s: State, run: seq<Action>, events: seq<WriterEvent>)
    returns (longer: seq<Action>)
    requires Runs(s, run) && WriterScript(Final(s, run), events)
    ensures Runs(s, longer) && Final(s, longer) == AfterWriter(Final(s, run), events)
    decreases |events|
  {
    if events[0] == Recv(true) {
      longer := PutIsRun(s, run);
      longer := WriterLoopIsRun(s, longer, events[1..]);
    } else if events[0] == Recv(false) {
      longer := LossIsRun(s, run);
    } else {
      longer := BreakIsRun(s, run, events[0]);
    }
  }
}
