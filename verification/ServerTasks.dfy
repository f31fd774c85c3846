/** One connection of the server as an object: the dispatcher loop, the workers and the writer loop over
    mutable fields, proved against the transition system. */
module ServerTasks {
  import opened Primitives
  import opened Envelopes
  import opened Registry
  import opened ServerMux

  function AfterIngest(s: State, frames: seq<Envelope>): (t: State)
    requires s.dispatcher.Reading?
    ensures t.dispatcher.Reading?
    decreases |frames|
  {
    if frames == [] then s else AfterIngest(DoIngest(s, frames[0]), frames[1..])
  }

  /** The dispatcher spawns exactly one worker per request, in order, and waits for none of them. */
  lemma {:induction false} IngestSpawnsPerRequest(s: State, frames: seq<Envelope>)
    requires s.dispatcher.Reading?
    ensures AfterIngest(s, frames) == s.(ingested := s.ingested + frames,
        running := s.running + Requests(frames), requests := s.requests + Requests(frames))
    decreases |frames|
  {
    if frames == [] {
      assert s.ingested + frames == s.ingested && s.running + Requests(frames) == s.running;
      assert s.requests + Requests(frames) == s.requests;
    } else {
      var t := DoIngest(s, frames[0]);
      IngestSpawnsPerRequest(t, frames[1..]);
      RequestsPrepend(frames);
      assert t.ingested + frames[1..] == s.ingested + frames;
      assert t.running + Requests(frames[1..]) == s.running + Requests(frames);
      assert t.requests + Requests(frames[1..]) == s.requests + Requests(frames);
    }
  }

  lemma {:induction false} RequestsPrepend(frames: seq<Envelope>)
    requires frames != []
    ensures Requests(frames) == (if frames[0].Request? then [frames[0].req] else []) + Requests(frames[1..])
  {
    var n := |frames| - 1;
    if n > 0 {
      RequestsPrepend(frames[..n]);
      assert frames[..n][1..] == frames[1..][..n - 1];
    }
  }

  /** A queued reply received and sent. */
  function AfterPut(s: State): State
    requires s.queue != []
  { s.(queue := s.queue[1..], written := s.written + [s.queue[0]]) }

  /** A queued reply received and its send failed: the writer is gone, with everything queued. */
  function AfterLoss(s: State): State
    requires s.queue != []
  { s.(queue := [], writer := SGone, dropped := s.dropped + [s.queue[0]] + s.queue[1..], sendFailed := true) }

  /** Each is a receive action followed by a send action. */
  lemma WritesAreActions(s: State)
    requires s.writer.SIdle? && s.queue != []
    ensures var sending := Apply(s, WriterRecv);
      && Enabled(sending, WriterPut) && Apply(sending, WriterPut) == AfterPut(s)
      && Enabled(sending, WriterFail) && Apply(sending, WriterFail) == AfterLoss(s)
  {}

  /** The writer on what is queued; `recv` then yields nothing more once every queue sender is gone. */
  function AfterWrites(s: State, sendOk: seq<bool>): State
    requires s.writer.SIdle? && |sendOk| == |s.queue|
    decreases |sendOk|
  {
    if sendOk == [] then (if NoSenders(s) then Apply(s, WriterSeesEnd) else s)
    else if sendOk[0] then AfterWrites(AfterPut(s), sendOk[1..])
    else AfterLoss(s)
  }

  class Connection {
    const handlers: Handlers
    var dispatcher: Dispatcher
    var running: seq<RequestData>
    var finished: seq<Envelope>
    var queue: seq<Envelope>
    var writer: SWriter
    ghost var ingested: seq<Envelope>
    ghost var requests: seq<RequestData>
    ghost var executed: seq<RequestData>
    ghost var outcomes: seq<Outcome>
    ghost var replies: seq<Envelope>
    ghost var written: seq<Envelope>
    ghost var dropped: seq<Envelope>
    ghost var panicked: seq<RequestData>
    ghost var sendFailed: bool

    ghost function St(): State
      reads this
    {
      State(handlers.Keys, dispatcher, running, finished, queue, writer, ingested, requests, executed,
            outcomes, replies, written, dropped, panicked, sendFailed)
    }

    constructor (handlers: Handlers)
      ensures this.handlers == handlers && St() == Init(handlers.Keys)
    {
      this.handlers := handlers;
      dispatcher, running, finished, queue, writer := Reading, [], [], [], SIdle;
      ingested, requests, executed, outcomes, replies := [], [], [], [], [];
      written, dropped, panicked, sendFailed := [], [], [], false;
    }

    /** One frame: a request gets its own worker; anything else is ignored. */
    method Take(e: Envelope)
      requires dispatcher.Reading?
      modifies this
      ensures St() == Apply(old(St()), Ingest(e))
    {
      ingested := ingested + [e];
      if e.Request? {
        running, requests := running + [e.req], requests + [e.req];
      }
    }

    /** The read loop, up to dropping the dispatcher's own queue sender. */
    method ReadLoop(events: seq<Incoming>)
      requires dispatcher.Reading? && Breaks(events) && TokenSeen !in events
      modifies this
      ensures St() == AfterIngest(old(St()), LeadingFrames(events)).(dispatcher := AwaitingWriter)
    {
      var i := 0;
      while events[i].Received?
        invariant 0 <= i < |events| && Breaks(events[i..]) && dispatcher.Reading?
        invariant AfterIngest(St(), LeadingFrames(events[i..])) == AfterIngest(old(St()), LeadingFrames(events))
        decreases |events| - i
      {
        BreaksLater(events[i..]);
        Take(events[i].env);
        assert events[i..][1..] == events[i + 1..];
        i := i + 1;
      }
      assert LeadingFrames(events[i..]) == [];
      dispatcher := AwaitingWriter;
    }

    /** A worker's request becomes its reply. */
    method Complete(i: nat, reply: Envelope, ghost outcome: Outcome)
      requires i < |running|
      modifies this
      ensures St() == DoFinish(old(St()), i, outcome, reply)
    {
      executed, outcomes, replies := executed + [running[i]], outcomes + [outcome], replies + [reply];
      running, finished := Without(running, i), finished + [reply];
    }

    /** A worker dispatches its request to the registered handler. */
    method RunWorker(i: nat) returns (ghost outcome: Outcome)
      requires i < |running|
      modifies this
      ensures St() == Apply(old(St()), Finish(i, outcome))
      ensures finished == old(finished) + [Dispatch(handlers, old(running)[i])]
    {
      var req := running[i];
      var reply := Dispatch(handlers, req);
      outcome := if req.methodName in handlers then Handle(handlers[req.methodName], req.payload) else Ok([]);
      Complete(i, reply, outcome);
    }

    /** `tx.send(response).await` of a worker. */
    method PushReply(i: nat) returns (ok: bool)
      requires i < |finished| && (writer.SGone? || |queue| < WRITER_CHANNEL_CAPACITY)
      modifies this
      ensures ok <==> !old(writer).SGone?
      ensures ok ==> St() == Apply(old(St()), Push(i))
      ensures !ok ==> St() == Apply(old(St()), PushRefused(i))
    {
      ok := !writer.SGone?;
      var reply := finished[i];
      finished := Without(finished, i);
      if ok { queue := queue + [reply]; } else { dropped := dropped + [reply]; }
    }

    /** One reply received from the queue and sent, or lost with the rest of the queue. */
    method WriteOne(sendOk: bool)
      requires writer.SIdle? && queue != []
      modifies this
      ensures St() == if sendOk then AfterPut(old(St())) else AfterLoss(old(St()))
    {
      var reply := queue[0];
      queue := queue[1..];
      if sendOk {
        written := written + [reply];
      } else {
        dropped := dropped + [reply] + queue;
        queue, writer, sendFailed := [], SGone, true;
      }
    }

    /** `writer_loop` over what is queued, up to its exit if no queue sender is left, else up to its wait
        for more; `sendOk` says how each send ends. */
    method WriterLoop(sendOk: seq<bool>)
      requires writer.SIdle? && |sendOk| == |queue|
      modifies this
      ensures St() == AfterWrites(old(St()), sendOk)
    {
      var i := 0;
      while queue != []
        invariant writer.SIdle? && 0 <= i <= |sendOk| && |queue| == |sendOk| - i
        invariant AfterWrites(St(), sendOk[i..]) == AfterWrites(old(St()), sendOk)
        decreases |queue|
      {
        assert sendOk[i..][1..] == sendOk[i + 1..];
        WriteOne(sendOk[i]);
        if !sendOk[i] { return; }
        i := i + 1;
      }
      if !dispatcher.Reading? && running == [] && finished == [] { writer := SGone; }
    }
  }

  /** Replies go out in queue order; the first failed send ends the writer and drops exactly the rest. */
  lemma {:induction false} WriterLoopForwards(s: State, sendOk: seq<bool>)
    requires s.writer.SIdle? && |sendOk| == |s.queue|
    ensures var t := AfterWrites(s, sendOk);
      var n := LeadingCount(sendOk, true);
      && t.written == s.written + s.queue[..n] && t.dropped == s.dropped + s.queue[n..] && t.queue == []
      && (t.writer.SGone? <==> n < |sendOk| || NoSenders(s)) && (t.sendFailed <==> s.sendFailed || n < |sendOk|)
    decreases |sendOk|
  {
    if sendOk == [] {
      assert s.dropped + s.queue == s.dropped && s.written + s.queue == s.written;
    } else if sendOk[0] {
      var p := s.(queue := s.queue[1..], written := s.written + [s.queue[0]]);
      assert AfterPut(s) == p;
      WriterLoopForwards(p, sendOk[1..]);
      Peel(s.written, s.dropped, s.queue, LeadingCount(sendOk[1..], true));
    } else {
      assert s.dropped + [s.queue[0]] + s.queue[1..] == s.dropped + s.queue;
      assert s.written + s.queue[..0] == s.written && s.queue[0..] == s.queue;
    }
  }

}
