/** The client's mutable objects and loops, step by step over fields, proved against the transition
    system: every method's effect is one of its actions, and each loop's effect is a run of them. */
module ClientTasks {
  import opened Primitives
  import opened Envelopes
  import opened Errors
  import opened ClientMux

  /** The registry of in-flight requests; a ticket stands for the one-shot sender parked under the id. */
  class PendingMap {
    var inner: map<u64, Ticket>

    constructor ()
      ensures inner == map[]
    { inner := map[]; }

    /** Parks a sender; a prior entry for the id is returned, to be dropped. */
    method Insert(id: u64, tx: Ticket) returns (prior: Option<Ticket>)
      modifies this
      ensures inner == old(inner)[id := tx]
      ensures prior == if id in old(inner) then Some(old(inner)[id]) else None
    {
      prior := if id in inner then Some(inner[id]) else None;
      inner := inner[id := tx];
    }

    /** Removes an entry and hands its sender over. */
    method Take(id: u64) returns (tx: Option<Ticket>)
      modifies this
      ensures inner == old(inner) - {id}
      ensures tx == if id in old(inner) then Some(old(inner)[id]) else None
    {
      tx := if id in inner then Some(inner[id]) else None;
      inner := inner - {id};
    }

    /** Removes and returns every parked sender. */
    method Drain() returns (senders: map<u64, Ticket>)
      modifies this
      ensures senders == old(inner) && inner == map[]
    {
      senders := inner;
      inner := map[];
    }

    method Len() returns (n: nat)
      ensures n == |inner|
    { n := |inner|; }
  }

  /** Removes its id from the map when dropped, unless disarmed. */
  class PendingGuard {
    const entries: PendingMap
    const id: u64
    var armed: bool

    constructor (entries: PendingMap, id: u64)
      ensures this.entries == entries && this.id == id && armed
    {
      this.entries, this.id, armed := entries, id, true;
    }

    method Disarm()
      modifies this
      ensures !armed
    { armed := false; }

    method Drop() returns (dropped: Option<Ticket>)
      modifies entries
      ensures entries.inner == if armed then old(entries.inner) - {id} else old(entries.inner)
      ensures dropped == if armed && id in old(entries.inner) then Some(old(entries.inner)[id]) else None
    {
      dropped := None;
      if armed { dropped := entries.Take(id); }
    }
  }

  datatype WriterEvent = TokenCancelled | Recv(sendOk: bool) | AllSendersGone

  // ----- what the loops compute, as functions -----

  /** The actions of a call up to its first await, run back to back. */
  function AfterStart(s: State, args: Args): State
    requires s.alive && !s.cancelled
  {
    var checked := ApplyCall(s, Check(args));
    DoInsert(ApplyCall(checked, Allocate(args)), |s.calls|)
  }

  /** One iteration of the reader loop on a frame, as three actions. */
  function AfterFrame(s: State, e: Envelope): (t: State)
    requires s.reader.RIdle?
    ensures t.reader.RIdle? && t.cancelled == s.cancelled
  {
    var taken := DoTake(s.(reader := RGot(e), received := s.received + [e]));
    if taken.reader.RHolding? then DoFire(taken) else taken
  }

  function AfterFrames(s: State, frames: seq<Envelope>): (t: State)
    requires s.reader.RIdle?
    ensures t.reader.RIdle?
    decreases |frames|
  {
    if frames == [] then s else AfterFrames(AfterFrame(s, frames[0]), frames[1..])
  }

  /** The drained senders dropped, whatever the order. */
  function AfterDrops(s: State): State
    requires s.reader.RDraining?
  {
    s.(calls := DropAll(s.calls, s.reader.senders), reader := RGone)
  }

  function DropAll(calls: seq<Call>, m: map<u64, Ticket>): (r: seq<Call>)
    ensures |r| == |calls|
  {
    seq(|calls|, k requires 0 <= k < |calls| => if k in m.Values then calls[k].(slot := SenderDropped) else calls[k])
  }

  lemma DropOneOfAll(calls: seq<Call>, m: map<u64, Ticket>, id: u64)
    requires id in m
    ensures DropAll(DropEntry(calls, m, id), m - {id}) == DropAll(calls, m)
  {
    var left, right := DropAll(DropEntry(calls, m, id), m - {id}), DropAll(calls, m);
    forall k | 0 <= k < |calls|
      ensures left[k] == right[k]
    {
      if k in m.Values && k != m[id] {
        var j :| j in m && m[j] == k;
        assert (m - {id})[j] == k;
      } else if k in (m - {id}).Values {
        var j :| j in m - {id} && (m - {id})[j] == k;
        assert m[j] == k;
      }
    }
  }

  function AfterReader(s: State, frames: seq<Envelope>): State
    requires s.reader.RIdle?
  {
    LeftReader(AfterFrames(s, frames))
  }

  /** Past the loop: the token cancelled, the map drained, the senders dropped. */
  function LeftReader(s: State): State {
    s.(calls := DropAll(s.calls, s.pending), cancelled := true, pending := map[], reader := RGone)
  }

  predicate WriterScript(s: State, events: seq<WriterEvent>)
    decreases |events|
  {
    s.writer.WIdle? && events != [] &&
    match events[0]
    case TokenCancelled => s.cancelled
    case AllSendersGone => s.queue == [] && !s.alive
    case Recv(ok) => s.queue != [] && (ok ==> WriterScript(AfterPut(s), events[1..]))
  }

  function AfterPut(s: State): State
    requires s.writer.WIdle? && s.queue != []
  { s.(sent := s.sent + [s.queue[0]], queue := s.queue[1..]) }

  function WriterExit(s: State): State { s.(writer := WGone, cancelled := true, lost := s.lost + s.queue, queue := []) }

  function AfterLoss(s: State): State
    requires s.writer.WIdle? && s.queue != []
  { s.(lost := s.lost + [s.queue[0]], queue := s.queue[1..]) }

  function AfterWriter(s: State, events: seq<WriterEvent>): State
    requires WriterScript(s, events)
    decreases |events|
  {
    if events[0] == Recv(true) then AfterWriter(AfterPut(s), events[1..])
    else if events[0] == Recv(false) then WriterExit(AfterLoss(s))
    else WriterExit(s)
  }

  class Client {
    const pending: PendingMap
    var nextId: u64
    var calls: seq<Call>
    var entering: multiset<Args>
    var alive: bool
    var queue: seq<Envelope>
    var cancelled: bool
    var writer: Writer
    var reader: Reader
    ghost var order: seq<Ticket>
    ghost var submitted: seq<Envelope>
    ghost var sent: seq<Envelope>
    ghost var lost: seq<Envelope>
    ghost var received: seq<Envelope>

    ghost function St(): State
      reads this, pending
    {
      State(nextId, calls, entering, alive, pending.inner, queue, cancelled, writer, reader,
            order, submitted, sent, lost, received)
    }

    constructor ()
      ensures fresh(pending) && St() == Init
    {
      pending := new PendingMap();
      nextId, calls, entering, alive := 0, [], multiset{}, true;
      queue, cancelled, writer, reader := [], false, WIdle, RIdle;
      order, submitted, sent, lost, received := [], [], [], [], [];
    }

    // ----- the steps of `call()` -----

    method CheckToken(args: Args) returns (closed: bool)
      requires Enabled(St(), Check(args))
      modifies this
      ensures St() == Apply(old(St()), Check(args)) && closed == old(cancelled)
    {
      closed := cancelled;
      if !closed { entering := entering + multiset{args}; }
    }

    /** `next_id.fetch_add(1)`, wrapping. */
    method TakeId(args: Args) returns (k: Ticket)
      requires Enabled(St(), Allocate(args))
      modifies this
      ensures St() == Apply(old(St()), Allocate(args)) && k == |old(calls)|
    {
      assert Apply(St(), Allocate(args)) == DoAllocate(St(), args);
      k := |calls|;
      entering := entering - multiset{args};
      calls := calls + [Call(nextId, args, Allocated, Open, false)];
      nextId := (nextId + 1) % U64_LIMIT;
    }

    method DropSender(tx: Option<Ticket>)
      modifies this`calls
      ensures calls == if tx.Some? then SetSlot(old(calls), tx.value, SenderDropped) else old(calls)
    {
      if tx.Some? && tx.value < |calls| {
        calls := calls[tx.value := calls[tx.value].(slot := SenderDropped)];
      }
    }

    method Register(k: Ticket)
      requires Enabled(St(), Insert(k))
      modifies this, pending
      ensures St() == Apply(old(St()), Insert(k))
    {
      var prior := pending.Insert(calls[k].id, k);
      DropSender(prior);
      calls := calls[k := calls[k].(phase := Inserted, late := reader.RDraining? || reader.RGone?)];
    }

    /** `guard` is the one call `k` armed. */
    predicate GuardOf(guard: PendingGuard, k: Ticket)
      reads this
    {
      k < |calls| && guard.entries == pending && guard.id == calls[k].id
    }

    /** `call()` up to its first await: refused on a closed connection, else registered under a new id
        with its guard armed. */
    method StartCall(args: Args) returns (started: Option<(Ticket, PendingGuard)>)
      requires alive
      modifies this, pending
      ensures started.None? <==> old(cancelled)
      ensures started.Some? ==>
        var (k, guard) := started.value; k == |old(calls)| && fresh(guard) && guard.armed && GuardOf(guard, k)
      ensures St() == if old(cancelled) then old(St()) else AfterStart(old(St()), args)
    {
      var closed := CheckToken(args);
      if closed { return None; }
      var k := TakeId(args);
      Register(k);
      var guard := new PendingGuard(pending, calls[k].id);
      started := Some((k, guard));
    }

    /** The request enters the queue and its call parks. */
    method Submit(k: Ticket)
      requires k < |calls|
      modifies this
      ensures St() == DoEnqueue(old(St()), k)
    {
      var request := RequestOf(calls[k]);
      queue := queue + [request];
      submitted, order := submitted + [request], order + [k];
      calls := calls[k := calls[k].(phase := Parked)];
    }

    /** `outbound.send(request).await`: waits for a slot while the receiver lives. */
    method Send(k: Ticket) returns (ok: bool)
      requires Enabled(St(), Enqueue(k)) || Enabled(St(), SendRefused(k))
      modifies this
      ensures ok <==> !old(writer).WGone?
      ensures ok ==> Enabled(old(St()), Enqueue(k)) && St() == Apply(old(St()), Enqueue(k))
      ensures !ok ==> Enabled(old(St()), SendRefused(k)) && St() == Apply(old(St()), SendRefused(k))
    {
      ok := !writer.WGone?;
      if ok {
        assert Apply(St(), Enqueue(k)) == DoEnqueue(St(), k);
        Submit(k);
      } else {
        calls := calls[k := calls[k].(phase := Unwinding(Returned(Err(Closed))))];
      }
    }

    /** `rx.await` and the end of `call()`: the guard is disarmed, so its drop leaves the map alone. */
    method Awake(k: Ticket, guard: PendingGuard) returns (result: Result<seq<byte>, PatinaError>)
      requires Enabled(St(), Resume(k)) && GuardOf(guard, k)
      modifies this, guard, pending
      ensures St() == Apply(old(St()), Resume(k)) && calls[k].phase == Done(Returned(result)) && !guard.armed
    {
      result := match calls[k].slot
        case Fired(e) => CallResult(e)
        case _ => Err(Closed);
      guard.Disarm();
      var tx := guard.Drop();
      calls := calls[k := calls[k].(phase := Done(Returned(result)))];
    }

    method DropFuture(k: Ticket)
      requires Enabled(St(), Cancel(k))
      modifies this
      ensures St() == Apply(old(St()), Cancel(k))
    {
      calls := calls[k := calls[k].(phase := Unwinding(Cancelled))];
    }

    /** Leaving `call()` before the one-shot resolved: the guard is still armed when it drops. */
    method RunGuard(k: Ticket, guard: PendingGuard)
      requires Enabled(St(), GuardDrop(k)) && GuardOf(guard, k) && guard.armed
      modifies this, pending
      ensures St() == Apply(old(St()), GuardDrop(k))
    {
      var verdict := calls[k].phase.verdict;
      var tx := guard.Drop();
      DropSender(tx);
      calls := calls[k := calls[k].(phase := Done(verdict))];
    }

    // ----- the reader task -----

    method Receive(e: Envelope)
      requires Enabled(St(), ReaderFrame(e))
      modifies this
      ensures St() == Apply(old(St()), ReaderFrame(e))
    {
      reader, received := RGot(e), received + [e];
    }

    method TakeSender()
      requires Enabled(St(), ReaderTake)
      modifies this, pending
      ensures St() == Apply(old(St()), ReaderTake)
    {
      var e := reader.env;
      var id := ReplyId(e);
      reader := RIdle;
      if id.Some? {
        var tx := pending.Take(id.value);
        if tx.Some? {
          reader := RHolding(tx.value, e);
        } else {
          assert pending.inner == old(pending.inner);
        }
      }
    }

    method Fire()
      requires Enabled(St(), ReaderFire)
      modifies this
      ensures St() == Apply(old(St()), ReaderFire)
    {
      var k, e := reader.ticket, reader.env;
      reader := RIdle;
      if k < |calls| {
        var waiting := calls[k].phase.Inserted? || calls[k].phase.Parked?;
        calls := calls[k := calls[k].(slot := if waiting then Fired(e) else SenderDropped)];
      }
    }

    /** Handling one frame: at most three atomic steps, ending at the top of the loop. */
    method HandleFrame(e: Envelope)
      requires reader.RIdle?
      modifies this, pending
      ensures St() == AfterFrame(old(St()), e)
    {
      Receive(e);
      TakeSender();
      if reader.RHolding? { Fire(); }
    }

    /** Dropping the drained senders one by one wakes their callers. */
    method DropDrained()
      requires reader.RDraining?
      modifies this`calls, this`reader
      ensures calls == DropAll(old(calls), old(reader.senders)) && reader == RGone
    {
      var senders := reader.senders;
      while senders != map[]
        invariant DropAll(calls, senders) == DropAll(old(calls), old(reader.senders))
        decreases |senders|
      {
        var id :| id in senders;
        DropOneOfAll(calls, senders, id);
        DropSender(Some(senders[id]));
        assert (senders - {id}).Keys == senders.Keys - {id};
        senders := senders - {id};
      }
      reader := RGone;
    }

    /** The loop proper: frames until the first event that breaks it. */
    method ReadFrames(events: seq<Incoming>)
      requires reader.RIdle? && Breaks(events) && (TokenSeen in events ==> cancelled)
      modifies this, pending
      ensures St() == AfterFrames(old(St()), LeadingFrames(events))
    {
      var i := 0;
      while events[i].Received?
        invariant 0 <= i < |events| && Breaks(events[i..]) && reader.RIdle?
        invariant AfterFrames(St(), LeadingFrames(events[i..])) == AfterFrames(old(St()), LeadingFrames(events))
        decreases |events| - i
      {
        BreaksLater(events[i..]);
        HandleFrame(events[i].env);
        assert events[i..][1..] == events[i + 1..];
        i := i + 1;
      }
      assert LeadingFrames(events[i..]) == [];
    }

    /** `reader_loop`: the loop, then cancel, drain, drop. */
    method ReaderLoop(events: seq<Incoming>)
      requires reader.RIdle? && Breaks(events) && (TokenSeen in events ==> cancelled)
      modifies this, pending
      ensures St() == AfterReader(old(St()), LeadingFrames(events))
    {
      ReadFrames(events);
      LeaveReader();
    }

    method LeaveReader()
      modifies this, pending
      ensures St() == LeftReader(old(St()))
    {
      cancelled := true;
      var senders := pending.Drain();
      reader := RDraining(senders);
      DropDrained();
    }

    // ----- the writer task -----

    /** A received request whose send succeeds. */
    method Forward()
      requires writer.WIdle? && queue != []
      modifies this
      ensures St() == AfterPut(old(St()))
    {
      sent := sent + [queue[0]];
      queue := queue[1..];
    }

    /** A received request whose send fails is lost. */
    method Lose()
      requires writer.WIdle? && queue != []
      modifies this
      ensures St() == AfterLoss(old(St()))
    {
      lost := lost + [queue[0]];
      queue := queue[1..];
    }

    /** The way out: cancel the token, drop the receiver. */
    method LeaveWriter()
      modifies this
      ensures St() == WriterExit(old(St()))
    {
      cancelled := true;
      lost, queue, writer := lost + queue, [], WGone;
    }

    /** `writer_loop`: requests go out in queue order until the token, a failed send or the last sender's
        drop breaks the loop; the receiver is dropped with whatever is left in the queue. */
    method WriterLoop(events: seq<WriterEvent>)
      requires WriterScript(St(), events)
      modifies this
      ensures St() == AfterWriter(old(St()), events)
    {
      var i := 0;
      while events[i] == Recv(true)
        invariant 0 <= i < |events| && WriterScript(St(), events[i..])
        invariant AfterWriter(St(), events[i..]) == AfterWriter(old(St()), events)
        decreases |events| - i
      {
        assert events[i..][1..] == events[i + 1..];
        Forward();
        i := i + 1;
      }
      if events[i] == Recv(false) { Lose(); }
      LeaveWriter();
    }
  }
}
