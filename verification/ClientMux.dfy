/** The client half of the multiplexer as a transition system: one action per atomic step of any
    `call()` future, of the writer task and of the reader task. Everything the peer, the scheduler or
    the network decides is in the choice of the next action. */
module ClientMux {
  import opened Primitives
  import opened Envelopes
  import opened Errors

  const CLIENT_WRITER_CHANNEL_CAPACITY := 128

  // ----- data -----

  datatype Args = Args(methodName: Str, payload: seq<byte>)

  /** Number of a call in the order of `next_id.fetch_add`. */
  type Ticket = nat

  /** A one-shot channel seen from the receiver. */
  datatype Slot = Open | Fired(env: Envelope) | SenderDropped

  datatype Verdict = Returned(result: Result<seq<byte>, PatinaError>) | Cancelled

  /** Where a `call()` future stands: id taken; sender in the map and guard armed, waiting for a queue
      slot; request queued, waiting on the one-shot; body left, guard about to drop; finished. */
  datatype Phase = Allocated | Inserted | Parked | Unwinding(verdict: Verdict) | Done(verdict: Verdict)

  /** `late` records that the sender was inserted after the reader had drained the map. */
  datatype Call = Call(id: u64, args: Args, phase: Phase, slot: Slot, late: bool)

  datatype Writer = WIdle | WSending(env: Envelope) | WLeaving | WCancelled | WGone

  datatype Reader =
    | RIdle | RGot(env: Envelope) | RHolding(ticket: Ticket, env: Envelope)
    | RLeaving | RCancelled | RDraining(senders: map<u64, Ticket>) | RGone

  /** `entering` holds the calls past the token check but before id allocation. The last five fields
      are history: the tickets and requests that entered the queue, in order, the frames sent, the
      requests dropped at teardown, and the frames received. */
  datatype State = State(
    nextId: u64, calls: seq<Call>, entering: multiset<Args>, alive: bool,
    pending: map<u64, Ticket>, queue: seq<Envelope>, cancelled: bool, writer: Writer, reader: Reader,
    order: seq<Ticket>, submitted: seq<Envelope>, sent: seq<Envelope>, lost: seq<Envelope>, received: seq<Envelope>)

  const Init := State(0, [], multiset{}, true, map[], [], false, WIdle, RIdle, [], [], [], [], [])

  datatype Action =
    | Check(args: Args) | Allocate(args: Args) | Insert(k: Ticket) | Enqueue(k: Ticket) | SendRefused(k: Ticket)
    | Resume(k: Ticket) | Cancel(k: Ticket) | GuardDrop(k: Ticket) | DropClient
    | WriterRecv | WriterPut | WriterFail | WriterSeesCancel | WriterSeesEnd | WriterCancel | WriterDrop
    | ReaderFrame(env: Envelope) | ReaderTake | ReaderFire | ReaderSeesCancel | ReaderEnd | ReaderCancel
    | ReaderDrain | ReaderDropOne(id: u64) | ReaderExit

  // ----- steps -----

  function RequestOf(c: Call): Envelope { Request(RequestData(c.id, c.args.methodName, c.args.payload)) }

  /** The id the reader looks up for a frame, if it looks one up at all. */
  function ReplyId(e: Envelope): Option<u64> {
    match e
    case Response(id, _) => Some(id)
    case Error(id, _, _) => Some(id)
    case _ => None
  }

  predicate Drained(s: State) { s.reader.RDraining? || s.reader.RGone? }

  function SetSlot(calls: seq<Call>, k: Ticket, slot: Slot): (r: seq<Call>)
    ensures |r| == |calls|
  {
    if k < |calls| then calls[k := calls[k].(slot := slot)] else calls
  }

  /** Dropping the map entry under `id` drops the sender in it. */
  function DropEntry(calls: seq<Call>, pending: map<u64, Ticket>, id: u64): (r: seq<Call>)
    ensures |r| == |calls|
  {
    if id in pending then SetSlot(calls, pending[id], SenderDropped) else calls
  }

  function SetPhase(calls: seq<Call>, k: Ticket, phase: Phase): (r: seq<Call>)
    ensures |r| == |calls|
  {
    if k < |calls| then calls[k := calls[k].(phase := phase)] else calls
  }

  predicate Waiting(c: Call) { c.phase.Inserted? || c.phase.Parked? }

  predicate AllDone(s: State) { forall k :: 0 <= k < |s.calls| ==> s.calls[k].phase.Done? }

  predicate CallEnabled(s: State, a: Action) {
    match a
    case Check(_) => s.alive
    case Allocate(args) => args in s.entering
    case Insert(k) => k < |s.calls| && s.calls[k].phase.Allocated?
    case Enqueue(k) =>
      k < |s.calls| && s.calls[k].phase.Inserted?
      && |s.queue| < CLIENT_WRITER_CHANNEL_CAPACITY && !s.writer.WGone?
    case SendRefused(k) => k < |s.calls| && s.calls[k].phase.Inserted? && s.writer.WGone?
    case Resume(k) => k < |s.calls| && s.calls[k].phase.Parked? && !s.calls[k].slot.Open?
    case Cancel(k) => k < |s.calls| && Waiting(s.calls[k])
    case GuardDrop(k) => k < |s.calls| && s.calls[k].phase.Unwinding?
    case DropClient => s.alive && s.entering == multiset{} && AllDone(s)
    case _ => false
  }

  predicate TaskEnabled(s: State, a: Action) {
    match a
    case WriterRecv => s.writer.WIdle? && s.queue != []
    case WriterPut => s.writer.WSending?
    case WriterFail => s.writer.WSending?
    case WriterSeesCancel => s.writer.WIdle? && s.cancelled
    case WriterSeesEnd => s.writer.WIdle? && s.queue == [] && !s.alive
    case WriterCancel => s.writer.WLeaving?
    case WriterDrop => s.writer.WCancelled?
    case ReaderFrame(_) => s.reader.RIdle?
    case ReaderTake => s.reader.RGot?
    case ReaderFire => s.reader.RHolding?
    case ReaderSeesCancel => s.reader.RIdle? && s.cancelled
    case ReaderEnd => s.reader.RIdle?
    case ReaderCancel => s.reader.RLeaving?
    case ReaderDrain => s.reader.RCancelled?
    case ReaderDropOne(id) => s.reader.RDraining? && id in s.reader.senders
    case ReaderExit => s.reader.RDraining? && s.reader.senders == map[]
    case _ => false
  }

  predicate Enabled(s: State, a: Action) { CallEnabled(s, a) || TaskEnabled(s, a) }

  function DoAllocate(s: State, args: Args): State {
    s.(entering := s.entering - multiset{args},
       calls := s.calls + [Call(s.nextId, args, Allocated, Open, false)],
       nextId := (s.nextId + 1) % U64_LIMIT)
  }

  function DoEnqueue(s: State, k: Ticket): State
    requires k < |s.calls|
  {
    s.(calls := SetPhase(s.calls, k, Parked), queue := s.queue + [RequestOf(s.calls[k])],
       submitted := s.submitted + [RequestOf(s.calls[k])], order := s.order + [k])
  }

  function DoInsert(s: State, k: Ticket): State
    requires k < |s.calls|
  {
    var id := s.calls[k].id;
    var calls := DropEntry(s.calls, s.pending, id);
    s.(calls := calls[k := calls[k].(phase := Inserted, late := Drained(s))], pending := s.pending[id := k])
  }

  function DoGuardDrop(s: State, k: Ticket): State
    requires k < |s.calls| && s.calls[k].phase.Unwinding?
  {
    var id := s.calls[k].id;
    s.(calls := SetPhase(DropEntry(s.calls, s.pending, id), k, Done(s.calls[k].phase.verdict)),
       pending := s.pending - {id})
  }

  function Awoken(slot: Slot): Verdict { Returned(if slot.Fired? then CallResult(slot.env) else Err(Closed)) }

  function ApplyCall(s: State, a: Action): State
    requires CallEnabled(s, a)
  {
    match a
    case Check(args) => if s.cancelled then s else s.(entering := s.entering + multiset{args})
    case Allocate(args) => DoAllocate(s, args)
    case Insert(k) => DoInsert(s, k)
    case Enqueue(k) => DoEnqueue(s, k)
    case SendRefused(k) => s.(calls := SetPhase(s.calls, k, Unwinding(Returned(Err(Closed)))))
    case Resume(k) => s.(calls := SetPhase(s.calls, k, Done(Awoken(s.calls[k].slot))))
    case Cancel(k) => s.(calls := SetPhase(s.calls, k, Unwinding(Cancelled)))
    case GuardDrop(k) => DoGuardDrop(s, k)
    case DropClient => s.(alive := false)
  }

  function DoTake(s: State): State
    requires s.reader.RGot?
  {
    var id := ReplyId(s.reader.env);
    if id.Some? && id.value in s.pending then
      s.(reader := RHolding(s.pending[id.value], s.reader.env), pending := s.pending - {id.value})
    else s.(reader := RIdle)
  }

  /** Firing into a one-shot whose receiver is gone loses the value. */
  function DoFire(s: State): State
    requires s.reader.RHolding?
  {
    var k := s.reader.ticket;
    var slot := if k < |s.calls| && Waiting(s.calls[k]) then Fired(s.reader.env) else SenderDropped;
    s.(calls := SetSlot(s.calls, k, slot), reader := RIdle)
  }

  function ApplyTask(s: State, a: Action): State
    requires TaskEnabled(s, a)
  {
    match a
    case WriterRecv => s.(writer := WSending(s.queue[0]), queue := s.queue[1..])
    case WriterPut => s.(writer := WIdle, sent := s.sent + [s.writer.env])
    case WriterFail => s.(writer := WLeaving, lost := s.lost + [s.writer.env])
    case WriterSeesCancel => s.(writer := WLeaving)
    case WriterSeesEnd => s.(writer := WLeaving)
    case WriterCancel => s.(writer := WCancelled, cancelled := true)
    case WriterDrop => s.(writer := WGone, lost := s.lost + s.queue, queue := [])
    case ReaderFrame(e) => s.(reader := RGot(e), received := s.received + [e])
    case ReaderTake => DoTake(s)
    case ReaderFire => DoFire(s)
    case ReaderSeesCancel => s.(reader := RLeaving)
    case ReaderEnd => s.(reader := RLeaving)
    case ReaderCancel => s.(reader := RCancelled, cancelled := true)
    case ReaderDrain => s.(reader := RDraining(s.pending), pending := map[])
    case ReaderDropOne(id) =>
      s.(calls := DropEntry(s.calls, s.reader.senders, id), reader := RDraining(s.reader.senders - {id}))
    case ReaderExit => s.(reader := RGone)
  }

  function Apply(s: State, a: Action): State
    requires Enabled(s, a)
  {
    if CallEnabled(s, a) then ApplyCall(s, a) else ApplyTask(s, a)
  }

  // ----- runs -----

  predicate Runs(s: State, run: seq<Action>)
    decreases |run|
  {
    run == [] || (Enabled(s, run[0]) && Runs(Apply(s, run[0]), run[1..]))
  }

  function Final(s: State, run: seq<Action>): State
    requires Runs(s, run)
    decreases |run|
  {
    if run == [] then s else Final(Apply(s, run[0]), run[1..])
  }

  // ----- the invariant -----

  predicate InMap(s: State, k: Ticket)
    requires k < |s.calls|
  { s.calls[k].id in s.pending && s.pending[s.calls[k].id] == k }

  predicate InHand(s: State, k: Ticket) { s.reader.RHolding? && s.reader.ticket == k }

  predicate InVector(s: State, k: Ticket)
    requires k < |s.calls|
  { s.reader.RDraining? && s.calls[k].id in s.reader.senders && s.reader.senders[s.calls[k].id] == k }

  function Count(b: bool): nat { if b then 1 else 0 }

  /** In how many places call `k`'s one-shot sender is: with the caller before insertion, in the map, in
      the reader's hand, in the drained vector, or used up. */
  function SenderPlaces(s: State, k: Ticket): nat
    requires k < |s.calls|
  {
    Count(s.calls[k].phase.Allocated?) + Count(InMap(s, k)) + Count(InHand(s, k)) + Count(InVector(s, k))
    + Count(!s.calls[k].slot.Open?)
  }

  predicate IdsOk(s: State) {
    s.nextId == |s.calls| % U64_LIMIT && forall k :: 0 <= k < |s.calls| ==> s.calls[k].id == k % U64_LIMIT
  }

  predicate EntriesOk(calls: seq<Call>, m: map<u64, Ticket>) {
    forall id :: id in m ==> m[id] < |calls| && calls[m[id]].id == id
  }

  /** Wherever a sender is, it is under its own call's id. */
  predicate TicketsOk(s: State) {
    && EntriesOk(s.calls, s.pending)
    && (s.reader.RDraining? ==> EntriesOk(s.calls, s.reader.senders))
    && (s.reader.RHolding? ==>
          s.reader.ticket < |s.calls| && ReplyId(s.reader.env) == Some(s.calls[s.reader.ticket].id))
  }

  predicate SendersOk(s: State) {
    TicketsOk(s) && forall k :: 0 <= k < |s.calls| ==> SenderPlaces(s, k) == 1
  }

  predicate CallOk(s: State, k: Ticket)
    requires k < |s.calls|
  {
    var c := s.calls[k];
    && (c.phase.Done? ==> !InMap(s, k))
    && (c.slot.Fired? ==> ReplyId(c.slot.env) == Some(c.id) && c.slot.env in s.received)
    && (c.phase.Done? && c.phase.verdict.Returned? && c.phase.verdict != Returned(Err(Closed))
        ==> c.slot.Fired? && c.phase.verdict == Returned(CallResult(c.slot.env)))
    && ((c.phase.Unwinding? || c.phase.Done?) && c.phase.verdict.Returned? && !c.slot.Fired?
        ==> c.phase.verdict == Returned(Err(Closed)))
    && (c.phase.Unwinding? ==> c.phase.verdict == Cancelled || c.phase.verdict == Returned(Err(Closed)))
    && (c.phase.Parked? ==> k in s.order)
    && (c.late ==> Drained(s) && !c.phase.Allocated? && !InHand(s, k) && !InVector(s, k) && !c.slot.Fired?)
    && (Drained(s) && InMap(s, k) ==> c.late)
  }

  predicate CallsOk(s: State) { forall k :: 0 <= k < |s.calls| ==> CallOk(s, k) }

  predicate OrderOk(s: State) {
    && |s.order| == |s.submitted|
    && (forall i :: 0 <= i < |s.order| ==>
          && s.order[i] < |s.calls| && s.submitted[i] == RequestOf(s.calls[s.order[i]])
          && !s.calls[s.order[i]].phase.Allocated? && !s.calls[s.order[i]].phase.Inserted?)
    && (forall i, j :: 0 <= i < j < |s.order| ==> s.order[i] != s.order[j])
  }

  function InWriter(s: State): seq<Envelope> { if s.writer.WSending? then [s.writer.env] else [] }

  /** Requests leave the queue in the order they entered it, each to exactly one place. */
  predicate FlowOk(s: State) {
    && s.submitted == s.sent + s.lost + InWriter(s) + s.queue
    && (s.lost != [] ==> s.writer.WLeaving? || s.writer.WCancelled? || s.writer.WGone?)
    && (s.writer.WGone? ==> s.queue == [])
  }

  /** Both tasks cancel the token on every way out, and before anything that follows. */
  predicate TokenOk(s: State) {
    && (s.writer.WCancelled? || s.writer.WGone? ==> s.cancelled)
    && (s.reader.RCancelled? || Drained(s) ==> s.cancelled)
    && (s.reader.RHolding? ==> s.reader.env in s.received)
    && (s.reader.RGot? ==> s.received != [] && s.received[|s.received| - 1] == s.reader.env)
    && |s.queue| <= CLIENT_WRITER_CHANNEL_CAPACITY
    && (!s.alive ==> s.entering == multiset{} && AllDone(s))
  }

  predicate Inv(s: State) {
    IdsOk(s) && SendersOk(s) && CallsOk(s) && OrderOk(s) && FlowOk(s) && TokenOk(s)
  }
}
