/** Every action keeps the client invariant, whatever the peer sends and in whatever order. */
module ClientInvariant {
  import opened Primitives
  import opened ClientMux

  /** Tasks only ever change the slots of calls. */
  lemma TasksKeepCalls(s: State, a: Action)
    requires TaskEnabled(s, a)
    ensures var t := ApplyTask(s, a);
      && |t.calls| == |s.calls| && t.nextId == s.nextId && t.order == s.order && t.submitted == s.submitted
      && forall k :: 0 <= k < |s.calls| ==> t.calls[k] == s.calls[k].(slot := t.calls[k].slot)
  {}

  /** Only allocation adds a call; nothing ever changes a call's id or arguments. */
  lemma CallsKeepIdentity(s: State, a: Action)
    requires CallEnabled(s, a) && !a.Allocate?
    ensures var t := ApplyCall(s, a);
      && |t.calls| == |s.calls| && t.nextId == s.nextId
      && forall k :: 0 <= k < |s.calls| ==> t.calls[k].id == s.calls[k].id && t.calls[k].args == s.calls[k].args
  {}

  lemma IdsCallStep(s: State, a: Action)
    requires IdsOk(s) && CallEnabled(s, a)
    ensures IdsOk(ApplyCall(s, a))
  {
    if !a.Allocate? { CallsKeepIdentity(s, a); }
  }

  lemma IdsTaskStep(s: State, a: Action)
    requires IdsOk(s) && TaskEnabled(s, a)
    ensures IdsOk(ApplyTask(s, a))
  {}

  lemma OrderEnqueueStep(s: State, k: Ticket)
    requires OrderOk(s) && CallEnabled(s, Enqueue(k))
    ensures OrderOk(ApplyCall(s, Enqueue(k)))
  {}

  /** A call past the queue never gets behind it again. */
  lemma PhasesAdvance(s: State, a: Action, k: Ticket)
    requires CallEnabled(s, a) && !a.Allocate? && k < |s.calls|
    requires !s.calls[k].phase.Allocated? && !s.calls[k].phase.Inserted?
    ensures k < |ApplyCall(s, a).calls|
    ensures !ApplyCall(s, a).calls[k].phase.Allocated? && !ApplyCall(s, a).calls[k].phase.Inserted?
  {}

  lemma OrderOtherStep(s: State, a: Action)
    requires OrderOk(s) && CallEnabled(s, a) && !a.Allocate? && !a.Enqueue?
    ensures OrderOk(ApplyCall(s, a))
  {
    var t := ApplyCall(s, a);
    CallsKeepIdentity(s, a);
    assert t.order == s.order && t.submitted == s.submitted;
    forall i | 0 <= i < |t.order|
      ensures t.order[i] < |t.calls| && t.submitted[i] == RequestOf(t.calls[t.order[i]])
      ensures !t.calls[t.order[i]].phase.Allocated? && !t.calls[t.order[i]].phase.Inserted?
    {
      PhasesAdvance(s, a, s.order[i]);
    }
  }

  lemma OrderCallStep(s: State, a: Action)
    requires OrderOk(s) && CallEnabled(s, a)
    ensures OrderOk(ApplyCall(s, a))
  {
    if a.Enqueue? { OrderEnqueueStep(s, a.k); }
    else if !a.Allocate? { OrderOtherStep(s, a); }
  }

  lemma OrderTaskStep(s: State, a: Action)
    requires OrderOk(s) && TaskEnabled(s, a)
    ensures OrderOk(ApplyTask(s, a))
  {
    TasksKeepCalls(s, a);
  }

  lemma FlowCallStep(s: State, a: Action)
    requires FlowOk(s) && CallEnabled(s, a)
    ensures FlowOk(ApplyCall(s, a))
  {}

  lemma FlowRecvStep(s: State)
    requires FlowOk(s) && TaskEnabled(s, WriterRecv)
    ensures FlowOk(ApplyTask(s, WriterRecv))
  {
    assert s.queue == [s.queue[0]] + s.queue[1..];
  }

  lemma FlowPutStep(s: State)
    requires FlowOk(s) && TaskEnabled(s, WriterPut)
    ensures FlowOk(ApplyTask(s, WriterPut))
  {}

  lemma FlowLossStep(s: State, a: Action)
    requires FlowOk(s) && TaskEnabled(s, a) && (a.WriterFail? || a.WriterDrop?)
    ensures FlowOk(ApplyTask(s, a))
  {}

  lemma FlowOtherStep(s: State, a: Action)
    requires FlowOk(s) && TaskEnabled(s, a) && !(a.WriterRecv? || a.WriterPut? || a.WriterFail? || a.WriterDrop?)
    ensures FlowOk(ApplyTask(s, a))
  {}

  lemma FlowTaskStep(s: State, a: Action)
    requires FlowOk(s) && TaskEnabled(s, a)
    ensures FlowOk(ApplyTask(s, a))
  {
    match a
    case WriterRecv => FlowRecvStep(s);
    case WriterPut => FlowPutStep(s);
    case WriterFail => FlowLossStep(s, a);
    case WriterDrop => FlowLossStep(s, a);
    case _ => FlowOtherStep(s, a);
  }

  lemma TokenCallStep(s: State, a: Action)
    requires TokenOk(s) && CallEnabled(s, a)
    ensures TokenOk(ApplyCall(s, a))
  {}

  lemma TokenTaskStep(s: State, a: Action)
    requires TokenOk(s) && TaskEnabled(s, a)
    ensures TokenOk(ApplyTask(s, a))
  {
    TasksKeepCalls(s, a);
  }

  lemma EntriesKeep(calls: seq<Call>, later: seq<Call>, m: map<u64, Ticket>)
    requires EntriesOk(calls, m) && |calls| <= |later|
    requires forall k :: 0 <= k < |calls| ==> later[k].id == calls[k].id
    ensures EntriesOk(later, m)
  {}

  lemma TicketsCallStep(s: State, a: Action)
    requires TicketsOk(s) && CallEnabled(s, a)
    ensures TicketsOk(ApplyCall(s, a))
  {
    var t := ApplyCall(s, a);
    if !a.Allocate? { CallsKeepIdentity(s, a); }
    EntriesKeep(s.calls, t.calls, s.pending);
    if s.reader.RDraining? { EntriesKeep(s.calls, t.calls, s.reader.senders); }
  }

  lemma TicketsTaskStep(s: State, a: Action)
    requires TicketsOk(s) && TaskEnabled(s, a)
    ensures TicketsOk(ApplyTask(s, a))
  {}

  lemma PlacesMapStep(s: State, a: Action, k: Ticket)
    requires SendersOk(s) && CallEnabled(s, a) && (a.Insert? || a.GuardDrop?) && k < |s.calls|
    ensures SenderPlaces(ApplyCall(s, a), k) == 1
  {
    assert SenderPlaces(s, k) == 1;
  }

  lemma PlacesAllocateStep(s: State, args: Args, k: Ticket)
    requires SendersOk(s) && CallEnabled(s, Allocate(args)) && k <= |s.calls|
    ensures SenderPlaces(ApplyCall(s, Allocate(args)), k) == 1
  {
    if k < |s.calls| { assert SenderPlaces(s, k) == 1; }
  }

  lemma PlacesPhaseStep(s: State, a: Action, k: Ticket)
    requires SendersOk(s) && CallEnabled(s, a) && !a.Insert? && !a.GuardDrop? && !a.Allocate? && k < |s.calls|
    ensures SenderPlaces(ApplyCall(s, a), k) == 1
  {
    assert SenderPlaces(s, k) == 1;
  }

  lemma PlacesTakeStep(s: State, k: Ticket)
    requires SendersOk(s) && s.reader.RGot? && k < |s.calls|
    ensures SenderPlaces(DoTake(s), k) == 1
  {
    assert SenderPlaces(s, k) == 1;
  }

  lemma PlacesFireStep(s: State, k: Ticket)
    requires SendersOk(s) && s.reader.RHolding? && k < |s.calls|
    ensures SenderPlaces(DoFire(s), k) == 1
  {
    assert SenderPlaces(s, k) == 1;
  }

  lemma PlacesTaskStep(s: State, a: Action, k: Ticket)
    requires SendersOk(s) && TaskEnabled(s, a) && k < |s.calls|
    ensures SenderPlaces(ApplyTask(s, a), k) == 1
  {
    assert SenderPlaces(s, k) == 1;
    if a.ReaderTake? { PlacesTakeStep(s, k); } else if a.ReaderFire? { PlacesFireStep(s, k); }
  }

  lemma CallsInsertStep(s: State, j: Ticket, k: Ticket)
    requires SendersOk(s) && CallsOk(s) && CallEnabled(s, Insert(j)) && k < |s.calls|
    ensures CallOk(DoInsert(s, j), k)
  {
    assert SenderPlaces(s, k) == 1 && CallOk(s, k);
  }

  lemma CallsGuardDropStep(s: State, j: Ticket, k: Ticket)
    requires SendersOk(s) && CallsOk(s) && CallEnabled(s, GuardDrop(j)) && k < |s.calls|
    ensures CallOk(DoGuardDrop(s, j), k)
  {
    assert SenderPlaces(s, k) == 1 && CallOk(s, k);
  }

  lemma CallsEnqueueStep(s: State, j: Ticket, k: Ticket)
    requires CallsOk(s) && CallEnabled(s, Enqueue(j)) && k < |s.calls|
    ensures CallOk(DoEnqueue(s, j), k)
  {
    assert CallOk(s, k);
  }

  lemma CallsResumeStep(s: State, j: Ticket, k: Ticket)
    requires SendersOk(s) && CallsOk(s) && CallEnabled(s, Resume(j)) && k < |s.calls|
    ensures CallOk(ApplyCall(s, Resume(j)), k)
  {
    assert SenderPlaces(s, k) == 1 && CallOk(s, k);
  }

  lemma CallsLeaveStep(s: State, a: Action, k: Ticket)
    requires SendersOk(s) && CallsOk(s) && CallEnabled(s, a) && k < |s.calls| && (a.SendRefused? || a.Cancel?)
    ensures CallOk(ApplyCall(s, a), k)
  {
    assert SenderPlaces(s, k) == 1 && CallOk(s, k);
  }

  lemma CallsEntryStep(s: State, a: Action, k: Ticket)
    requires SendersOk(s) && CallsOk(s) && CallEnabled(s, a) && k < |ApplyCall(s, a).calls|
    requires a.Check? || a.Allocate? || a.DropClient?
    ensures CallOk(ApplyCall(s, a), k)
  {
    if k < |s.calls| {
      assert CallOk(s, k);
    }
  }

  predicate OfDelivery(a: Action) {
    a.ReaderFrame? || a.ReaderTake? || a.ReaderFire? || a.ReaderSeesCancel? || a.ReaderEnd? || a.ReaderCancel?
  }

  predicate OfDrain(a: Action) { a.ReaderDrain? || a.ReaderDropOne? || a.ReaderExit? }

  predicate OfReader(a: Action) { OfDelivery(a) || OfDrain(a) }

  lemma CallsTakeStep(s: State, k: Ticket)
    requires SendersOk(s) && CallsOk(s) && s.reader.RGot? && k < |s.calls|
    ensures CallOk(DoTake(s), k)
  {
    assert CallOk(s, k);
  }

  lemma CallsFireStep(s: State, k: Ticket)
    requires SendersOk(s) && CallsOk(s) && TokenOk(s) && s.reader.RHolding? && k < |s.calls|
    ensures CallOk(DoFire(s), k)
  {
    assert SenderPlaces(s, k) == 1 && CallOk(s, k);
  }

  lemma CallsDeliveryStep(s: State, a: Action, k: Ticket)
    requires SendersOk(s) && CallsOk(s) && TokenOk(s) && TaskEnabled(s, a) && OfDelivery(a) && k < |s.calls|
    ensures CallOk(ApplyTask(s, a), k)
  {
    assert CallOk(s, k);
    if a.ReaderTake? { CallsTakeStep(s, k); } else if a.ReaderFire? { CallsFireStep(s, k); }
  }

  lemma CallsDrainStep(s: State, a: Action, k: Ticket)
    requires SendersOk(s) && CallsOk(s) && TaskEnabled(s, a) && OfDrain(a) && k < |s.calls|
    ensures CallOk(ApplyTask(s, a), k)
  {
    assert SenderPlaces(s, k) == 1 && CallOk(s, k);
  }

  lemma CallsWriterStep(s: State, a: Action, k: Ticket)
    requires CallsOk(s) && TaskEnabled(s, a) && !OfReader(a) && k < |s.calls|
    ensures CallOk(ApplyTask(s, a), k)
  {
    assert CallOk(s, k);
  }

  lemma PlacesCallStep(s: State, a: Action, k: Ticket)
    requires SendersOk(s) && CallEnabled(s, a) && k < |ApplyCall(s, a).calls|
    ensures SenderPlaces(ApplyCall(s, a), k) == 1
  {
    if a.Allocate? { PlacesAllocateStep(s, a.args, k); }
    else if a.Insert? || a.GuardDrop? { PlacesMapStep(s, a, k); }
    else { PlacesPhaseStep(s, a, k); }
  }

  lemma CallsCallStep(s: State, a: Action, k: Ticket)
    requires SendersOk(s) && CallsOk(s) && CallEnabled(s, a) && k < |ApplyCall(s, a).calls|
    ensures CallOk(ApplyCall(s, a), k)
  {
    match a
    case Insert(j) => CallsInsertStep(s, j, k);
    case GuardDrop(j) => CallsGuardDropStep(s, j, k);
    case Enqueue(j) => CallsEnqueueStep(s, j, k);
    case Resume(j) => CallsResumeStep(s, j, k);
    case SendRefused(_) => CallsLeaveStep(s, a, k);
    case Cancel(_) => CallsLeaveStep(s, a, k);
    case _ => CallsEntryStep(s, a, k);
  }

  lemma InvCallStep(s: State, a: Action)
    requires Inv(s) && CallEnabled(s, a)
    ensures Inv(ApplyCall(s, a))
  {
    IdsCallStep(s, a);
    OrderCallStep(s, a);
    FlowCallStep(s, a);
    TokenCallStep(s, a);
    TicketsCallStep(s, a);
    var t := ApplyCall(s, a);
    forall k | 0 <= k < |t.calls|
      ensures SenderPlaces(t, k) == 1 && CallOk(t, k)
    {
      PlacesCallStep(s, a, k);
      CallsCallStep(s, a, k);
    }
  }

  lemma InvTaskStep(s: State, a: Action)
    requires Inv(s) && TaskEnabled(s, a)
    ensures Inv(ApplyTask(s, a))
  {
    IdsTaskStep(s, a);
    OrderTaskStep(s, a);
    FlowTaskStep(s, a);
    TokenTaskStep(s, a);
    TicketsTaskStep(s, a);
    var t := ApplyTask(s, a);
    forall k | 0 <= k < |t.calls|
      ensures SenderPlaces(t, k) == 1 && CallOk(t, k)
    {
      PlacesTaskStep(s, a, k);
      if OfDelivery(a) { CallsDeliveryStep(s, a, k); }
      else if OfDrain(a) { CallsDrainStep(s, a, k); }
      else { CallsWriterStep(s, a, k); }
    }
  }

  lemma TaskApply(s: State, a: Action)
    requires TaskEnabled(s, a)
    ensures Enabled(s, a) && Apply(s, a) == ApplyTask(s, a)
  {}

  lemma InvStep(s: State, a: Action)
    requires Inv(s) && Enabled(s, a)
    ensures Inv(Apply(s, a))
  {
    if CallEnabled(s, a) { InvCallStep(s, a); } else { InvTaskStep(s, a); }
  }

  /** The invariant holds in every state of every run. */
  lemma {:induction false} InvRun(s: State, run: seq<Action>)
    requires Inv(s) && Runs(s, run)
    ensures Inv(Final(s, run))
    decreases |run|
  {
    if run != [] {
      InvStep(s, run[0]);
      InvRun(Apply(s, run[0]), run[1..]);
    }
  }

  lemma InitInv()
    ensures Inv(Init)
  {
    assert IdsOk(Init);
    assert SendersOk(Init);
    assert CallsOk(Init);
    assert OrderOk(Init);
    assert FlowOk(Init);
    assert TokenOk(Init);
  }

  lemma Reachable(run: seq<Action>)
    requires Runs(Init, run)
    ensures Inv(Final(Init, run))
  {
    InitInv();
    InvRun(Init, run);
  }
}
