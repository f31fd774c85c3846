/** What a call returns, exactly, over every run; and what each party may do at each of its waits. */
module CallOutcomes {
  import opened Primitives
  import opened Envelopes
  import opened Errors
  import opened ClientMux
  import opened ClientInvariant
  import opened ClientTheorems

  // ----- the result of a call -----

  /** `r` is what `call()` makes of a resolved one-shot: a reply's payload, a remote error with the
      reply's code and message, or `Closed` for a dropped sender (or for a frame that is no reply). */
  predicate Answers(slot: Slot, r: Result<seq<byte>, PatinaError>) {
    match slot
    case Open => false
    case SenderDropped => r == Err(Closed)
    case Fired(Response(_, payload)) => r == Ok(payload)
    case Fired(Error(_, code, message)) => r == Err(Remote(code, message))
    case Fired(_) => r == Err(Closed)
  }

  /** Resuming returns the reply if there is one, whether or not the connection has closed since. */
  lemma ResumeReturnsReply(s: State, k: Ticket)
    requires Enabled(s, Resume(k))
    ensures var phase := Apply(s, Resume(k)).calls[k].phase;
      phase.Done? && phase.verdict.Returned? && Answers(s.calls[k].slot, phase.verdict.result)
  {}

  /** An enqueued call returns what its one-shot says; one refused by the queue returns `Closed`. */
  predicate OutcomeOk(s: State, k: Ticket)
    requires k < |s.calls|
  {
    var phase := s.calls[k].phase;
    && (phase.Unwinding? && phase.verdict.Returned? ==> phase.verdict.result == Err(Closed) && k !in s.order)
    && (phase.Done? && phase.verdict.Returned? ==>
          if k in s.order then Answers(s.calls[k].slot, phase.verdict.result) else phase.verdict.result == Err(Closed))
  }

  predicate AllOutcomesOk(s: State) { forall k :: 0 <= k < |s.calls| ==> OutcomeOk(s, k) }

  lemma NotYetEnqueued(s: State, k: Ticket)
    requires OrderOk(s) && k < |s.calls| && (s.calls[k].phase.Allocated? || s.calls[k].phase.Inserted?)
    ensures k !in s.order
  {}

  /** A finished call's slot is settled: nothing that happens to other calls changes it. */
  lemma OutcomeInsertStep(s: State, j: Ticket, k: Ticket)
    requires Inv(s) && CallEnabled(s, Insert(j)) && k < |s.calls| && OutcomeOk(s, k)
    ensures OutcomeOk(DoInsert(s, j), k)
  {
    if !s.calls[k].slot.Open? { SlotFinalCall(s, Insert(j), k); }
    assert CallOk(s, k);
  }

  lemma OutcomeGuardStep(s: State, j: Ticket, k: Ticket)
    requires Inv(s) && CallEnabled(s, GuardDrop(j)) && k < |s.calls| && OutcomeOk(s, k)
    ensures OutcomeOk(DoGuardDrop(s, j), k)
  {
    if !s.calls[k].slot.Open? { SlotFinalCall(s, GuardDrop(j), k); }
  }

  lemma OutcomeOwnStep(s: State, a: Action, k: Ticket)
    requires Inv(s) && CallEnabled(s, a) && OwnPhase(a) && a.k == k
    ensures OutcomeOk(ApplyCall(s, a), k)
  {
    assert CallOk(s, k);
    if a.SendRefused? { NotYetEnqueued(s, k); }
  }

  lemma OutcomeCallStep(s: State, a: Action, k: Ticket)
    requires Inv(s) && CallEnabled(s, a) && k < |ApplyCall(s, a).calls| && (k < |s.calls| ==> OutcomeOk(s, k))
    ensures OutcomeOk(ApplyCall(s, a), k)
  {
    if a.Insert? { OutcomeInsertStep(s, a.k, k); }
    else if a.GuardDrop? { OutcomeGuardStep(s, a.k, k); }
    else if OwnPhase(a) && a.k == k { OutcomeOwnStep(s, a, k); }
    else if k < |s.calls| { OwnPhaseOnly(s, a, k); }
  }

  lemma OutcomeTaskStep(s: State, a: Action, k: Ticket)
    requires Inv(s) && TaskEnabled(s, a) && k < |s.calls| && OutcomeOk(s, k)
    ensures k < |ApplyTask(s, a).calls| && OutcomeOk(ApplyTask(s, a), k)
  {
    TasksKeepCalls(s, a);
    if !s.calls[k].slot.Open? { SlotFinalTask(s, a, k); }
  }

  lemma OutcomeStep(s: State, a: Action)
    requires Inv(s) && AllOutcomesOk(s) && Enabled(s, a)
    ensures AllOutcomesOk(Apply(s, a))
  {
    forall k | 0 <= k < |Apply(s, a).calls|
      ensures OutcomeOk(Apply(s, a), k)
    {
      if CallEnabled(s, a) {
        OutcomeCallStep(s, a, k);
      } else {
        TasksKeepCalls(s, a);
        OutcomeTaskStep(s, a, k);
      }
    }
  }

  lemma {:induction false} OutcomesRun(s: State, run: seq<Action>)
    requires Inv(s) && AllOutcomesOk(s) && Runs(s, run)
    ensures AllOutcomesOk(Final(s, run))
    decreases |run|
  {
    if run != [] {
      OutcomeStep(s, run[0]);
      InvStep(s, run[0]);
      OutcomesRun(Apply(s, run[0]), run[1..]);
    }
  }

  /** The caller of `k` has given up. */
  predicate GaveUp(s: State, k: Ticket) {
    k < |s.calls| && (s.calls[k].phase.Unwinding? || s.calls[k].phase.Done?) && s.calls[k].phase.verdict.Cancelled?
  }

  lemma GaveUpStep(s: State, a: Action, k: Ticket)
    requires Enabled(s, a)
    ensures GaveUp(Apply(s, a), k) <==> GaveUp(s, k) || a == Cancel(k)
  {
    if !CallEnabled(s, a) { TasksKeepCalls(s, a); }
    else if k >= |s.calls| { GaveUpNew(s, a, k); }
    else if a.Insert? || a.GuardDrop? { GaveUpMapStep(s, a, k); }
    else { OwnPhaseOnly(s, a, k); }
  }

  lemma GaveUpNew(s: State, a: Action, k: Ticket)
    requires CallEnabled(s, a) && k >= |s.calls|
    ensures !GaveUp(ApplyCall(s, a), k) && a != Cancel(k)
  {
    if !a.Allocate? { CallsKeepIdentity(s, a); }
  }

  lemma GaveUpMapStep(s: State, a: Action, k: Ticket)
    requires CallEnabled(s, a) && (a.Insert? || a.GuardDrop?)
    ensures GaveUp(ApplyCall(s, a), k) <==> GaveUp(s, k)
  {}

  lemma {:induction false} GaveUpIff(s: State, run: seq<Action>, k: Ticket)
    requires Runs(s, run)
    ensures GaveUp(Final(s, run), k) <==> GaveUp(s, k) || Cancel(k) in run
    decreases |run|
  {
    if run != [] {
      GaveUpStep(s, run[0], k);
      GaveUpIff(Apply(s, run[0]), run[1..], k);
    }
  }

  lemma EnqueuedStep(s: State, a: Action, k: Ticket)
    requires Enabled(s, a)
    ensures k in Apply(s, a).order <==> k in s.order || a == Enqueue(k)
  {
    if !CallEnabled(s, a) { TasksKeepCalls(s, a); }
  }

  lemma {:induction false} EnqueuedIff(s: State, run: seq<Action>, k: Ticket)
    requires Runs(s, run)
    ensures k in Final(s, run).order <==> k in s.order || Enqueue(k) in run
    decreases |run|
  {
    if run != [] {
      EnqueuedStep(s, run[0], k);
      EnqueuedIff(Apply(s, run[0]), run[1..], k);
    }
  }

  /** The outcome of every finished call, over every run: cancelled if and only if its caller gave up;
      else, if its request was enqueued, what its one-shot resolved to; else `Closed`. */
  lemma OutcomeExactly(run: seq<Action>, k: Ticket)
    requires Runs(Init, run) && k < |Final(Init, run).calls| && Final(Init, run).calls[k].phase.Done?
    ensures var c := Final(Init, run).calls[k];
      var verdict := c.phase.verdict;
      && (verdict.Cancelled? <==> Cancel(k) in run)
      && (verdict.Returned? && Enqueue(k) in run ==> Answers(c.slot, verdict.result))
      && (verdict.Returned? && Enqueue(k) !in run ==> verdict.result == Err(Closed))
  {
    InitInv();
    OutcomesRun(Init, run);
    GaveUpIff(Init, run, k);
    EnqueuedIff(Init, run, k);
    assert OutcomeOk(Final(Init, run), k);
  }

  /** So `Closed` after enqueueing means that the sender was dropped: a reply that was delivered is never
      turned into `Closed`. */
  lemma ClosedMeansDropped(run: seq<Action>, k: Ticket)
    requires Runs(Init, run) && k < |Final(Init, run).calls| && Enqueue(k) in run
    requires Final(Init, run).calls[k].phase == Done(Returned(Err(Closed)))
    ensures Final(Init, run).calls[k].slot == SenderDropped
  {
    OutcomeExactly(run, k);
    Reachable(run);
    if Final(Init, run).calls[k].slot.Fired? {
      FiredValueIsOwnReply(Final(Init, run), k);
    }
  }

  // ----- delivery -----

  /** A Response or Error under a parked call's id: its sender is taken out of the map. */
  lemma TakeFinds(s: State, e: Envelope, k: Ticket)
    requires s.reader == RGot(e) && (e.Response? || e.Error?) && k < |s.calls| && InMap(s, k) && e.id == s.calls[k].id
    ensures Apply(s, ReaderTake) == s.(reader := RHolding(k, e), pending := s.pending - {e.id})
  {}

  /** Any other frame changes nothing. */
  lemma TakeIgnores(s: State, e: Envelope)
    requires s.reader == RGot(e) && (e.Request? || e.Heartbeat? || e.id !in s.pending)
    ensures Apply(s, ReaderTake) == s.(reader := RIdle)
  {}

  /** A sender in hand is fired with the frame if its caller still waits. */
  lemma FireDelivers(s: State, e: Envelope, k: Ticket)
    requires s.reader == RHolding(k, e) && k < |s.calls|
    ensures var t := Apply(s, ReaderFire);
      && t == s.(reader := RIdle, calls := t.calls) && |t.calls| == |s.calls|
      && (forall j :: 0 <= j < |s.calls| && j != k ==> t.calls[j] == s.calls[j])
      && (s.calls[k].phase.Inserted? || s.calls[k].phase.Parked? ==> t.calls[k] == s.calls[k].(slot := Fired(e)))
  {}

  // ----- how calls enter -----

  /** A closed connection takes no call. */
  lemma ClosedRefuses(s: State, args: Args)
    requires Enabled(s, Check(args))
    ensures s.cancelled ==> Apply(s, Check(args)) == s
    ensures !s.cancelled ==> Apply(s, Check(args)) == s.(entering := s.entering + multiset{args})
  {}

  function ArgsOf(calls: seq<Call>): (r: seq<Args>)
    ensures |r| == |calls| && forall i :: 0 <= i < |r| ==> r[i] == calls[i].args
  { seq(|calls|, i requires 0 <= i < |calls| => calls[i].args) }

  /** The arguments of all calls past the token check. */
  function Entered(s: State): multiset<Args> { multiset(ArgsOf(s.calls)) + s.entering }

  /** The arguments of the calls that found the token live in this run. */
  function Accepted(s: State, run: seq<Action>): multiset<Args>
    requires Runs(s, run)
    decreases |run|
  {
    if run == [] then multiset{}
    else (if run[0].Check? && !s.cancelled then multiset{run[0].args} else multiset{})
         + Accepted(Apply(s, run[0]), run[1..])
  }

  lemma EnteredAllocate(s: State, args: Args)
    requires args in s.entering
    ensures Entered(DoAllocate(s, args)) == Entered(s)
  {
    assert ArgsOf(DoAllocate(s, args).calls) == ArgsOf(s.calls) + [args];
    assert s.entering == (s.entering - multiset{args}) + multiset{args};
  }

  lemma EnteredKept(s: State, a: Action)
    requires Enabled(s, a) && !a.Check? && !a.Allocate?
    ensures Entered(Apply(s, a)) == Entered(s)
  {
    if CallEnabled(s, a) { CallsKeepIdentity(s, a); } else { TasksKeepCalls(s, a); }
    assert ArgsOf(Apply(s, a).calls) == ArgsOf(s.calls);
    EnteringKept(s, a);
  }

  lemma EnteringKept(s: State, a: Action)
    requires Enabled(s, a) && !a.Check? && !a.Allocate?
    ensures Apply(s, a).entering == s.entering
  {}

  lemma EnteredStep(s: State, a: Action)
    requires Enabled(s, a)
    ensures Entered(Apply(s, a)) == Entered(s) + if a.Check? && !s.cancelled then multiset{a.args} else multiset{}
  {
    if a.Check? { ClosedRefuses(s, a.args); }
    else if a.Allocate? { EnteredAllocate(s, a.args); }
    else { EnteredKept(s, a); }
  }

  /** Every call that found the token live, and no other, becomes one call with its own method and
      payload; none is lost, doubled or altered on the way in. */
  lemma {:induction false} CallsEnterAsMade(s: State, run: seq<Action>)
    requires Runs(s, run)
    ensures Entered(Final(s, run)) == Entered(s) + Accepted(s, run)
    decreases |run|
  {
    if run != [] {
      EnteredStep(s, run[0]);
      CallsEnterAsMade(Apply(s, run[0]), run[1..]);
    }
  }

  /** Once the connection is closed no call enters any more. */
  lemma {:induction false} ClosedAcceptsNone(s: State, run: seq<Action>)
    requires Runs(s, run) && s.cancelled
    ensures Accepted(s, run) == multiset{}
    decreases |run|
  {
    if run != [] {
      CancelIsForever(s, run[0]);
      ClosedAcceptsNone(Apply(s, run[0]), run[1..]);
    }
  }

  /** The request on the queue is the call's own. */
  lemma EnqueuesOwnRequest(s: State, k: Ticket)
    requires Enabled(s, Enqueue(k))
    ensures var c := s.calls[k];
      Apply(s, Enqueue(k)).queue == s.queue + [Request(RequestData(c.id, c.args.methodName, c.args.payload))]
  {}

  // ----- what can happen at each wait -----

  /** A call may start while some caller holds the client, and the client is dropped only when no call
      borrows it; that ends the queue's senders and nothing else. */
  lemma StepsOfEntry(s: State, args: Args)
    ensures Enabled(s, Check(args)) <==> s.alive
    ensures Enabled(s, Allocate(args)) <==> args in s.entering
    ensures Enabled(s, DropClient) <==>
      s.alive && s.entering == multiset{} && forall k :: 0 <= k < |s.calls| ==> s.calls[k].phase.Done?
    ensures Enabled(s, DropClient) ==> Apply(s, DropClient) == s.(alive := false)
  {}

  /** A send waits for a slot exactly while 128 requests are queued, and is refused exactly when the
      receiver is gone; a wait on the one-shot ends exactly when it is resolved; both can be cancelled. */
  lemma StepsOfCall(s: State, k: Ticket)
    requires k < |s.calls|
    ensures var phase := s.calls[k].phase;
      && (Enabled(s, Insert(k)) <==> phase.Allocated?)
      && (Enabled(s, Enqueue(k)) <==> phase.Inserted? && |s.queue| < 128 && !s.writer.WGone?)
      && (Enabled(s, SendRefused(k)) <==> phase.Inserted? && s.writer.WGone?)
      && (Enabled(s, Resume(k)) <==> phase.Parked? && s.calls[k].slot != Open)
      && (Enabled(s, Cancel(k)) <==> phase.Inserted? || phase.Parked?)
      && (Enabled(s, GuardDrop(k)) <==> phase.Unwinding?)
  {}

  /** The writer's `select!` is unbiased: with the token cancelled it may still take a queued request.
      During a send it sees nothing else. */
  lemma StepsOfWriter(s: State)
    ensures Enabled(s, WriterRecv) <==> s.writer == WIdle && s.queue != []
    ensures Enabled(s, WriterSeesCancel) <==> s.writer == WIdle && s.cancelled
    ensures Enabled(s, WriterSeesEnd) <==> s.writer == WIdle && s.queue == [] && !s.alive
    ensures Enabled(s, WriterPut) <==> s.writer.WSending?
    ensures Enabled(s, WriterFail) <==> s.writer.WSending?
  {}

  /** So is the reader's: with the token cancelled it may still take a frame, the end of the stream or a
      decode error. */
  lemma StepsOfReader(s: State, e: Envelope)
    ensures Enabled(s, ReaderFrame(e)) <==> s.reader == RIdle
    ensures Enabled(s, ReaderEnd) <==> s.reader == RIdle
    ensures Enabled(s, ReaderSeesCancel) <==> s.reader == RIdle && s.cancelled
    ensures Enabled(s, ReaderDrain) <==> s.reader == RCancelled
  {}

  lemma AnswerArrives(s: State, k: Ticket, payload: seq<byte>) returns (run: seq<Action>)
    requires Inv(s) && s.reader.RIdle? && !s.cancelled && k < |s.calls|
    requires s.calls[k].phase.Parked? && InMap(s, k)
    ensures var e := Response(s.calls[k].id, payload);
      && run == [ReaderFrame(e), ReaderTake, ReaderFire] && Runs(s, run)
      && Final(s, run).reader.RIdle? && k < |Final(s, run).calls|
      && Final(s, run).calls[k] == s.calls[k].(slot := Fired(e))
  {
    var e := Response(s.calls[k].id, payload);
    run := ExtendTask(s, [], ReaderFrame(e));
    run := ExtendTask(s, run, ReaderTake);
    assert Final(s, run).reader == RHolding(k, e);
    run := ExtendTask(s, run, ReaderFire);
    assert run == [ReaderFrame(e), ReaderTake, ReaderFire];
  }

  /** A peer that answers and then closes: the caller resumes after the token was cancelled, and still
      gets the answer. */
  lemma AnswerThenClose(s: State, k: Ticket, payload: seq<byte>)
    requires Inv(s) && s.reader.RIdle? && !s.cancelled && k < |s.calls|
    requires s.calls[k].phase.Parked? && InMap(s, k)
    ensures var e := Response(s.calls[k].id, payload);
      var run := [ReaderFrame(e), ReaderTake, ReaderFire, ReaderEnd, ReaderCancel, Resume(k)];
      && Runs(s, run) && Final(s, run).cancelled && k < |Final(s, run).calls|
      && Final(s, run).calls[k].phase == Done(Returned(Ok(payload)))
  {
    var e := Response(s.calls[k].id, payload);
    var run := AnswerArrives(s, k, payload);
    run := ExtendTask(s, run, ReaderEnd);
    run := ExtendTask(s, run, ReaderCancel);
    run := Extend(s, run, Resume(k));
    assert run == [ReaderFrame(e), ReaderTake, ReaderFire, ReaderEnd, ReaderCancel, Resume(k)];
  }
}
