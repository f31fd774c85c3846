/** What the client multiplexer guarantees in every reachable state, against any peer. */
module ClientTheorems {
  import opened Primitives
  import opened Errors
  import opened ClientMux
  import opened ClientInvariant

  // ----- ownership of one-shot senders -----

  /** A map entry always belongs to a live call: nothing leaks once the calls are done. */
  lemma MapEntriesAreLive(s: State)
    requires Inv(s)
    ensures forall id :: id in s.pending ==> s.pending[id] < |s.calls| && !s.calls[s.pending[id]].phase.Done?
    ensures AllDone(s) ==> s.pending == map[]
  {
    forall id | id in s.pending
      ensures s.pending[id] < |s.calls| && !s.calls[s.pending[id]].phase.Done?
    {
      assert CallOk(s, s.pending[id]);
    }
  }

  /** When the one-shot resolves, the entry is already out of the map, so disarming the guard is sound. */
  lemma DisarmIsSound(s: State, k: Ticket)
    requires Inv(s) && Enabled(s, Resume(k))
    ensures !InMap(s, k) && !InHand(s, k) && !InVector(s, k)
    ensures InWindow(s) ==> s.calls[k].id !in s.pending
  {
    assert SenderPlaces(s, k) == 1;
    if InWindow(s) && s.calls[k].id in s.pending {
      OwnEntryOnly(s, k);
    }
  }

  lemma SlotFinalCall(s: State, a: Action, k: Ticket)
    requires SendersOk(s) && CallEnabled(s, a) && k < |s.calls| && !s.calls[k].slot.Open?
    ensures k < |ApplyCall(s, a).calls| && ApplyCall(s, a).calls[k].slot == s.calls[k].slot
  {
    assert SenderPlaces(s, k) == 1;
  }

  lemma SlotFinalTask(s: State, a: Action, k: Ticket)
    requires SendersOk(s) && TaskEnabled(s, a) && k < |s.calls| && !s.calls[k].slot.Open?
    ensures k < |ApplyTask(s, a).calls| && ApplyTask(s, a).calls[k].slot == s.calls[k].slot
  {
    assert SenderPlaces(s, k) == 1;
  }

  /** A one-shot is used at most once: whatever happens later, its value stays. */
  lemma SlotIsFinal(s: State, a: Action, k: Ticket)
    requires SendersOk(s) && Enabled(s, a) && k < |s.calls| && !s.calls[k].slot.Open?
    ensures k < |Apply(s, a).calls| && Apply(s, a).calls[k].slot == s.calls[k].slot
  {
    if CallEnabled(s, a) { SlotFinalCall(s, a, k); } else { SlotFinalTask(s, a, k); }
  }

  lemma {:induction false} SlotIsFinalOverRuns(s: State, run: seq<Action>, k: Ticket)
    requires Inv(s) && Runs(s, run) && k < |s.calls| && !s.calls[k].slot.Open?
    ensures k < |Final(s, run).calls| && Final(s, run).calls[k].slot == s.calls[k].slot
    decreases |run|
  {
    if run != [] {
      SlotIsFinal(s, run[0], k);
      InvStep(s, run[0]);
      SlotIsFinalOverRuns(Apply(s, run[0]), run[1..], k);
    }
  }

  /** A value that reaches a caller is a Response or Error that arrived on the wire under the caller's
      own id, so the catch-all arm of `call()` is unreachable. */
  lemma FiredValueIsOwnReply(s: State, k: Ticket)
    requires Inv(s) && k < |s.calls| && s.calls[k].slot.Fired?
    ensures var e := s.calls[k].slot.env;
      (e.Response? || e.Error?) && e.id == s.calls[k].id && e in s.received
  {
    assert CallOk(s, k);
  }

  // ----- id freshness under wrap-around -----

  /** No live call is 2^64 or more allocations old. */
  predicate InWindow(s: State) {
    forall k :: 0 <= k < |s.calls| && !s.calls[k].phase.Done? ==> |s.calls| - k <= U64_LIMIT
  }

  /** Two calls share an id exactly when a multiple of 2^64 allocations lies between them. */
  lemma SameIdIff(s: State, j: Ticket, k: Ticket)
    requires IdsOk(s) && j <= k < |s.calls|
    ensures s.calls[j].id == s.calls[k].id <==> (k - j) % U64_LIMIT == 0
  {
    SameRemainder(j, k);
    assert s.calls[j].id == j % U64_LIMIT;
    assert s.calls[k].id == k % U64_LIMIT;
  }

  lemma NearIdsDiffer(s: State, j: Ticket, k: Ticket)
    requires IdsOk(s) && j < k < |s.calls| && k - j < U64_LIMIT
    ensures s.calls[j].id != s.calls[k].id
  {
    SameIdIff(s, j, k);
  }

  /** Inside the window, the entry under a live call's id can only be that call's own. */
  lemma OwnEntryOnly(s: State, k: Ticket)
    requires Inv(s) && InWindow(s) && k < |s.calls| && !s.calls[k].phase.Done?
    ensures s.calls[k].id in s.pending ==> s.pending[s.calls[k].id] == k
  {
    if s.calls[k].id in s.pending {
      var j := s.pending[s.calls[k].id];
      MapEntriesAreLive(s);
      if j < k { NearIdsDiffer(s, j, k); } else if k < j { NearIdsDiffer(s, k, j); }
    }
  }

  /** `insert` never overwrites a live entry, and an armed guard never removes another call's. */
  lemma IdsAreFresh(s: State, k: Ticket)
    requires Inv(s) && InWindow(s)
    ensures Enabled(s, Insert(k)) ==> s.calls[k].id !in s.pending
    ensures Enabled(s, GuardDrop(k)) && s.calls[k].id in s.pending ==> s.pending[s.calls[k].id] == k
  {
    if Enabled(s, Insert(k)) {
      OwnEntryOnly(s, k);
      assert SenderPlaces(s, k) == 1;
    } else if Enabled(s, GuardDrop(k)) {
      OwnEntryOnly(s, k);
    }
  }

  lemma SameIdEitherWay(s: State, j: Ticket, k: Ticket)
    requires IdsOk(s) && j < |s.calls| && k < |s.calls|
    ensures s.calls[j].id == s.calls[k].id <==> (k - j) % U64_LIMIT == 0
  {
    if j <= k { SameIdIff(s, j, k); } else { SameIdIff(s, k, j); }
  }

  lemma InsertDropsOnly(s: State, j: Ticket, k: Ticket)
    requires SendersOk(s) && CallEnabled(s, Insert(k)) && j < |s.calls| && j != k
    ensures DoInsert(s, k).calls[j] != s.calls[j] <==> InMap(s, j) && s.calls[j].id == s.calls[k].id
  {
    assert SenderPlaces(s, j) == 1;
  }

  /** In general, an insert overwrites exactly when an older or newer parked sender is a non-zero multiple
      of 2^64 allocations away, and then precisely that sender is dropped. */
  lemma OverwriteIff(s: State, k: Ticket)
    requires Inv(s) && Enabled(s, Insert(k))
    ensures s.calls[k].id in s.pending
       <==> exists j :: 0 <= j < |s.calls| && j != k && InMap(s, j) && (k - j) % U64_LIMIT == 0
    ensures forall j :: 0 <= j < |s.calls| && j != k ==>
      (Apply(s, Insert(k)).calls[j] != s.calls[j] <==> InMap(s, j) && (k - j) % U64_LIMIT == 0)
  {
    assert SenderPlaces(s, k) == 1;
    if s.calls[k].id in s.pending {
      var j := s.pending[s.calls[k].id];
      assert InMap(s, j);
      SameIdEitherWay(s, j, k);
    }
    forall j | 0 <= j < |s.calls| && j != k
      ensures InMap(s, j) && (k - j) % U64_LIMIT == 0 ==> s.calls[k].id in s.pending
      ensures Apply(s, Insert(k)).calls[j] != s.calls[j] <==> InMap(s, j) && (k - j) % U64_LIMIT == 0
    {
      SameIdEitherWay(s, j, k);
      InsertDropsOnly(s, j, k);
    }
  }

  // ----- disconnect -----

  /** Fewer than 2^64 calls in all. */
  predicate FewCalls(s: State) { |s.calls| <= U64_LIMIT }

  lemma FewCallsWindow(s: State)
    requires FewCalls(s)
    ensures InWindow(s)
  {}

  /** Every call whose insert precedes the drain is woken: once the reader is gone its one-shot has
      resolved, so a caller waiting on it can proceed. */
  lemma InsertBeforeDrainResolves(s: State, k: Ticket)
    requires Inv(s) && s.reader.RGone? && k < |s.calls| && !s.calls[k].phase.Allocated? && !s.calls[k].late
    ensures !s.calls[k].slot.Open?
    ensures s.calls[k].phase.Parked? ==> Enabled(s, Resume(k))
  {
    assert SenderPlaces(s, k) == 1 && CallOk(s, k);
  }

  /** A late insert always happens under an already cancelled token, so `is_closed()` would have told
      the caller; an insert made while the token is live is never late, then or afterwards. */
  lemma LateInsertSawClosedToken(s: State, k: Ticket)
    requires Inv(s) && Enabled(s, Insert(k))
    ensures Apply(s, Insert(k)).calls[k].late <==> Drained(s)
    ensures !s.cancelled ==> !Apply(s, Insert(k)).calls[k].late
  {}

  lemma LatenessIsFixedAtInsert(s: State, a: Action, k: Ticket)
    requires Enabled(s, a) && k < |s.calls| && !s.calls[k].phase.Allocated?
    ensures k < |Apply(s, a).calls| && Apply(s, a).calls[k].late == s.calls[k].late
  {
    if !CallEnabled(s, a) { TasksKeepCalls(s, a); }
  }

  /** A late sender stays in the map until its own guard removes it, and only a refused send makes a
      late call return. */
  predicate LateOk(s: State, k: Ticket)
    requires k < |s.calls|
  {
    var c := s.calls[k];
    c.late ==>
      && (Waiting(c) || c.phase.Unwinding? ==> InMap(s, k))
      && ((c.phase.Unwinding? || c.phase.Done?) && c.phase.verdict.Returned? ==> k !in s.order)
  }

  predicate AllLateOk(s: State) { forall k :: 0 <= k < |s.calls| ==> LateOk(s, k) }

  /** Inside the window, an insert changes no call but its own, which ends up in the map. */
  lemma InsertOwnOnly(s: State, j: Ticket, k: Ticket)
    requires Inv(s) && FewCalls(s) && CallEnabled(s, Insert(j)) && k < |s.calls|
    ensures var t := DoInsert(s, j);
      && (InMap(t, k) <==> k == j || InMap(s, k))
      && t.calls[k] == if k == j then s.calls[k].(phase := Inserted, late := Drained(s)) else s.calls[k]
  {
    FewCallsWindow(s);
    IdsAreFresh(s, j);
    assert s.calls[k].id == s.calls[j].id ==> k == j;
  }

  /** Likewise a guard drop, which takes its own call's sender, if still there, out of the map. */
  lemma GuardDropOwnOnly(s: State, j: Ticket, k: Ticket)
    requires Inv(s) && FewCalls(s) && CallEnabled(s, GuardDrop(j)) && k < |s.calls|
    ensures var t := DoGuardDrop(s, j);
      && (InMap(t, k) <==> k != j && InMap(s, k))
      && (k != j ==> t.calls[k] == s.calls[k])
      && (k == j ==> t.calls[k].phase == Done(s.calls[k].phase.verdict) && t.calls[k].late == s.calls[k].late)
  {
    FewCallsWindow(s);
    IdsAreFresh(s, j);
    assert s.calls[k].id == s.calls[j].id ==> k == j;
  }

  lemma LateMapStep(s: State, a: Action, k: Ticket)
    requires Inv(s) && FewCalls(s) && CallEnabled(s, a) && k < |s.calls| && LateOk(s, k)
    requires a.Insert? || a.GuardDrop?
    ensures LateOk(ApplyCall(s, a), k)
  {
    if a.Insert? { InsertOwnOnly(s, a.k, k); } else { GuardDropOwnOnly(s, a.k, k); }
  }

  /** The steps of a call between its insert and its guard's drop. */
  predicate OwnPhase(a: Action) { a.Enqueue? || a.SendRefused? || a.Resume? || a.Cancel? }

  /** They move that call on and nothing else; the other steps leave the calls there are alone. */
  lemma OwnPhaseOnly(s: State, a: Action, k: Ticket)
    requires CallEnabled(s, a) && !a.Insert? && !a.GuardDrop? && k < |s.calls|
    ensures var t := ApplyCall(s, a);
      && k < |t.calls| && t.pending == s.pending && t.cancelled == s.cancelled
      && (if OwnPhase(a) && a.k == k then t.calls[k] == s.calls[k].(phase := t.calls[k].phase)
          else t.calls[k] == s.calls[k] && (k in t.order <==> k in s.order))
  {}

  lemma LateOwnStep(s: State, a: Action, k: Ticket)
    requires Inv(s) && CallEnabled(s, a) && OwnPhase(a) && a.k == k && LateOk(s, k)
    ensures LateOk(ApplyCall(s, a), k)
  {
    assert SenderPlaces(s, k) == 1 && CallOk(s, k);
  }

  lemma LateCallStep(s: State, a: Action, k: Ticket)
    requires Inv(s) && CallEnabled(s, a) && !a.Insert? && !a.GuardDrop?
    requires k < |ApplyCall(s, a).calls| && (k < |s.calls| ==> LateOk(s, k))
    ensures LateOk(ApplyCall(s, a), k)
  {
    if OwnPhase(a) && a.k == k { LateOwnStep(s, a, k); }
    else if k < |s.calls| { OwnPhaseOnly(s, a, k); }
  }

  lemma LateTaskStep(s: State, a: Action, k: Ticket)
    requires Inv(s) && AllLateOk(s) && TaskEnabled(s, a) && k < |s.calls|
    ensures LateOk(ApplyTask(s, a), k)
  {
    assert CallOk(s, k) && LateOk(s, k);
  }

  lemma LateStep(s: State, a: Action)
    requires Inv(s) && AllLateOk(s) && FewCalls(s) && Enabled(s, a)
    ensures AllLateOk(Apply(s, a))
  {
    forall k | 0 <= k < |Apply(s, a).calls|
      ensures LateOk(Apply(s, a), k)
    {
      if !CallEnabled(s, a) { LateTaskStep(s, a, k); }
      else if a.Insert? || a.GuardDrop? { LateMapStep(s, a, k); }
      else { LateCallStep(s, a, k); }
    }
  }

  lemma CallsGrow(s: State, a: Action)
    requires Enabled(s, a)
    ensures |s.calls| <= |Apply(s, a).calls|
  {
    if !CallEnabled(s, a) { TasksKeepCalls(s, a); }
    else if !a.Allocate? { CallsKeepIdentity(s, a); }
  }

  lemma {:induction false} CallsGrowOverRuns(s: State, run: seq<Action>)
    requires Runs(s, run)
    ensures |s.calls| <= |Final(s, run).calls|
    decreases |run|
  {
    if run != [] {
      CallsGrow(s, run[0]);
      CallsGrowOverRuns(Apply(s, run[0]), run[1..]);
    }
  }

  lemma {:induction false} LateRun(s: State, run: seq<Action>)
    requires Inv(s) && AllLateOk(s) && Runs(s, run) && FewCalls(Final(s, run))
    ensures AllLateOk(Final(s, run))
    decreases |run|
  {
    if run != [] {
      CallsGrow(s, run[0]);
      CallsGrowOverRuns(Apply(s, run[0]), run[1..]);
      InvStep(s, run[0]);
      LateStep(s, run[0]);
      LateRun(Apply(s, run[0]), run[1..]);
    }
  }

  /** A one-shot dropped under a waiting caller, or a `Closed` result, implies a cancelled token. */
  predicate ClosedOk(s: State, k: Ticket)
    requires k < |s.calls|
  {
    var c := s.calls[k];
    && (Waiting(c) && c.slot.SenderDropped? ==> s.cancelled)
    && ((c.phase.Unwinding? || c.phase.Done?) && c.phase.verdict == Returned(Err(Closed)) ==> s.cancelled)
  }

  predicate AllClosedOk(s: State) { forall k :: 0 <= k < |s.calls| ==> ClosedOk(s, k) }

  lemma ClosedMapStep(s: State, a: Action, k: Ticket)
    requires Inv(s) && FewCalls(s) && CallEnabled(s, a) && k < |s.calls| && ClosedOk(s, k)
    requires a.Insert? || a.GuardDrop?
    ensures ClosedOk(ApplyCall(s, a), k)
  {
    assert SenderPlaces(s, k) == 1;
    if a.Insert? { InsertOwnOnly(s, a.k, k); } else { GuardDropOwnOnly(s, a.k, k); }
  }

  lemma ClosedOwnStep(s: State, a: Action, k: Ticket)
    requires Inv(s) && CallEnabled(s, a) && OwnPhase(a) && a.k == k && ClosedOk(s, k)
    ensures ClosedOk(ApplyCall(s, a), k)
  {
    assert SenderPlaces(s, k) == 1 && CallOk(s, k);
  }

  lemma ClosedCallStep(s: State, a: Action, k: Ticket)
    requires Inv(s) && CallEnabled(s, a) && !a.Insert? && !a.GuardDrop?
    requires k < |ApplyCall(s, a).calls| && (k < |s.calls| ==> ClosedOk(s, k))
    ensures ClosedOk(ApplyCall(s, a), k)
  {
    if OwnPhase(a) && a.k == k { ClosedOwnStep(s, a, k); }
    else if k < |s.calls| { OwnPhaseOnly(s, a, k); }
  }

  lemma ClosedTaskStep(s: State, a: Action, k: Ticket)
    requires Inv(s) && TaskEnabled(s, a) && k < |s.calls| && ClosedOk(s, k)
    ensures ClosedOk(ApplyTask(s, a), k)
  {}

  lemma ClosedStep(s: State, a: Action)
    requires Inv(s) && AllClosedOk(s) && FewCalls(s) && Enabled(s, a)
    ensures AllClosedOk(Apply(s, a))
  {
    forall k | 0 <= k < |Apply(s, a).calls|
      ensures ClosedOk(Apply(s, a), k)
    {
      if !CallEnabled(s, a) { ClosedTaskStep(s, a, k); }
      else if a.Insert? || a.GuardDrop? { ClosedMapStep(s, a, k); }
      else { ClosedCallStep(s, a, k); }
    }
  }

  lemma {:induction false} ClosedRun(s: State, run: seq<Action>)
    requires Inv(s) && AllClosedOk(s) && Runs(s, run) && FewCalls(Final(s, run))
    ensures AllClosedOk(Final(s, run))
    decreases |run|
  {
    if run != [] {
      CallsGrow(s, run[0]);
      CallsGrowOverRuns(Apply(s, run[0]), run[1..]);
      InvStep(s, run[0]);
      ClosedStep(s, run[0]);
      ClosedRun(Apply(s, run[0]), run[1..]);
    }
  }

  /** In any run, no call reports `Closed`, and no waiting caller loses its sender, before the token is
      cancelled. */
  lemma ClosedOnlyWhenCancelled(run: seq<Action>, k: Ticket)
    requires Runs(Init, run)
    requires FewCalls(Final(Init, run)) && k < |Final(Init, run).calls| && !Final(Init, run).cancelled
    ensures var c := Final(Init, run).calls[k];
      && (c.phase.Done? ==> c.phase.verdict != Returned(Err(Closed)))
      && (Waiting(c) ==> !c.slot.SenderDropped?)
  {
    InitInv();
    ClosedRun(Init, run);
    assert ClosedOk(Final(Init, run), k);
  }

  /** Disconnect wake-up, exactly: in any reachable state with the reader gone, a caller waiting on its
      one-shot is stuck if and only if its insert came after the drain. */
  lemma WokenUnlessLate(run: seq<Action>, k: Ticket)
    requires Runs(Init, run)
    requires var s := Final(Init, run);
      FewCalls(s) && s.reader.RGone? && k < |s.calls| && s.calls[k].phase.Parked?
    ensures var s := Final(Init, run); s.calls[k].slot.Open? <==> s.calls[k].late
  {
    var s := Final(Init, run);
    Reachable(run);
    LateRun(Init, run);
    assert SenderPlaces(s, k) == 1 && CallOk(s, k) && LateOk(s, k);
  }

  /** Both tasks have exited and no call can take a step by itself. */
  predicate Settled(s: State) {
    && s.writer.WGone? && s.reader.RGone? && s.entering == multiset{}
    && forall k :: 0 <= k < |s.calls| ==> s.calls[k].phase.Done? || (s.calls[k].phase.Parked? && s.calls[k].slot.Open?)
  }

  lemma SettledCall(s: State, k: Ticket)
    requires Inv(s) && AllLateOk(s) && Settled(s) && k < |s.calls|
    ensures s.calls[k].phase.Parked? <==> InMap(s, k)
    ensures s.calls[k].phase.Parked? <==> s.calls[k].late && k in s.order && s.calls[k].phase != Done(Cancelled)
  {
    assert SenderPlaces(s, k) == 1 && CallOk(s, k) && LateOk(s, k);
  }

  /** Once everything has settled, the calls still parked, and the map's remaining entries, are exactly
      the uncancelled calls that inserted after the drain and were enqueued before the writer dropped
      its receiver. */
  lemma StrandedCallsExactly(run: seq<Action>, k: Ticket)
    requires Runs(Init, run)
    requires var s := Final(Init, run); FewCalls(s) && Settled(s) && k < |s.calls|
    ensures var s := Final(Init, run);
      && (s.calls[k].phase.Parked? <==> s.calls[k].late && k in s.order && s.calls[k].phase != Done(Cancelled))
      && (s.calls[k].phase.Parked? <==> InMap(s, k))
  {
    Reachable(run);
    LateRun(Init, run);
    SettledCall(Final(Init, run), k);
  }

  predicate Stranded(s: State, k: Ticket) {
    s.reader.RGone? && k < |s.calls| && s.calls[k].phase.Parked? && s.calls[k].slot.Open?
  }

  lemma StrandedCallStep(s: State, a: Action, k: Ticket)
    requires CallEnabled(s, a) && a != Cancel(k) && !a.Insert? && !a.GuardDrop? && Stranded(s, k)
    ensures Stranded(ApplyCall(s, a), k)
  {}

  lemma StrandedTaskStep(s: State, a: Action, k: Ticket)
    requires TaskEnabled(s, a) && Stranded(s, k)
    ensures Stranded(ApplyTask(s, a), k)
  {
    TasksKeepCalls(s, a);
  }

  /** A stranded call stays stranded whatever else happens, until its own caller gives up. */
  lemma StrandedStep(s: State, a: Action, k: Ticket)
    requires Inv(s) && FewCalls(s) && Enabled(s, a) && a != Cancel(k) && Stranded(s, k)
    ensures Stranded(Apply(s, a), k)
  {
    if a.Insert? { InsertOwnOnly(s, a.k, k); }
    else if a.GuardDrop? { GuardDropOwnOnly(s, a.k, k); }
    else if CallEnabled(s, a) { StrandedCallStep(s, a, k); }
    else { StrandedTaskStep(s, a, k); }
  }

  lemma {:induction false} StrandedForever(s: State, run: seq<Action>, k: Ticket)
    requires Inv(s) && Runs(s, run) && FewCalls(Final(s, run)) && Cancel(k) !in run && Stranded(s, k)
    ensures Stranded(Final(s, run), k)
    decreases |run|
  {
    if run != [] {
      CallsGrow(s, run[0]);
      CallsGrowOverRuns(Apply(s, run[0]), run[1..]);
      InvStep(s, run[0]);
      StrandedStep(s, run[0], k);
      StrandedForever(Apply(s, run[0]), run[1..], k);
    }
  }

  lemma {:induction false} Extend(s: State, run: seq<Action>, a: Action) returns (longer: seq<Action>)
    requires Runs(s, run) && Enabled(Final(s, run), a)
    ensures longer == run + [a] && Runs(s, longer) && Final(s, longer) == Apply(Final(s, run), a)
    decreases |run|
  {
    longer := run + [a];
    if run == [] {
      assert longer[1..] == [];
    } else {
      var rest := Extend(Apply(s, run[0]), run[1..], a);
      assert longer[1..] == rest;
    }
  }

  lemma ExtendTask(s: State, run: seq<Action>, a: Action) returns (longer: seq<Action>)
    requires Runs(s, run) && TaskEnabled(Final(s, run), a)
    ensures longer == run + [a] && Runs(s, longer) && Final(s, longer) == ApplyTask(Final(s, run), a)
  {
    TaskApply(Final(s, run), a);
    longer := Extend(s, run, a);
  }

  /** A caller passes the token check; then the peer closes and the reader cancels the token. */
  lemma PeerCloses(args: Args) returns (run: seq<Action>)
    ensures Runs(Init, run)
    ensures Final(Init, run) == Init.(entering := multiset{args}, cancelled := true, reader := RCancelled)
  {
    run := Extend(Init, [], Check(args));
    run := ExtendTask(Init, run, ReaderEnd);
    run := ExtendTask(Init, run, ReaderCancel);
  }

  /** The reader drains an empty map and exits. */
  lemma ReaderDiesFirst(args: Args) returns (run: seq<Action>)
    ensures Runs(Init, run)
    ensures Final(Init, run) == Init.(entering := multiset{args}, cancelled := true, reader := RGone)
  {
    run := PeerCloses(args);
    run := ExtendTask(Init, run, ReaderDrain);
    run := ExtendTask(Init, run, ReaderExit);
  }

  function LateCall(args: Args): Call { Call(0, args, Parked, Open, true) }

  /** Then it takes an id and inserts. */
  lemma CallerInsertsLate(args: Args, before: seq<Action>) returns (run: seq<Action>)
    requires Runs(Init, before)
    requires Final(Init, before) == Init.(entering := multiset{args}, cancelled := true, reader := RGone)
    ensures Runs(Init, run)
    ensures Final(Init, run) == Init.(nextId := 1, calls := [LateCall(args).(phase := Inserted)], cancelled := true,
              reader := RGone, pending := map[0 := 0])
  {
    run := Extend(Init, before, Allocate(args));
    assert Final(Init, run) == Init.(nextId := 1, calls := [Call(0, args, Allocated, Open, false)],
                                     cancelled := true, reader := RGone);
    run := Extend(Init, run, Insert(0));
    assert Final(Init, run).calls == [LateCall(args).(phase := Inserted)];
  }

  /** And it enqueues before the writer notices. */
  lemma CallerEntersLate(args: Args, before: seq<Action>) returns (run: seq<Action>)
    requires Runs(Init, before)
    requires Final(Init, before) == Init.(entering := multiset{args}, cancelled := true, reader := RGone)
    ensures Runs(Init, run)
    ensures Final(Init, run) == Init.(nextId := 1, calls := [LateCall(args)], cancelled := true, reader := RGone,
              pending := map[0 := 0], queue := [RequestOf(LateCall(args))],
              submitted := [RequestOf(LateCall(args))], order := [0])
  {
    run := CallerInsertsLate(args, before);
    run := Extend(Init, run, Enqueue(0));
  }

  /** The window is real: some run strands a caller with both tasks gone. */
  lemma StrandedWitness(args: Args) returns (run: seq<Action>)
    ensures Runs(Init, run)
    ensures var t := Final(Init, run);
      Settled(t) && |t.calls| == 1 && t.calls[0].phase.Parked? && t.calls[0].late && t.cancelled
  {
    run := ReaderDiesFirst(args);
    run := CallerEntersLate(args, run);
    run := ExtendTask(Init, run, WriterSeesCancel);
    run := ExtendTask(Init, run, WriterCancel);
    run := ExtendTask(Init, run, WriterDrop);
  }

  // ----- teardown -----

  /** One half has left its loop, or the token is already cancelled. */
  predicate TearingDown(s: State) {
    s.cancelled || s.writer.WLeaving? || s.reader.RLeaving?
  }

  predicate WriterOut(s: State) { s.writer.WLeaving? || s.writer.WCancelled? || s.writer.WGone? }

  predicate ReaderOut(s: State) { s.reader.RLeaving? || s.reader.RCancelled? || Drained(s) }

  /** Any exit of either task leads to a cancelled token, which the drain and the receiver's drop
      always follow. */
  lemma ExitMeansCancel(s: State)
    requires Inv(s)
    ensures WriterOut(s) || ReaderOut(s) ==> TearingDown(s)
    ensures Enabled(s, ReaderDrain) || Enabled(s, WriterDrop) ==> s.cancelled
  {}

  lemma CallsKeepToken(s: State, a: Action)
    requires CallEnabled(s, a)
    ensures var t := ApplyCall(s, a); t.cancelled == s.cancelled && t.writer == s.writer && t.reader == s.reader
  {}

  lemma TasksKeepTeardown(s: State, a: Action)
    requires TaskEnabled(s, a)
    ensures s.cancelled ==> ApplyTask(s, a).cancelled
    ensures TearingDown(s) ==> TearingDown(ApplyTask(s, a))
  {}

  /** Cancellation is never undone, and a teardown under way stays under way. */
  lemma CancelIsForever(s: State, a: Action)
    requires Enabled(s, a)
    ensures s.cancelled ==> Apply(s, a).cancelled
    ensures TearingDown(s) ==> TearingDown(Apply(s, a))
  {
    if CallEnabled(s, a) { CallsKeepToken(s, a); } else { TasksKeepTeardown(s, a); }
  }

  /** The token is cancelled by the last act of either task and by nothing else: while a task is still
      leaving, callers see an open connection. */
  lemma CancelledBy(s: State, a: Action)
    requires Enabled(s, a)
    ensures Apply(s, a).cancelled <==> s.cancelled || a == WriterCancel || a == ReaderCancel
  {
    if CallEnabled(s, a) { CallsKeepToken(s, a); }
  }

  function WriterSteps(w: Writer): nat {
    match w
    case WSending(_) => 4 case WIdle => 3 case WLeaving => 2 case WCancelled => 1 case WGone => 0
  }

  function ReaderSteps(r: Reader): nat {
    match r
    case RGot(_) => 6 case RHolding(_, _) => 5 case RIdle => 4 case RLeaving => 3
    case RCancelled => 2 case RDraining(m) => 1 + |m| case RGone => 0
  }

  /** Upper bound on the reader and writer steps left until both are gone. */
  function StepsLeft(s: State): nat {
    WriterSteps(s.writer) + ReaderSteps(s.reader) + if Drained(s) then 0 else |s.pending|
  }

  predicate BothGone(s: State) { s.writer.WGone? && s.reader.RGone? }

  /** What the peer and the network decide: frames, the end of the stream, and whether and how a pending
      send returns. Every other step of a task is its own. */
  predicate Outside(a: Action) { a.ReaderFrame? || a.ReaderEnd? || a.WriterPut? || a.WriterFail? }

  /** The next step of a writer that is not gone, once it has cause to leave. */
  function NextOfWriter(w: Writer): Action
    requires !w.WGone?
  {
    match w
    case WSending(_) => WriterPut
    case WIdle => WriterSeesCancel
    case WLeaving => WriterCancel
    case WCancelled => WriterDrop
  }

  lemma WriterTeardownStep(s: State)
    requires s.writer.WLeaving? || (s.cancelled && !s.writer.WGone?)
    ensures var a := NextOfWriter(s.writer);
      && TaskEnabled(s, a) && (Outside(a) <==> s.writer.WSending?)
      && StepsLeft(ApplyTask(s, a)) < StepsLeft(s) && !ApplyTask(s, a).writer.WSending?
  {}

  function NextOfReader(r: Reader): Action
    requires !r.RGone?
  {
    match r
    case RGot(_) => ReaderTake
    case RHolding(_, _) => ReaderFire
    case RIdle => ReaderSeesCancel
    case RLeaving => ReaderCancel
    case RCancelled => ReaderDrain
    case RDraining(_) => ReaderExit
  }

  lemma TakeStep(s: State)
    requires s.reader.RGot?
    ensures StepsLeft(DoTake(s)) < StepsLeft(s)
  {
    var id := ReplyId(s.reader.env);
    if id.Some? { assert (s.pending - {id.value}).Keys == s.pending.Keys - {id.value}; }
  }

  /** An idle reader is woken by the token, not by the peer. */
  lemma NextReaderStep(s: State)
    requires s.reader.RLeaving? || (s.cancelled && !s.reader.RGone?)
    requires s.reader.RDraining? ==> s.reader.senders == map[]
    ensures var a := NextOfReader(s.reader);
      && TaskEnabled(s, a) && !Outside(a)
      && StepsLeft(ApplyTask(s, a)) < StepsLeft(s) && ApplyTask(s, a).writer == s.writer
  {
    if s.reader.RGot? { TakeStep(s); }
  }

  lemma DropStep(s: State) returns (a: Action)
    requires s.reader.RDraining? && s.reader.senders != map[]
    ensures a.ReaderDropOne? && TaskEnabled(s, a)
    ensures StepsLeft(ApplyTask(s, a)) < StepsLeft(s) && ApplyTask(s, a).writer == s.writer
  {
    var m := s.reader.senders;
    var id :| id in m;
    a := ReaderDropOne(id);
    assert (m - {id}).Keys == m.Keys - {id};
  }

  /** Likewise for the reader; in the middle of dropping the drained senders any of them may be next. */
  lemma ReaderTeardownStep(s: State) returns (a: Action)
    requires s.reader.RLeaving? || (s.cancelled && !s.reader.RGone?)
    ensures TaskEnabled(s, a) && !Outside(a)
    ensures StepsLeft(ApplyTask(s, a)) < StepsLeft(s) && ApplyTask(s, a).writer == s.writer
  {
    if s.reader.RDraining? && s.reader.senders != map[] {
      a := DropStep(s);
    } else {
      NextReaderStep(s);
      a := NextOfReader(s.reader);
    }
  }

  /** The reader is gone, and the writer too unless the network holds it in a pending send, during which
      it does not see the token. */
  predicate AllButPendingSend(s: State) { s.reader.RGone? && (s.writer.WGone? || s.writer.WSending?) }

  /** While a task is left, one of the two has a step, its own unless all that is left is a pending send,
      and it brings the end closer. */
  lemma TeardownStep(s: State) returns (a: Action)
    requires TearingDown(s) && !BothGone(s) && (s.reader.RGone? ==> s.cancelled)
    ensures TaskEnabled(s, a) && StepsLeft(ApplyTask(s, a)) < StepsLeft(s)
    ensures Outside(a) ==> AllButPendingSend(s) && a == WriterPut
    ensures ApplyTask(s, a).writer.WSending? ==> s.writer.WSending?
  {
    if s.writer.WLeaving? || (s.cancelled && !s.writer.WGone? && (s.reader.RGone? || !s.writer.WSending?)) {
      WriterTeardownStep(s);
      a := NextOfWriter(s.writer);
    } else {
      a := ReaderTeardownStep(s);
    }
  }

  lemma Prepend(s: State, a: Action, run: seq<Action>) returns (longer: seq<Action>)
    requires Enabled(s, a) && Runs(Apply(s, a), run)
    ensures longer == [a] + run && Runs(s, longer) && Final(s, longer) == Final(Apply(s, a), run)
  {
    longer := [a] + run;
    assert longer[1..] == run;
  }

  lemma {:induction false} TearingDownRun(s: State, run: seq<Action>)
    requires TearingDown(s) && Runs(s, run)
    ensures TearingDown(Final(s, run))
    decreases |run|
  {
    if run != [] {
      CancelIsForever(s, run[0]);
      TearingDownRun(Apply(s, run[0]), run[1..]);
    }
  }

  /** Every call registered before the drain has been woken. */
  predicate AllWoken(s: State) {
    forall k :: 0 <= k < |s.calls| && !s.calls[k].phase.Allocated? && !s.calls[k].late ==> !s.calls[k].slot.Open?
  }

  lemma GoneMeansWoken(s: State)
    requires Inv(s) && s.reader.RGone?
    ensures AllWoken(s) && s.cancelled
  {
    forall k | 0 <= k < |s.calls| && !s.calls[k].phase.Allocated? && !s.calls[k].late
      ensures !s.calls[k].slot.Open?
    {
      InsertBeforeDrainResolves(s, k);
    }
  }

  /** Neither task has a step of its own left; what the peer and the network may still do is open. */
  ghost predicate TasksAtRest(s: State) { forall a :: TaskEnabled(s, a) ==> Outside(a) }

  /** With both tasks at rest there are two cases: no teardown began, or it is over, even if the peer and
      the network stay silent for ever. */
  lemma RestingIff(s: State)
    requires Inv(s) && TasksAtRest(s)
    ensures TearingDown(s) <==> s.reader.RGone?
    ensures TearingDown(s) ==> AllButPendingSend(s) && s.cancelled && AllWoken(s)
  {
    if TearingDown(s) && !AllButPendingSend(s) {
      var a := TeardownStep(s);
      assert false;
    }
    if s.reader.RGone? { GoneMeansWoken(s); }
  }

  /** The first case is real: a fresh client has no step of its own. */
  lemma FreshClientRests()
    ensures TasksAtRest(Init) && !TearingDown(Init)
  {}

  /** Teardown under any scheduler: whatever anyone did since one half exited, once neither task has a
      step of its own left, the reader is gone, the writer too but for a pending send, and every call
      registered by then, and not late, is woken. `Liveness.ClientRunIsFinite` bounds how long that takes. */
  lemma TeardownUnderAnyScheduler(s: State, run: seq<Action>)
    requires Inv(s) && TearingDown(s) && Runs(s, run) && TasksAtRest(Final(s, run))
    ensures var t := Final(s, run); AllButPendingSend(t) && t.cancelled && AllWoken(t)
  {
    InvRun(s, run);
    TearingDownRun(s, run);
    RestingIff(Final(s, run));
  }

  /** The plan leaves everything to reader and writer, but for the return of a send that was pending at the start. */
  predicate TasksOnly(s: State, plan: seq<Action>) {
    forall i :: 0 <= i < |plan| && Outside(plan[i]) ==> plan[i] == WriterPut && s.writer.WSending?
  }

  lemma PrependOwn(s: State, a: Action, t: State, rest: seq<Action>)
    requires TasksOnly(t, rest) && (t.writer.WSending? ==> s.writer.WSending?)
    requires Outside(a) ==> a == WriterPut && s.writer.WSending?
    ensures TasksOnly(s, [a] + rest)
  {}

  /** Such a schedule exists: from any state with one half exited, at most `StepsLeft` steps, none of them
      left to the peer or the network but the return of a pending send, end with both halves gone and
      every call registered before, and not late, woken. */
  lemma {:induction false} TeardownCompletes(s: State) returns (plan: seq<Action>)
    requires Inv(s) && TearingDown(s)
    ensures Runs(s, plan) && |plan| <= StepsLeft(s) && TasksOnly(s, plan)
    ensures var t := Final(s, plan);
      Inv(t) && BothGone(t) && t.cancelled && |t.calls| == |s.calls| && AllWoken(t)
    decreases StepsLeft(s)
  {
    plan := [];
    if BothGone(s) {
      GoneMeansWoken(s);
    } else {
      var a := TeardownStep(s);
      var t := ApplyTask(s, a);
      TaskApply(s, a);
      TasksKeepCalls(s, a);
      InvStep(s, a);
      CancelIsForever(s, a);
      var rest := TeardownCompletes(t);
      plan := Prepend(s, a, rest);
      PrependOwn(s, a, t, rest);
    }
  }
}
