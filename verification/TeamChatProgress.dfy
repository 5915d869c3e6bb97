/** What an undisturbed handler or reconcile pass achieves, from every state in which it can begin: each
    lemma gives the steps it takes, without a throw, a tick or a step of anybody else. */
module TeamChatProgress {
  import opened Wrappers
  import opened TeamChatRow
  import opened TeamChatProtocol
  import opened TeamChatScenarios

  /** The steps lead from `w` to `s`, and nothing fails, nobody else comes in and no time passes meanwhile. */
  ghost predicate LeadsTo(w: State, acts: seq<Action>, s: Shared) {
    IsRun(w, acts) && After(w, acts).s == s && AllHazards(acts) <= {OtherInstance}
  }

  // ---- the inbound handler ----

  /** The handler takes the row, extends its lease and marks its wake in flight. */
  lemma Marks(kind: Kind) returns (t: Trace)
    ensures Valid(t) && t.from == FirstDelivery(kind) && t.hazards == {} && t.w.nextPid == 1
    ensures t.w.s == HeldBy(kind) && t.w.procs == map[0 := Proc(0, Handling(Unreserved, Racing, true))]
  {
    t := Holds(kind);
    t := Do(t, Handler(0, Mark));
    assert t.w.procs == map[0 := Proc(0, Handling(Unreserved, Racing, true))];
  }

  lemma Holds(kind: Kind) returns (t: Trace)
    ensures Valid(t) && t.from == FirstDelivery(kind) && t.hazards == {} && t.w.nextPid == 1
    ensures t.w.s == HeldBy(kind).(inFlight := {}) && t.w.procs == map[0 := Proc(0, Held)]
  {
    t := Trace(FirstDelivery(kind), [], FirstDelivery(kind), {});
    t := Do(t, Handler(0, TryDefer));
    t := Do(t, Handler(0, TryExtend));
    assert t.w.procs == map[0 := Proc(0, Held)];
  }

  function HeldBy(kind: Kind): Shared {
    var s := FirstDelivery(kind).s;
    s.(row := s.row.(reason := Routing, lease := Some(1_800_000)), inFlight := {0})
  }

  /** A routine that takes the event ends with its wake committed and the row ignored, owned by the wake. */
  lemma RoutineTakes(kind: Kind) returns (acts: seq<Action>)
    ensures var s := FirstDelivery(kind).s;
      LeadsTo(FirstDelivery(kind), acts, s.(row := s.row.(status := Ignored, reason := RoutineWake, lease := None), nonce := true))
  {
    var t := Marks(kind);
    t := Commits(t);
    t := SettlesWoken(t);
    t := Finishes(t);
    acts := t.acts;
  }

  lemma Commits(t: Trace) returns (t': Trace)
    requires Valid(t) && CanReserveWake(t.w.s.row) && t.w.procs == map[0 := Proc(0, Handling(Unreserved, Racing, true))]
    ensures Valid(t') && t'.from == t.from && t'.hazards == t.hazards && t'.w.procs == map[0 := Proc(0, Handling(Woken(true), Racing, true))]
    ensures t'.w.s == t.w.s.(row := t.w.s.row.(reason := Routing, lease := Some(t.w.s.now + 1_800_000)), nonce := true)
  {
    t' := Do(t, Handler(0, WakeReserve(true)));
    t' := Returns(t');
  }

  lemma Returns(t: Trace) returns (t': Trace)
    requires Valid(t) && t.w.procs == map[0 := Proc(0, Handling(Reserved, Racing, true))]
    ensures Valid(t') && t'.from == t.from && t'.hazards == t.hazards && t'.w.s == t.w.s.(nonce := true)
    ensures t'.w.procs == map[0 := Proc(0, Handling(Woken(true), Racing, true))]
  {
    t' := Do(t, Handler(0, WakeCommit));
    t' := Do(t', Handler(0, WakeReturn));
  }

  lemma SettlesWoken(t: Trace) returns (t': Trace)
    requires Valid(t) && t.w.s.row.status == Deferred && t.w.procs == map[0 := Proc(0, Handling(Woken(true), Racing, true))]
    ensures Valid(t') && t'.from == t.from && t'.hazards == t.hazards && t'.w.procs == map[0 := Proc(0, Handling(Woken(true), Finishing, true))]
    ensures t'.w.s == t.w.s.(row := t.w.s.row.(status := Ignored, reason := RoutineWake, lease := None))
  {
    t' := Do(t, Handler(0, SettleRace));
    t' := Do(t', Handler(0, ResolveRow(true)));
  }

  lemma Finishes(t: Trace) returns (t': Trace)
    requires Valid(t) && 0 in t.w.procs && t.w.procs[0].inst == 0 && t.w.s.inFlight == {0}
    requires t.w.procs[0].pc.Handling? && t.w.procs[0].pc.outer == Finishing
    ensures Valid(t') && t'.from == t.from && t'.hazards == t.hazards && t'.w.s == t.w.s.(inFlight := {})
  {
    t' := Do(t, Handler(0, Finish));
  }

  /** An event no routine wants is released: a direct one to the agent, an ambient one to the judge. */
  lemma NoRoutineReleases(kind: Kind) returns (acts: seq<Action>)
    ensures var s := FirstDelivery(kind).s;
      LeadsTo(FirstDelivery(kind), acts,
              s.(row := s.row.(status := if kind == Direct then Received else Observed, reason := NoReason, lease := None)))
  {
    var t := Marks(kind);
    t := Declines(t);
    t := Finishes(t);
    acts := t.acts;
  }

  lemma Declines(t: Trace) returns (t': Trace)
    requires Valid(t) && t.w.s.row.status == Deferred && t.w.procs == map[0 := Proc(0, Handling(Unreserved, Racing, true))]
    ensures Valid(t') && t'.from == t.from && t'.hazards == t.hazards && t'.w.procs == map[0 := Proc(0, Handling(Woken(false), Finishing, true))]
    ensures t'.w.s == t.w.s.(
      row := t.w.s.row.(status := if t.w.s.row.kind == Direct then Received else Observed, reason := NoReason, lease := None))
  {
    t' := SettlesUnwoken(t);
    t' := Do(t', Handler(0, ResolveRow(true)));
  }

  lemma SettlesUnwoken(t: Trace) returns (t': Trace)
    requires Valid(t) && t.w.procs == map[0 := Proc(0, Handling(Unreserved, Racing, true))]
    ensures Valid(t') && t'.from == t.from && t'.hazards == t.hazards && t'.w.s == t.w.s
    ensures t'.w.procs == map[0 := Proc(0, Handling(Woken(false), Resolving(false), true))]
  {
    t' := Do(t, Handler(0, WakeReserve(false)));
    t' := Do(t', Handler(0, SettleRace));
  }

  /** Another delivery of an event that waits for the agent or the judge, or whose lease ran out, takes the row
      for two minutes; one that comes while it is held is turned away. */
  lemma RedeliveryDefers(s: Shared, inst: Inst, snapshot: Row, at: nat)
    requires snapshot.status != Deferred
    ensures var m := HandlerMove(s, inst, Upserted(snapshot, at), TryDefer);
      if s.row.status == Received || s.row.status == Observed
         || (s.row.status == Deferred && s.row.lease.Some? && s.row.lease.value <= at)
      then m == To(s.(row := s.row.(status := Deferred, lease := Some(at + 120_000))), DeferredHere)
      else m == End(s)
  {
  }

  /** A renewal, and the hold after a lost race, extend a deferred row's lease by half an hour and claim it for
      the wake again; a renewal that finds the row gone ends the race. */
  lemma HeartbeatHolds(s: Shared, inst: Inst, wake: Wake, outer: Outer)
    ensures HandlerMove(s, inst, Handling(wake, outer, true), Renew) ==
      if s.row.status == Deferred then
        To(s.(row := s.row.(reason := Routing, lease := Some(s.now + 1_800_000))), Handling(wake, outer, true))
      else To(s, Handling(wake, if outer == Racing then LeaseLost else outer, false))
    ensures HandlerMove(s, inst, Handling(wake, LeaseLost, false), Rehold(true)) ==
      if s.row.status == Deferred then
        To(s.(row := s.row.(reason := Routing, lease := Some(s.now + 1_800_000))), Handling(wake, AwaitingWake, true))
      else To(s, Handling(wake, AwaitingWake, false))
  {
  }

  /** A wake that took the event owns it even if the row was released meanwhile. */
  lemma WakeTakesReleased(s: Shared, inst: Inst, beating: bool)
    requires s.row.status == Received || s.row.status == Observed || s.row.status == Deferred
    ensures HandlerMove(s, inst, Handling(Woken(true), Resolving(true), beating), ResolveRow(true)) ==
      To(s.(row := s.row.(status := Ignored, reason := RoutineWake, lease := None)), Handling(Woken(true), Finishing, beating))
  {
  }

  /** A restarted instance frees an event whose wake died with it, once its lease is over. */
  lemma RestartFrees(w: State, inst: Inst)
    requires Enabled(w, Restart(inst)) && w.s.row.status == Deferred && w.s.row.reason in {Routing, Rearmed}
    ensures Step(w, Restart(inst)) ==
      if w.s.row.lease.Some? && w.s.row.lease.value <= w.s.now
      then w.(s := w.s.(row := w.s.row.(reason := NoReason, lease := Some(w.s.now)))) else w
  {
  }

  // ---- a reconcile pass ----

  /** Where a new pass can begin on the instance. */
  ghost predicate Ready(w: State, inst: Inst) {
    NoPass(w, inst) && w.nextPid !in w.procs
  }

  /** A pass comes as far as its judge. */
  lemma ToJudge(w: State, inst: Inst) returns (t: Trace)
    requires Ready(w, inst) && w.s.row.status != Queueing
    ensures Valid(t) && t.from == w && t.hazards <= {OtherInstance} && t.w == Spawn(w, Proc(inst, AmbientScan(w.s.now)))
  {
    var p := w.nextPid;
    t := Trace(w, [], w, {});
    t := Begin(t, inst);
    t := By(t, p, Skip, To(w.s, ResetQueueing(w.s.now)));
    t := By(t, p, Go, To(w.s, AmbientScan(w.s.now)));
    assert t.w.procs == w.procs[p := Proc(inst, AmbientScan(w.s.now))];
  }

  /** A judge that acts on an observed event hands it to the agent, with its reason. */
  lemma JudgeHandsOver(w: State, inst: Inst, reason: Reason) returns (acts: seq<Action>)
    requires Ready(w, inst) && w.s.row.status == Observed && (reason == NoReason || reason.Text?)
    ensures LeadsTo(w, acts, w.s.(row := w.s.row.(status := Received, reason := reason)))
  {
    var t := ToJudge(w, inst);
    var p := w.nextPid;
    t := By(t, p, Choose(reason), To(w.s, AmbientTrigger(w.s.now, reason)));
    t := By(t, p, Go, To(w.s.(row := w.s.row.(status := Received, reason := reason)), QueueScan(w.s.now)));
    acts := t.acts;
  }

  /** One that does not act, or has not to, ignores it. */
  lemma JudgeIgnores(w: State, inst: Inst) returns (acts: seq<Action>)
    requires Ready(w, inst) && w.s.row.status == Observed
    ensures LeadsTo(w, acts, w.s.(row := w.s.row.(status := Ignored)))
  {
    var t := ToJudge(w, inst);
    var p := w.nextPid;
    t := By(t, p, Go, To(w.s, AmbientDrop(w.s.now)));
    t := By(t, p, Go, To(w.s.(row := w.s.row.(status := Ignored)), QueueScan(w.s.now)));
    acts := t.acts;
  }

  /** A due received event nobody owns gets an agent run, and the row is linked to it. */
  lemma AgentIsAsked(w: State, inst: Inst) returns (acts: seq<Action>)
    requires Ready(w, inst) && Unclaimed(w.s)
    ensures LeadsTo(w, acts,
      w.s.(row := w.s.row.(status := Running, reason := AgentOwned, lease := None, runId := Some(7)),
           run := Some(AgentRun(7, Active))))
  {
    var t := Fallback(Trace(w, [], w, {}), inst);
    acts := t.acts;
  }

  /** A received event whose wake has committed is left to the routine. */
  lemma WokenIsLeft(w: State, inst: Inst) returns (acts: seq<Action>)
    requires Ready(w, inst) && w.s.row.status == Received && Unowned(w.s.row.reason) && DueBy(w.s.row.lease, w.s.now)
    requires !w.s.slack && w.s.nonce
    ensures LeadsTo(w, acts, w.s.(row := w.s.row.(status := Ignored, reason := RoutineWake, lease := None)))
  {
    var t := ToJudge(w, inst);
    var p, n := w.nextPid, w.s.row.attempts;
    t := By(t, p, Skip, To(w.s, QueueScan(w.s.now)));
    t := By(t, p, Go, To(w.s, FindBeforeClaim(w.s.now, n)));
    t := Abandons(t, p, n);
    acts := t.acts;
  }

  lemma Abandons(t: Trace, p: Pid, n: nat) returns (t': Trace)
    requires Valid(t) && p in t.w.procs && t.w.procs[p].pc == FindBeforeClaim(t.w.s.now, n)
    requires t.w.s.nonce && t.w.s.row.status == Received
    ensures Valid(t') && t'.from == t.from && t'.hazards == t.hazards
    ensures t'.w.s == t.w.s.(row := t.w.s.row.(status := Ignored, reason := RoutineWake, lease := None))
  {
    var s := t.w.s;
    t' := By(t, p, Go, To(s, AbandonUnclaimed(s.now, n)));
    t' := By(t', p, Go, To(s.(row := s.row.(status := Ignored, reason := RoutineWake, lease := None)), DeliverScan(s.now)));
  }

  /** A slack conversation is not answered by this bridge. */
  lemma SlackIsIgnored(w: State, inst: Inst) returns (acts: seq<Action>)
    requires Ready(w, inst) && w.s.row.status == Received && DueBy(w.s.row.lease, w.s.now) && w.s.slack
    ensures LeadsTo(w, acts, w.s.(row := w.s.row.(status := Ignored, lease := None)))
  {
    var t := ToJudge(w, inst);
    var p, n := w.nextPid, w.s.row.attempts;
    t := By(t, p, Skip, To(w.s, QueueScan(w.s.now)));
    t := DropsSlack(t, p, n);
    acts := t.acts;
  }

  lemma DropsSlack(t: Trace, p: Pid, n: nat) returns (t': Trace)
    requires Valid(t) && p in t.w.procs && t.w.procs[p].pc == QueueScan(t.w.s.now) && n == t.w.s.row.attempts
    requires t.w.s.row.status == Received && DueBy(t.w.s.row.lease, t.w.s.now) && t.w.s.slack
    ensures Valid(t') && t'.from == t.from && t'.hazards == t.hazards
    ensures t'.w.s == t.w.s.(row := t.w.s.row.(status := Ignored, lease := None))
  {
    var s := t.w.s;
    t' := By(t, p, Go, To(s, QueueSlack(s.now, n)));
    t' := By(t', p, Go, To(s.(row := s.row.(status := Ignored, lease := None)), DeliverScan(s.now)));
  }

  /** An attempt that finds the wake after creating its run cancels the run and leaves the row to the routine. */
  lemma LateWakeWins(w: State, p: Pid, t: nat, n: nat) returns (acts: seq<Action>)
    requires p in w.procs && w.procs[p].pc == FindAfterSend(t, n, 7) && w.s.nonce && w.s.run == Some(AgentRun(7, Active))
    requires w.s.row.status == Queueing && w.s.row.runId.None?
    ensures LeadsTo(w, acts,
      w.s.(row := w.s.row.(status := Ignored, reason := RoutineWake, lease := None), run := Some(AgentRun(7, Cancelled))))
  {
    var tr := Trace(w, [], w, {});
    var s := w.s.(run := Some(AgentRun(7, Cancelled)));
    tr := By(tr, p, Go, To(w.s, CancelRun(t, n, 7)));
    tr := CancelsAndAbandons(tr, p, t, n);
    acts := tr.acts;
  }

  lemma CancelsAndAbandons(tr: Trace, p: Pid, t: nat, n: nat) returns (tr': Trace)
    requires Valid(tr) && p in tr.w.procs && tr.w.procs[p].pc == CancelRun(t, n, 7) && tr.w.s.run == Some(AgentRun(7, Active))
    requires tr.w.s.row.status == Queueing && tr.w.s.row.runId.None?
    ensures Valid(tr') && tr'.from == tr.from && tr'.hazards == tr.hazards
    ensures tr'.w.s == tr.w.s.(
      row := tr.w.s.row.(status := Ignored, reason := RoutineWake, lease := None), run := Some(AgentRun(7, Cancelled)))
  {
    var s := tr.w.s.(run := Some(AgentRun(7, Cancelled)));
    tr' := By(tr, p, Go, To(s, AbandonClaimed(t, n, Some(7))));
    tr' := By(tr', p, Go, To(s.(row := s.row.(status := Ignored, reason := RoutineWake, lease := None)), DeliverScan(t)));
  }

  /** An attempt that finds the wake before it creates a run, at either look, creates none and leaves the row
      to the routine; one that has lost the row between them leaves the row as it is. */
  lemma BarrierRefuses(w: State, p: Pid, t: nat, n: nat) returns (acts: seq<Action>)
    requires p in w.procs && (w.procs[p].pc == FindAfterClaim(t, n) || w.procs[p].pc == FindAtBarrier(t, n))
    requires w.s.nonce && w.s.row.status == Queueing && w.s.row.runId.None?
    ensures LeadsTo(w, acts, w.s.(row := w.s.row.(status := Ignored, reason := RoutineWake, lease := None)))
  {
    var left := w.s.(row := w.s.row.(status := Ignored, reason := RoutineWake, lease := None));
    var tr := Trace(w, [], w, {});
    tr := By(tr, p, Go, To(w.s, AbandonClaimed(t, n, None)));
    tr := By(tr, p, Go, To(left, DeliverScan(t)));
    acts := tr.acts;
  }

  lemma BarrierYields(w: State, p: Pid, t: nat, n: nat) returns (acts: seq<Action>)
    requires p in w.procs && w.procs[p].pc == Barrier(t, n) && w.s.row.status != Queueing
    ensures LeadsTo(w, acts, w.s) && p in After(w, acts).procs && After(w, acts).procs[p].pc == DeliverScan(t)
  {
    var tr := Trace(w, [], w, {});
    tr := By(tr, p, Go, To(w.s, AbandonClaimed(t, n, None)));
    tr := By(tr, p, Go, To(w.s, DeliverScan(t)));
    acts := tr.acts;
  }

  // ---- recovery ----

  /** Where one pass leaves an expired deferred row: with its wake if that happened, stripped of a claim no
      wake of this instance stands behind, and released if nobody claims it. */
  function Recovered(s: Shared, inst: Inst): Row {
    if s.nonce then s.row.(status := Ignored, reason := RoutineWake, lease := None)
    else if s.row.reason in {Routing, Rearmed} then
      if inst in s.inFlight then s.row else s.row.(reason := NoReason, lease := Some(s.now))
    else s.row.(status := if s.row.kind == Direct then Received else Observed, reason := NoReason, lease := None)
  }

  lemma PassRecovers(w: State, inst: Inst) returns (acts: seq<Action>)
    requires Ready(w, inst) && w.s.row.status == Deferred && w.s.row.lease.Some? && w.s.row.lease.value <= w.s.now
    requires w.s.row.reason != AgentOwned
    ensures LeadsTo(w, acts, w.s.(row := Recovered(w.s, inst)))
  {
    var p := w.nextPid;
    var t := Trace(w, [], w, {});
    t := Begin(t, inst);
    t := By(t, p, Go, To(w.s, RecoverFind(w.s.now, w.s.row.reason)));
    t := By(t, p, Go, To(w.s, RecoverDecide(w.s.now, w.s.row.reason, w.s.nonce)));
    t := Decides(t, p, inst);
    acts := t.acts;
  }

  lemma Decides(t: Trace, p: Pid, inst: Inst) returns (t': Trace)
    requires Valid(t) && p in t.w.procs && t.w.procs[p] == Proc(inst, RecoverDecide(t.w.s.now, t.w.s.row.reason, t.w.s.nonce))
    requires t.w.s.row.status == Deferred && t.w.s.row.lease.Some? && t.w.s.row.lease.value <= t.w.s.now
    requires t.w.s.row.reason != AgentOwned
    ensures Valid(t') && t'.from == t.from && t'.hazards == t.hazards && t'.w.s == t.w.s.(row := Recovered(t.w.s, inst))
  {
    var s, now := t.w.s, t.w.s.now;
    var after := s.(row := Recovered(s, inst));
    if s.nonce {
      t' := By(t, p, Go, To(s, RecoverIgnore(now)));
    } else if s.row.reason !in {Routing, Rearmed} {
      t' := By(t, p, Go, To(s, RecoverPromote(now)));
    } else if inst in s.inFlight {
      t' := By(t, p, Go, To(s, ResetQueueing(now)));
      return;
    } else {
      t' := By(t, p, Go, To(s, RecoverClear(now)));
    }
    t' := By(t', p, Go, To(after, ResetQueueing(now)));
  }

  // ---- delivery ----

  /** A linked event is due, its run over, and nothing posted. */
  predicate Answerable(s: Shared) {
    && s.row.status == Running && s.row.handle.None? && DueBy(s.row.lease, s.now)
    && s.run.Some? && s.run.value.state != Active
  }

  lemma ToDelivery(w: State, inst: Inst) returns (t: Trace)
    requires Ready(w, inst) && Answerable(w.s)
    ensures Valid(t) && t.from == w && t.hazards <= {OtherInstance} && t.w == Spawn(w, Proc(inst, DeliverScan(w.s.now)))
  {
    var p := w.nextPid;
    t := ToJudge(w, inst);
    t := By(t, p, Skip, To(w.s, QueueScan(w.s.now)));
    t := By(t, p, Skip, To(w.s, DeliverScan(w.s.now)));
    assert t.w.procs == w.procs[p := Proc(inst, DeliverScan(w.s.now))];
  }

  /** The answer of a completed run, and for a direct event the notice of a failed one, is posted, and its
      handle stored. */
  lemma ReplyIsPosted(w: State, inst: Inst, handle: string) returns (acts: seq<Action>)
    requires Ready(w, inst) && Answerable(w.s) && (w.s.row.kind == Direct || w.s.run.value.state == Completed)
    ensures LeadsTo(w, acts,
      w.s.(row := w.s.row.(status := Delivered, handle := Some(handle), lease := None), sends := w.s.sends + 1))
  {
    var t := ToDelivery(w, inst);
    var p := w.nextPid;
    t := Reserves(t, p);
    t := Posts(t, p, w.s.row.attempts, handle);
    acts := t.acts;
  }

  lemma Reserves(t: Trace, p: Pid) returns (t': Trace)
    requires Valid(t) && p in t.w.procs && t.w.procs[p].pc == DeliverScan(t.w.s.now) && Answerable(t.w.s)
    requires t.w.s.row.kind == Direct || t.w.s.run.value.state == Completed
    ensures Valid(t') && t'.from == t.from && t'.hazards == t.hazards && p in t'.w.procs && t'.w.procs[p].pc == Post(t.w.s.row.attempts)
    ensures t'.w.s == t.w.s.(row := t.w.s.row.(status := Delivering, lease := Some(t.w.s.now + 120_000)))
  {
    t' := FindsEnded(t, p);
    t' := ReservesAndReads(t', p, t.w.s.row.attempts);
  }

  lemma FindsEnded(t: Trace, p: Pid) returns (t': Trace)
    requires Valid(t) && p in t.w.procs && t.w.procs[p].pc == DeliverScan(t.w.s.now) && Answerable(t.w.s)
    requires t.w.s.row.kind == Direct || t.w.s.run.value.state == Completed
    ensures Valid(t') && t'.from == t.from && t'.hazards == t.hazards && t'.w.s == t.w.s
    ensures p in t'.w.procs && t'.w.procs[p].pc == ReserveSend(t.w.s.row.attempts)
  {
    t' := By(t, p, Go, To(t.w.s, ReserveSend(t.w.s.row.attempts)));
  }

  lemma ReservesAndReads(t: Trace, p: Pid, n: nat) returns (t': Trace)
    requires Valid(t) && p in t.w.procs && t.w.procs[p].pc == ReserveSend(n) && t.w.s.row.status == Running && t.w.s.row.handle.None?
    ensures Valid(t') && t'.from == t.from && t'.hazards == t.hazards && p in t'.w.procs && t'.w.procs[p].pc == Post(n)
    ensures t'.w.s == t.w.s.(row := t.w.s.row.(status := Delivering, lease := Some(t.w.s.now + 120_000)))
  {
    var s := t.w.s;
    var reserved := s.(row := s.row.(status := Delivering, lease := Some(s.now + 120_000)));
    t' := By(t, p, Go, To(reserved, ReadHandle(n)));
    t' := By(t', p, Go, To(reserved, Post(n)));
  }

  lemma Posts(t: Trace, p: Pid, n: nat, handle: string) returns (t': Trace)
    requires Valid(t) && p in t.w.procs && t.w.procs[p].pc == Post(n)
    ensures Valid(t') && t'.from == t.from && t'.hazards == t.hazards
    ensures t'.w.s == t.w.s.(
      row := t.w.s.row.(status := Delivered, handle := Some(handle), lease := None), sends := t.w.s.sends + 1)
  {
    var s := t.w.s.(sends := t.w.s.sends + 1);
    t' := By(t, p, Reply(handle), To(s, SaveHandle(n, handle)));
    t' := Stores(t', p, n, handle);
  }

  lemma Stores(t: Trace, p: Pid, n: nat, handle: string) returns (t': Trace)
    requires Valid(t) && p in t.w.procs && t.w.procs[p].pc == SaveHandle(n, handle)
    ensures Valid(t') && t'.from == t.from && t'.hazards == t.hazards
    ensures t'.w.s == t.w.s.(row := t.w.s.row.(status := Delivered, handle := Some(handle), lease := None))
  {
    var s := t.w.s;
    t' := By(t, p, Go, To(s.(row := s.row.(handle := Some(handle))), Finalize(n, handle)));
    t' := By(t', p, Go, To(s.(row := s.row.(status := Delivered, handle := Some(handle), lease := None)), Done));
  }

  /** A reply that was posted by an attempt that got no further is finished by the next with its handle, and
      one whose reservation ran out without a handle is closed as unconfirmed: neither is posted again. */
  lemma InterruptedDeliveryEnds(w: State, p: Pid, n: nat) returns (acts: seq<Action>)
    requires p in w.procs && w.procs[p].pc == ReserveSend(n) && w.s.row.status == Delivering
    requires (w.s.row.handle.Some? && w.s.row.handle.value != "") || (w.s.row.handle.None? && DueBy(w.s.row.lease, w.s.now))
    ensures var handle := if w.s.row.handle.Some? then w.s.row.handle.value else "unconfirmed";
      LeadsTo(w, acts, w.s.(row := w.s.row.(status := Delivered, handle := Some(handle), lease := None)))
  {
    var handle := if w.s.row.handle.Some? then w.s.row.handle.value else "unconfirmed";
    var t := Trace(w, [], w, {});
    t := By(t, p, Go, To(w.s, FindPosted(n, w.s.now)));
    if w.s.row.handle.Some? {
      t := FinishesStored(t, p, n, handle);
    } else {
      t := ClosesLost(t, p, n);
    }
    acts := t.acts;
  }

  lemma FinishesStored(t: Trace, p: Pid, n: nat, handle: string) returns (t': Trace)
    requires Valid(t) && p in t.w.procs && t.w.procs[p].pc == FindPosted(n, t.w.s.now)
    requires t.w.s.row.status == Delivering && t.w.s.row.handle == Some(handle) && handle != ""
    ensures Valid(t') && t'.from == t.from && t'.hazards == t.hazards
    ensures t'.w.s == t.w.s.(row := t.w.s.row.(status := Delivered, handle := Some(handle), lease := None))
  {
    var s := t.w.s;
    t' := By(t, p, Go, To(s, Finalize(n, handle)));
    t' := By(t', p, Go, To(s.(row := s.row.(status := Delivered, handle := Some(handle), lease := None)), Done));
  }

  lemma ClosesLost(t: Trace, p: Pid, n: nat) returns (t': Trace)
    requires Valid(t) && p in t.w.procs && t.w.procs[p].pc == FindPosted(n, t.w.s.now)
    requires t.w.s.row.status == Delivering && t.w.s.row.handle.None? && DueBy(t.w.s.row.lease, t.w.s.now)
    ensures Valid(t') && t'.from == t.from && t'.hazards == t.hazards
    ensures t'.w.s == t.w.s.(row := t.w.s.row.(status := Delivered, handle := Some("unconfirmed"), lease := None))
  {
    var s := t.w.s;
    t' := By(t, p, Go, To(s, ExpireSend(n, s.now)));
    t' := By(t', p, Go, To(s.(row := s.row.(status := Delivered, handle := Some("unconfirmed"), lease := None)), Done));
  }

  /** An ambient event with an empty answer, or a failed run, is closed without a post, and says which. */
  lemma SilenceIsRecorded(w: State, inst: Inst) returns (acts: seq<Action>)
    requires Ready(w, inst) && Answerable(w.s) && w.s.row.kind == Ambient
    ensures var handle := if w.s.run.value.state == Completed then "silent" else "silent-failure";
      LeadsTo(w, acts, w.s.(row := w.s.row.(status := Delivered, handle := Some(handle), lease := None)))
  {
    var t := ToDelivery(w, inst);
    var p, n := w.nextPid, w.s.row.attempts;
    var handle := if w.s.run.value.state == Completed then "silent" else "silent-failure";
    t := By(t, p, Silent, To(w.s, DeliverSilent(n, handle)));
    t := By(t, p, Go, To(w.s.(row := w.s.row.(status := Delivered, handle := Some(handle), lease := None)), Done));
    acts := t.acts;
  }
}
