/** A routine wake and a fallback agent reply never both own one event.  The invariant is
    proved once, under step conditions, and then for two deployments that meet them:
    one bridge instance with restarts, and several instances whose leases outlive their work. */
module TeamChatExclusivity {
  import opened Wrappers
  import opened TeamChatRow
  import opened TeamChatProtocol
  import opened TeamChatSafety

  /** The property: no committed wake beside an agent run that owns the reply. */
  predicate Exclusive(s: Shared) {
    !(s.nonce && Linked(s.row.status))
  }

  // ---- vocabulary ----

  /** A handler whose extended reservation has not been resolved yet. */
  predicate Holding(pc: Pc) {
    pc.Held? || (pc.Handling? && pc.outer != Finishing && pc.outer != Orphan)
  }

  /** A handler that won the deferral and has not resolved the row. */
  predicate Engaged(pc: Pc) {
    pc.DeferredHere? || Holding(pc)
  }

  /** A queue attempt between its claim and its last update of the row. */
  predicate Claimed(pc: Pc) {
    || pc.FindAfterClaim? || pc.Barrier? || pc.FindAtBarrier? || pc.SendUser?
    || pc.FindAfterSend? || pc.CancelRun? || pc.AbandonClaimed? || pc.LinkRun?
  }

  predicate Resets(s: Shared, pc: Pc) {
    || (pc.ResetQueueing? && CanReset(s.row, pc.t))
    || (pc.RetryWrite? && pc.seen == Queueing && CanRetry(s.row, Queueing))
  }

  predicate Clears(s: Shared, pc: Pc) {
    pc.RecoverClear? && CanClear(s.row, pc.t)
  }

  ghost predicate OneEngaged(w: State) {
    forall p, q ::
      (p in w.procs && q in w.procs && Engaged(w.procs[p].pc) && Engaged(w.procs[q].pc)) ==> p == q
  }

  /** A wake that has reasserted ownership and may commit at any moment. */
  predicate Reserving(pc: Pc) {
    pc.Handling? && pc.wake == Reserved
  }

  ghost predicate NoneReserving(w: State) {
    forall p :: p in w.procs ==> !Reserving(w.procs[p].pc)
  }

  ghost predicate NoneClaimed(w: State) {
    forall p :: p in w.procs ==> !Claimed(w.procs[p].pc)
  }

  /** A wake that has not committed its message, nor given up. */
  predicate Uncommitted(wake: Wake) {
    wake == Unreserved || wake == Reserved
  }

  /** A renewal that throws before the wake has committed makes the handler release the row under it. */
  predicate RenewalThrows(w: State, a: Action) {
    && a.Handler? && a.h == RenewThrow && a.pid in w.procs
    && w.procs[a.pid].pc.Handling?
    && w.procs[a.pid].pc.outer == Racing && Uncommitted(w.procs[a.pid].pc.wake)
  }

  /** A wake reserves a row that recovery has meanwhile handed to the ambient judge, whose update guards
      the status only and will overwrite the reservation. */
  predicate ReservesObserved(w: State, a: Action) {
    && a.Handler? && a.h == WakeReserve(true) && a.pid in w.procs
    && w.s.row.status == Observed && CanReserveWake(w.s.row)
  }

  /** The step conditions the protocol's exclusivity rests on. */
  ghost predicate Protected(w: State, a: Action)
    requires Enabled(w, a)
  {
    && OneEngaged(w) && OneEngaged(Step(w, a))
    && !RenewalThrows(w, a) && !ReservesObserved(w, a)
    && (a.Pass? && a.p == Go && Resets(w.s, w.procs[a.pid].pc) ==> NoneClaimed(w))
    && (a.Pass? && a.p == Go && Clears(w.s, w.procs[a.pid].pc) ==> NoneReserving(w))
    && (a.Restart? && CanClear(w.s.row, w.s.now) ==> NoneReserving(w))
  }

  // ---- the invariant ----

  /** What a wake that may commit can count on. */
  predicate HoldOk(s: Shared) {
    || ((s.row.status == Deferred || s.row.status == Received) && s.row.reason == Routing)
    || (s.nonce && s.row.status == Ignored)
  }

  predicate PcExcl(s: Shared, pc: Pc) {
    && (Reserving(pc) ==> HoldOk(s))
    && (pc.AbandonUnclaimed? ==> s.nonce)
    && (pc.Handling? && Uncommitted(pc.wake) ==> pc.outer in {Racing, LeaseLost, AwaitingWake})
    && (Claimed(pc) ==> s.row.status == Queueing)
    && (pc.LinkRun? ==> !s.nonce)
    && (pc.RecoverDecide? && pc.woken ==> s.nonce)
    && (pc.RecoverIgnore? ==> s.nonce)
  }

  ghost predicate Excl(w: State) {
    && !w.s.slack
    && Exclusive(w.s)
    && (forall p :: p in w.procs ==> PcExcl(w.s, w.procs[p].pc))
    && (forall p, q ::
          (p in w.procs && q in w.procs && Claimed(w.procs[p].pc) && Claimed(w.procs[q].pc)) ==> p == q)
  }

  // ---- one process's step ----

  lemma HandlingExcl(s: Shared, inst: Inst, pc: Pc, h: HandlerAct)
    requires GlobalOk(s) && Exclusive(s) && PcExcl(s, pc) && pc.Handling? && HandlerEnabled(pc, h)
    requires h == RenewThrow ==> !Uncommitted(pc.wake) || pc.outer != Racing
    requires h == WakeReserve(true) ==> s.row.status != Observed || !CanReserveWake(s.row)
    ensures var m := HandlerMove(s, inst, pc, h);
      && Exclusive(m.s)
      && (m.pc.Some? ==> PcExcl(m.s, m.pc.value))
      && (s.row.status == Queueing ==> m.s.row.status == Queueing && m.s.nonce == s.nonce)
      && (!Engaged(pc) && HoldOk(s) ==> HoldOk(m.s))
  {
    if h.WakeReserve? || h.WakeCommit? || h.WakeReturn? || h.WakeThrow? { WakingExcl(s, inst, pc, h); }
    else { RacingExcl(s, inst, pc, h); }
  }

  lemma WakingExcl(s: Shared, inst: Inst, pc: Pc, h: HandlerAct)
    requires GlobalOk(s) && Exclusive(s) && PcExcl(s, pc) && pc.Handling? && HandlerEnabled(pc, h)
    requires h.WakeReserve? || h.WakeCommit? || h.WakeReturn? || h.WakeThrow?
    requires h == WakeReserve(true) ==> s.row.status != Observed || !CanReserveWake(s.row)
    ensures var m := HandlerMove(s, inst, pc, h);
      && Exclusive(m.s)
      && (m.pc.Some? ==> PcExcl(m.s, m.pc.value))
      && (s.row.status == Queueing ==> m.s.row.status == Queueing && m.s.nonce == s.nonce)
      && (!Engaged(pc) && HoldOk(s) ==> HoldOk(m.s))
  {
  }

  lemma RacingExcl(s: Shared, inst: Inst, pc: Pc, h: HandlerAct)
    requires GlobalOk(s) && Exclusive(s) && PcExcl(s, pc) && pc.Handling? && HandlerEnabled(pc, h)
    requires !h.WakeReserve? && !h.WakeCommit? && !h.WakeReturn? && !h.WakeThrow?
    requires h == RenewThrow ==> !Uncommitted(pc.wake) || pc.outer != Racing
    ensures var m := HandlerMove(s, inst, pc, h);
      && Exclusive(m.s)
      && (m.pc.Some? ==> PcExcl(m.s, m.pc.value))
      && (s.row.status == Queueing ==> m.s.row.status == Queueing && m.s.nonce == s.nonce)
      && (!Engaged(pc) && HoldOk(s) ==> HoldOk(m.s))
  {
  }

  lemma DeferringExcl(s: Shared, inst: Inst, pc: Pc, h: HandlerAct)
    requires GlobalOk(s) && Exclusive(s) && PcExcl(s, pc) && !pc.Handling? && HandlerEnabled(pc, h)
    ensures var m := HandlerMove(s, inst, pc, h);
      && Exclusive(m.s)
      && (m.pc.Some? ==> PcExcl(m.s, m.pc.value))
      && (s.row.status == Queueing ==> m.s.row.status == Queueing && m.s.nonce == s.nonce)
      && (m.pc.None? ==> m.s == s)
      && (m.pc.Some? ==> Engaged(m.pc.value))
  {
  }

  /** What a reconcile pass's step keeps for everybody else. */
  predicate PassKeeps(s: Shared, pc: Pc, m: Move) {
    && m.s.nonce == s.nonce && m.s.slack == s.slack
    && Exclusive(m.s)
    && (m.pc.Some? ==> PcExcl(m.s, m.pc.value) && !InHandler(m.pc.value))
    && (!Clears(s, pc) && HoldOk(s) ==> HoldOk(m.s))
    && (!Resets(s, pc) && !Claimed(pc) && s.row.status == Queueing ==> m.s.row.status == Queueing)
    && (m.pc.Some? && Claimed(m.pc.value) ==> Claimed(pc) || s.row.status == Received)
  }

  lemma RecoverExcl(s: Shared, inst: Inst, pc: Pc)
    requires GlobalOk(s) && Exclusive(s) && PcOk(s, pc) && PcExcl(s, pc) && !s.slack && InRecovery(pc)
    ensures PassKeeps(s, pc, RecoverStep(s, inst, pc))
  {
  }

  lemma QueueReadExcl(s: Shared, pc: Pc)
    requires GlobalOk(s) && Exclusive(s) && PcOk(s, pc) && PcExcl(s, pc) && !s.slack && QueueReads(pc)
    ensures PassKeeps(s, pc, QueueStep(s, pc))
  {
  }

  lemma QueueWriteExcl(s: Shared, pc: Pc)
    requires GlobalOk(s) && Exclusive(s) && PcOk(s, pc) && PcExcl(s, pc) && !s.slack
    requires InQueue(pc) && !pc.SendUser? && !QueueReads(pc)
    ensures PassKeeps(s, pc, QueueStep(s, pc))
  {
  }

  lemma DeliveryExcl(s: Shared, pc: Pc)
    requires GlobalOk(s) && Exclusive(s) && PcOk(s, pc) && !s.slack && InDelivery(pc) && !pc.Post?
    ensures PassKeeps(s, pc, DeliveryStep(s, pc))
  {
  }

  lemma RetryExcl(s: Shared, pc: Pc)
    requires GlobalOk(s) && Exclusive(s) && PcOk(s, pc) && !s.slack && InRetry(pc)
    ensures PassKeeps(s, pc, RetryStep(s, pc))
  {
  }

  lemma ScanExcl(s: Shared, inst: Inst, pc: Pc)
    requires GlobalOk(s) && Exclusive(s) && PcOk(s, pc) && !s.slack && PassEnabled(pc, Go)
    requires !InRecovery(pc) && !InQueue(pc) && !InDelivery(pc) && !InRetry(pc)
    ensures PassKeeps(s, pc, PassMove(s, inst, pc, Go))
  {
  }

  lemma ThrowExcl(s: Shared, inst: Inst, pc: Pc)
    requires GlobalOk(s) && Exclusive(s) && !s.slack && PassEnabled(pc, Throw)
    ensures var m := PassMove(s, inst, pc, Throw);
      m.s == s && (m.pc.Some? ==> PcExcl(s, m.pc.value) && !InHandler(m.pc.value) && !Claimed(m.pc.value))
  {
  }

  lemma ChoiceExcl(s: Shared, inst: Inst, pc: Pc, a: PassAct)
    requires GlobalOk(s) && Exclusive(s) && PcOk(s, pc) && PcExcl(s, pc) && !s.slack
    requires a != Go && a != Throw && PassEnabled(pc, a)
    ensures var m := PassMove(s, inst, pc, a);
      && m.s.row == s.row && m.s.nonce == s.nonce && m.s.slack == s.slack
      && (m.pc.Some? ==> PcExcl(m.s, m.pc.value) && !InHandler(m.pc.value)
                         && (Claimed(m.pc.value) ==> Claimed(pc)))
  {
  }

  lemma PassExcl(s: Shared, inst: Inst, pc: Pc, a: PassAct)
    requires GlobalOk(s) && Exclusive(s) && PcOk(s, pc) && PcExcl(s, pc) && !s.slack && PassEnabled(pc, a)
    ensures var m := PassMove(s, inst, pc, a);
      && m.s.nonce == s.nonce && m.s.slack == s.slack
      && Exclusive(m.s)
      && (m.pc.Some? ==> PcExcl(m.s, m.pc.value) && !InHandler(m.pc.value))
      && (!(a == Go && Clears(s, pc)) && HoldOk(s) ==> HoldOk(m.s))
      && (!(a == Go && Resets(s, pc)) && !Claimed(pc) && s.row.status == Queueing ==> m.s.row.status == Queueing)
      && (m.pc.Some? && Claimed(m.pc.value) ==> Claimed(pc) || s.row.status == Received)
  {
    if a == Throw { ThrowExcl(s, inst, pc); }
    else if a != Go { ChoiceExcl(s, inst, pc, a); }
    else { GoExcl(s, inst, pc); }
  }

  lemma GoExcl(s: Shared, inst: Inst, pc: Pc)
    requires GlobalOk(s) && Exclusive(s) && PcOk(s, pc) && PcExcl(s, pc) && !s.slack && PassEnabled(pc, Go)
    ensures PassKeeps(s, pc, PassMove(s, inst, pc, Go))
  {
    if InRecovery(pc) { RecoverExcl(s, inst, pc); }
    else if QueueReads(pc) { QueueReadExcl(s, pc); }
    else if InQueue(pc) { QueueWriteExcl(s, pc); }
    else if InDelivery(pc) { DeliveryExcl(s, pc); }
    else if InRetry(pc) { RetryExcl(s, pc); }
    else { ScanExcl(s, inst, pc); }
  }

  // ---- the whole system ----

  /** What a handler's step keeps for everybody else. */
  predicate HandlerKeeps(s: Shared, pc: Pc, m: Move) {
    && m.s.slack == s.slack && Exclusive(m.s)
    && (m.pc.Some? ==> PcExcl(m.s, m.pc.value) && !Claimed(m.pc.value) && (Engaged(m.pc.value) || pc.Handling?))
    && (s.nonce ==> m.s.nonce)
    && (s.row.status == Queueing ==> m.s.row.status == Queueing && m.s.nonce == s.nonce)
    && (!Engaged(pc) && HoldOk(s) ==> HoldOk(m.s) || (m.pc.Some? && Engaged(m.pc.value)))
  }

  lemma HandlerKeepsOthers(s: Shared, inst: Inst, pc: Pc, h: HandlerAct)
    requires GlobalOk(s) && Exclusive(s) && PcExcl(s, pc) && HandlerEnabled(pc, h)
    requires h == RenewThrow ==> pc.Handling? && (!Uncommitted(pc.wake) || pc.outer != Racing)
    requires h == WakeReserve(true) ==> s.row.status != Observed || !CanReserveWake(s.row)
    ensures HandlerKeeps(s, pc, HandlerMove(s, inst, pc, h))
  {
    if pc.Handling? { HandlingExcl(s, inst, pc, h); HandlingStays(s, inst, pc, h); }
    else { DeferringExcl(s, inst, pc, h); DeferringStays(s, inst, pc, h); }
  }

  lemma HandlingStays(s: Shared, inst: Inst, pc: Pc, h: HandlerAct)
    requires pc.Handling? && HandlerEnabled(pc, h)
    ensures var m := HandlerMove(s, inst, pc, h);
      m.s.slack == s.slack && (s.nonce ==> m.s.nonce) && (m.pc.Some? ==> m.pc.value.Handling?)
  {
  }

  lemma DeferringStays(s: Shared, inst: Inst, pc: Pc, h: HandlerAct)
    requires !pc.Handling? && HandlerEnabled(pc, h)
    ensures var m := HandlerMove(s, inst, pc, h);
      m.s.slack == s.slack && m.s.nonce == s.nonce && (m.pc.Some? ==> !Claimed(m.pc.value))
  {
  }

  /** Another process's obligations survive a handler's step. */
  lemma KeptByHandler(s: Shared, pc: Pc, m: Move, other: Pc)
    requires HandlerKeeps(s, pc, m) && PcExcl(s, other)
    requires Reserving(other) ==> !Engaged(pc) && !(m.pc.Some? && Engaged(m.pc.value))
    ensures PcExcl(m.s, other)
  {
  }

  lemma PlaceExcl(w: State, p: Pid, m: Move)
    requires Excl(w) && p in w.procs && HandlerKeeps(w.s, w.procs[p].pc, m)
    requires OneEngaged(w) && OneEngaged(Place(w, p, m))
    ensures Excl(Place(w, p, m))
  {
    var w' := Place(w, p, m);
    assert m.pc.Some? ==> p in w'.procs && w'.procs[p].pc == m.pc.value;
    forall q | q in w'.procs && q != p ensures PcExcl(w'.s, w'.procs[q].pc) {
      // if q is reserving, it is the one engaged handler before and after
      KeptByHandler(w.s, w.procs[p].pc, m, w.procs[q].pc);
    }
  }

  lemma HandlerStepExcl(w: State, p: Pid, h: HandlerAct)
    requires Safe(w) && Excl(w) && Enabled(w, Handler(p, h)) && Protected(w, Handler(p, h))
    ensures Excl(Step(w, Handler(p, h)))
  {
    var proc := w.procs[p];
    assert PcExcl(w.s, proc.pc);
    HandlerKeepsOthers(w.s, proc.inst, proc.pc, h);
    PlaceExcl(w, p, HandlerMove(w.s, proc.inst, proc.pc, h));
  }

  lemma PassStepExcl(w: State, p: Pid, a: PassAct)
    requires Safe(w) && Excl(w) && Enabled(w, Pass(p, a)) && Protected(w, Pass(p, a))
    ensures Excl(Step(w, Pass(p, a)))
  {
    var proc := w.procs[p];
    var w' := Step(w, Pass(p, a));
    assert PcOk(w.s, proc.pc);
    PassExcl(w.s, proc.inst, proc.pc, a);
    forall q | q in w'.procs && q != p
      ensures PcExcl(w'.s, w'.procs[q].pc)
      ensures p in w'.procs && Claimed(w'.procs[p].pc) ==> !Claimed(w'.procs[q].pc)
    {
      assert PcExcl(w.s, w.procs[q].pc);
    }
  }

  lemma StepExcl(w: State, a: Action)
    requires Safe(w) && Excl(w) && Enabled(w, a) && Protected(w, a)
    ensures Excl(Step(w, a))
  {
    match a
    case Handler(p, h) => HandlerStepExcl(w, p, h);
    case Pass(p, b) => PassStepExcl(w, p, b);
    case _ => OtherStepExcl(w, a);
  }

  /** Deliveries, passes that start, restarts, crashes, the clock and the run's own end. */
  lemma OtherStepExcl(w: State, a: Action)
    requires Safe(w) && Excl(w) && Enabled(w, a) && Protected(w, a) && !a.Handler? && !a.Pass?
    ensures Excl(Step(w, a))
  {
  }

  /** Every step of the run meets the step conditions. */
  ghost predicate ProtectedRun(w: State, acts: seq<Action>)
    requires IsRun(w, acts)
    decreases |acts|
  {
    acts == [] || (Protected(w, acts[0]) && ProtectedRun(Step(w, acts[0]), acts[1..]))
  }

  lemma {:induction false} RunExcl(w: State, acts: seq<Action>)
    requires Safe(w) && (w.s.slack || Excl(w)) && IsRun(w, acts) && ProtectedRun(w, acts)
    ensures Exclusive(After(w, acts).s)
    decreases |acts|
  {
    if acts != [] {
      StepSafe(w, acts[0]);
      if !w.s.slack { StepExcl(w, acts[0]); }
      RunExcl(Step(w, acts[0]), acts[1..]);
    }
  }

  /** Exclusivity in every state of every protected run, for either provider branch. */
  lemma WakeAndAgentExclude(w: State, acts: seq<Action>)
    requires Init(w) && IsRun(w, acts) && ProtectedRun(w, acts)
    ensures Exclusive(After(w, acts).s)
  {
    InitSafe(w);
    RunExcl(w, acts);
  }
}
