/** The two deployments under which exclusivity is claimed, and why each meets the step
    conditions: (1) one bridge instance that may crash and restart, where reconcile passes
    are serialised and inFlightRoutineWakes shields running wakes; (2) any number of
    instances, where leases do not run out while their holder is at work. */
module TeamChatDeployments {
  import opened Wrappers
  import opened TeamChatRow
  import opened TeamChatProtocol
  import opened TeamChatSafety
  import opened TeamChatExclusivity

  /** Times a process remembers lie in the past. */
  predicate TimeOk(s: Shared, pc: Pc) {
    (InRecovery(pc) ==> pc.t <= s.now) && (pc.Upserted? ==> pc.at <= s.now)
  }

  ghost predicate TimesOk(w: State) {
    forall p :: p in w.procs ==> TimeOk(w.s, w.procs[p].pc)
  }

  /** A pass stays a pass, takes no time, and remembers the time it began with. */
  predicate Onward(s: Shared, pc: Pc, m: Move) {
    && m.s.now == s.now
    && (m.pc.Some? ==> !InHandler(m.pc.value) && (InRecovery(m.pc.value) ==> InRecovery(pc) && m.pc.value.t == pc.t))
  }

  lemma PassOnward(s: Shared, inst: Inst, pc: Pc, a: PassAct)
    requires PassEnabled(pc, a)
    ensures Onward(s, pc, PassMove(s, inst, pc, a))
  {
    if a != Go { ChoiceOnward(s, inst, pc, a); }
    else if InRecovery(pc) { RecoverOnward(s, inst, pc); }
    else if InQueue(pc) { QueueOnward(s, pc); }
    else if InDelivery(pc) { DeliveryOnward(s, pc); }
    else if InRetry(pc) { RetryOnward(s, pc); }
    else { ScanOnward(s, inst, pc); }
  }

  lemma ChoiceOnward(s: Shared, inst: Inst, pc: Pc, a: PassAct)
    requires PassEnabled(pc, a) && a != Go
    ensures Onward(s, pc, PassMove(s, inst, pc, a))
  {
  }

  lemma RecoverOnward(s: Shared, inst: Inst, pc: Pc)
    requires InRecovery(pc)
    ensures Onward(s, pc, RecoverStep(s, inst, pc))
  {
  }

  lemma QueueOnward(s: Shared, pc: Pc)
    requires InQueue(pc) && !pc.SendUser?
    ensures Onward(s, pc, QueueStep(s, pc))
  {
  }

  lemma DeliveryOnward(s: Shared, pc: Pc)
    requires InDelivery(pc) && !pc.Post?
    ensures Onward(s, pc, DeliveryStep(s, pc))
  {
  }

  lemma RetryOnward(s: Shared, pc: Pc)
    requires InRetry(pc)
    ensures Onward(s, pc, RetryStep(s, pc))
  {
  }

  lemma ScanOnward(s: Shared, inst: Inst, pc: Pc)
    requires PassEnabled(pc, Go) && !InRecovery(pc) && !InQueue(pc) && !InDelivery(pc) && !InRetry(pc)
    ensures Onward(s, pc, PassMove(s, inst, pc, Go))
  {
  }

  lemma StepTime(w: State, a: Action)
    requires Enabled(w, a) && TimesOk(w) && w.s.now <= Step(w, a).s.now
    ensures TimesOk(Step(w, a))
  {
    var w' := Step(w, a);
    if a.Pass? {
      PassOnward(w.s, w.procs[a.pid].inst, w.procs[a.pid].pc, a.p);
    }
    forall p | p in w'.procs ensures TimeOk(w'.s, w'.procs[p].pc) {
      if p in w.procs { assert TimeOk(w.s, w.procs[p].pc); }
    }
  }

  // ---- several instances ----

  /** A handler that has won the deferral, or will because the row it created carries its lease. */
  predicate Deferring(pc: Pc) {
    Engaged(pc) || (pc.Upserted? && CarriesOwnLease(pc.snapshot, pc.at))
  }

  ghost predicate NoneDeferring(w: State) {
    forall p :: p in w.procs ==> !Deferring(w.procs[p].pc)
  }

  /** What is asked of time and load: routing and queue leases outlive their holders, no two
      deliveries defer the row at one instant, renewals do not throw under a running wake, and no
      retry resets a row whose queue attempt is still running elsewhere. */
  ghost predicate LeasesOutlive(w: State, a: Action)
    requires Enabled(w, a)
  {
    && (w.s.row.status == Deferred && ExpiredBy(w.s.row.lease, w.s.now) ==> NoneDeferring(w))
    && (a.Inbound? ==> !CarriesOwnLease(w.s.row, w.s.now))
    && !RenewalThrows(w, a)
    && (w.s.row.status == Queueing && ExpiredBy(w.s.row.lease, w.s.now) ==> NoneClaimed(w))
    && (a.Pass? && a.p == Go && w.procs[a.pid].pc.RetryWrite? && Resets(w.s, w.procs[a.pid].pc)
        ==> NoneClaimed(w))
  }

  ghost predicate LeasedRun(w: State, acts: seq<Action>)
    requires IsRun(w, acts)
    decreases |acts|
  {
    acts == [] || (LeasesOutlive(w, acts[0]) && LeasedRun(Step(w, acts[0]), acts[1..]))
  }

  /** The lease keeps a second handler out: one handler defers the row at a time, and while it does
      the row stays deferred unless its wake has taken it. */
  predicate DeferHeld(s: Shared) {
    s.row.status == Deferred || (s.nonce && s.row.status == Ignored)
  }

  ghost predicate Sole(w: State) {
    && (forall p, q ::
          (p in w.procs && q in w.procs && Deferring(w.procs[p].pc) && Deferring(w.procs[q].pc)) ==> p == q)
    && (forall p :: p in w.procs && Deferring(w.procs[p].pc) ==> DeferHeld(w.s))
  }

  lemma HandlingHolds(s: Shared, inst: Inst, pc: Pc, h: HandlerAct)
    requires PcExcl(s, pc) && pc.Handling? && HandlerEnabled(pc, h)
    ensures var m := HandlerMove(s, inst, pc, h);
      && (m.pc.Some? && Deferring(m.pc.value) ==> Deferring(pc))
      && (DeferHeld(s) && (!Deferring(pc) || (m.pc.Some? && Deferring(m.pc.value))) ==> DeferHeld(m.s))
  {
  }

  /** A deferral is only won with the own lease or on a row nobody defers. */
  lemma DeferralHolds(s: Shared, inst: Inst, pc: Pc, h: HandlerAct)
    requires !pc.Handling? && HandlerEnabled(pc, h)
    ensures var m := HandlerMove(s, inst, pc, h);
      && (m.pc.Some? && Deferring(m.pc.value) ==> Deferring(pc) || (pc.Upserted? && CanDefer(s.row, pc.at)))
      && (DeferHeld(s) ==> DeferHeld(m.s))
      && (m.pc.Some? && Deferring(m.pc.value) && !Deferring(pc) ==> DeferHeld(m.s))
  {
  }

  /** While the lease lasts, no reconcile pass takes the row from its handler. */
  lemma PassHolds(s: Shared, inst: Inst, pc: Pc, a: PassAct)
    requires PassEnabled(pc, a) && PcOk(s, pc) && TimeOk(s, pc) && !s.slack && DeferHeld(s)
    requires s.row.status == Deferred ==> !ExpiredBy(s.row.lease, s.now)
    ensures DeferHeld(PassMove(s, inst, pc, a).s)
  {
    if a == Go && InQueue(pc) { QueueHolds(s, pc); }
    else if a == Go && InDelivery(pc) { assert false; }
    else if a == Go && InRetry(pc) { RetryHolds(s, pc); }
    else if a == Go && InRecovery(pc) { RecoverHolds(s, inst, pc); }
    else { OtherHolds(s, inst, pc, a); }
  }

  lemma QueueHolds(s: Shared, pc: Pc)
    requires InQueue(pc) && !pc.SendUser? && DeferHeld(s)
    ensures DeferHeld(QueueStep(s, pc).s)
  {
  }

  lemma RetryHolds(s: Shared, pc: Pc)
    requires InRetry(pc) && PcOk(s, pc) && DeferHeld(s)
    ensures DeferHeld(RetryStep(s, pc).s)
  {
  }

  lemma RecoverHolds(s: Shared, inst: Inst, pc: Pc)
    requires InRecovery(pc) && TimeOk(s, pc) && DeferHeld(s)
    requires s.row.status == Deferred ==> !ExpiredBy(s.row.lease, s.now)
    ensures DeferHeld(RecoverStep(s, inst, pc).s)
  {
  }

  lemma OtherHolds(s: Shared, inst: Inst, pc: Pc, a: PassAct)
    requires PassEnabled(pc, a) && PcOk(s, pc) && !s.slack && DeferHeld(s)
    requires a == Go ==> !InQueue(pc) && !InDelivery(pc) && !InRetry(pc) && !InRecovery(pc)
    ensures DeferHeld(PassMove(s, inst, pc, a).s)
  {
  }

  lemma HandlerSole(w: State, p: Pid, h: HandlerAct)
    requires Excl(w) && TimesOk(w) && Sole(w)
    requires Enabled(w, Handler(p, h)) && LeasesOutlive(w, Handler(p, h))
    ensures Sole(Step(w, Handler(p, h)))
  {
    var proc := w.procs[p];
    assert PcExcl(w.s, proc.pc) && TimeOk(w.s, proc.pc);
    if proc.pc.Handling? { HandlingHolds(w.s, proc.inst, proc.pc, h); }
    else { DeferralHolds(w.s, proc.inst, proc.pc, h); }
    PlaceSole(w, p, HandlerMove(w.s, proc.inst, proc.pc, h));
  }

  lemma PlaceSole(w: State, p: Pid, m: Move)
    requires Sole(w) && p in w.procs
    requires m.pc.Some? && Deferring(m.pc.value) ==>
      if Deferring(w.procs[p].pc) then DeferHeld(w.s) ==> DeferHeld(m.s) else NoneDeferring(w) && DeferHeld(m.s)
    requires !Deferring(w.procs[p].pc) && DeferHeld(w.s) ==> DeferHeld(m.s)
    ensures Sole(Place(w, p, m))
  {
    var w' := Place(w, p, m);
    forall q | q in w'.procs && q != p ensures w'.procs[q] == w.procs[q] {}
  }

  lemma StepSole(w: State, a: Action)
    requires Safe(w) && Excl(w) && TimesOk(w) && Sole(w) && Enabled(w, a) && LeasesOutlive(w, a)
    ensures Sole(Step(w, a))
  {
    match a
    case Handler(p, h) => HandlerSole(w, p, h);
    case Pass(p, b) => PassSole(w, p, b);
    case Inbound(_) =>
    case Crash(_) =>
    case _ =>
  }

  lemma PassSole(w: State, p: Pid, b: PassAct)
    requires Safe(w) && Excl(w) && TimesOk(w) && Sole(w) && Enabled(w, Pass(p, b)) && LeasesOutlive(w, Pass(p, b))
    ensures Sole(Step(w, Pass(p, b)))
  {
    var proc := w.procs[p];
    assert PcOk(w.s, proc.pc) && TimeOk(w.s, proc.pc);
    PassOnward(w.s, proc.inst, proc.pc, b);
    if !(w.s.row.status == Deferred && ExpiredBy(w.s.row.lease, w.s.now)) && DeferHeld(w.s) {
      PassHolds(w.s, proc.inst, proc.pc, b);
    }
    PassPlacesSole(w, p, PassMove(w.s, proc.inst, proc.pc, b));
  }

  lemma PassPlacesSole(w: State, p: Pid, m: Move)
    requires Sole(w) && p in w.procs && !InHandler(w.procs[p].pc) && (m.pc.Some? ==> !InHandler(m.pc.value))
    requires NoneDeferring(w) || (DeferHeld(w.s) ==> DeferHeld(m.s))
    ensures Sole(Place(w, p, m))
  {
    var w' := Place(w, p, m);
    forall q | q in w'.procs && Deferring(w'.procs[q].pc) ensures q in w.procs && w'.procs[q] == w.procs[q] {}
  }

  lemma LeasedIsProtected(w: State, a: Action)
    requires Enabled(w, a) && Excl(w) && TimesOk(w) && Sole(w) && Sole(Step(w, a)) && LeasesOutlive(w, a)
    ensures Protected(w, a)
  {
    forall p | p in w.procs && w.procs[p].pc.Handling? && Uncommitted(w.procs[p].pc.wake)
      ensures Deferring(w.procs[p].pc)
    {
      assert PcExcl(w.s, w.procs[p].pc);
    }
    if a.Pass? { assert TimeOk(w.s, w.procs[a.pid].pc); }
  }

  lemma {:induction false} LeasedRunProtected(w: State, acts: seq<Action>)
    requires Safe(w) && Excl(w) && TimesOk(w) && Sole(w) && IsRun(w, acts) && LeasedRun(w, acts)
    ensures ProtectedRun(w, acts)
    decreases |acts|
  {
    if acts != [] {
      StepSole(w, acts[0]);
      LeasedIsProtected(w, acts[0]);
      StepSafe(w, acts[0]);
      StepTime(w, acts[0]);
      StepExcl(w, acts[0]);
      LeasedRunProtected(Step(w, acts[0]), acts[1..]);
    }
  }

  /** Exclusivity over any number of bridge instances. */
  lemma ManyInstancesExclude(w: State, acts: seq<Action>)
    requires Init(w) && IsRun(w, acts) && LeasedRun(w, acts)
    ensures Exclusive(After(w, acts).s)
  {
    InitSafe(w);
    if w.s.slack {
      RunSafe(w, acts);
      RunSlack(w, acts);
    } else {
      LeasedRunProtected(w, acts);
      WakeAndAgentExclude(w, acts);
    }
  }

  lemma {:induction false} RunSole(w: State, acts: seq<Action>)
    requires Safe(w) && Excl(w) && TimesOk(w) && Sole(w) && IsRun(w, acts) && LeasedRun(w, acts)
    ensures Sole(After(w, acts))
    decreases |acts|
  {
    if acts != [] {
      StepSole(w, acts[0]);
      LeasedIsProtected(w, acts[0]);
      StepSafe(w, acts[0]);
      StepTime(w, acts[0]);
      StepExcl(w, acts[0]);
      RunSole(Step(w, acts[0]), acts[1..]);
    }
  }

  /** The deferred lease admits one handler at a time: over every such run, however many deliveries of
      the event arrive on however many instances. */
  lemma LeaseAdmitsOneHandler(w: State, acts: seq<Action>)
    requires Init(w) && !w.s.slack && IsRun(w, acts) && LeasedRun(w, acts)
    ensures OneEngaged(After(w, acts))
  {
    InitSafe(w);
    RunSole(w, acts);
  }

  // ---- one instance ----

  /** A handler from its deferral to its return. */
  predicate Running(pc: Pc) {
    pc.DeferredHere? || pc.Held? || (pc.Handling? && pc.outer != Orphan)
  }

  ghost predicate OneRunning(w: State) {
    forall p, q ::
      (p in w.procs && q in w.procs && Running(w.procs[p].pc) && Running(w.procs[q].pc)) ==> p == q
  }

  /** The instance an action starts a process on, if any. */
  predicate On(a: Action, inst: Inst) {
    (a.Inbound? || a.PassStart? || a.Restart?) ==> a.inst == inst
  }

  /** The step by which a delivery gets to route the event. */
  predicate WinsDeferral(w: State, a: Action)
    requires Enabled(w, a)
  {
    && a.Handler? && a.h == TryDefer
    && HandlerMove(w.s, w.procs[a.pid].inst, w.procs[a.pid].pc, TryDefer).pc.Some?
  }

  ghost predicate NoneRunning(w: State) {
    forall p :: p in w.procs ==> !Running(w.procs[p].pc)
  }

  /** One instance, no delivery winning the deferral while a handler is at work, no renewal that
      throws before the wake committed, and no wake that reserves a row the ambient judge has
      already been given.  Leases may expire at any time, and the instance may crash and restart. */
  ghost predicate OneInstance(w: State, a: Action, inst: Inst)
    requires Enabled(w, a)
  {
    && On(a, inst)
    && (WinsDeferral(w, a) ==> NoneRunning(w))
    && !RenewalThrows(w, a) && !ReservesObserved(w, a)
  }

  ghost predicate OneInstanceRun(w: State, acts: seq<Action>, inst: Inst)
    requires IsRun(w, acts)
    decreases |acts|
  {
    acts == [] || (OneInstance(w, acts[0], inst) && OneInstanceRun(Step(w, acts[0]), acts[1..], inst))
  }

  ghost predicate OnePass(w: State) {
    forall p, q ::
      (p in w.procs && q in w.procs && !InHandler(w.procs[p].pc) && !InHandler(w.procs[q].pc)) ==> p == q
  }

  /** The update that clears orphaned ownership was decided before the wake's reservation. */
  predicate Shielded(s: Shared, pass: Pc, handler: Pc) {
    pass.RecoverClear? && Reserving(handler) ==> !ExpiredBy(s.row.lease, pass.t)
  }

  /** Between marking its wake in flight and returning. */
  predicate Marked(pc: Pc) {
    pc.Handling? && pc.outer != Orphan
  }

  /** Handlers stay the only ones at work unless a delivery wins the deferral. */
  lemma StepRunning(w: State, a: Action, inst: Inst)
    requires Enabled(w, a) && OneRunning(w) && OneInstance(w, a, inst) && (forall p :: p in w.procs ==> p < w.nextPid)
    ensures OneRunning(Step(w, a))
  {
    match a
    case Handler(p, h) => HandlerRuns(w.s, w.procs[p].inst, w.procs[p].pc, h);
    case Pass(p, b) => PassOnward(w.s, w.procs[p].inst, w.procs[p].pc, b);
    case _ =>
  }

  lemma HandlerRuns(s: Shared, inst: Inst, pc: Pc, h: HandlerAct)
    requires HandlerEnabled(pc, h)
    ensures var m := HandlerMove(s, inst, pc, h); m.pc.Some? && Running(m.pc.value) ==> Running(pc) || h == TryDefer
  {
  }

  ghost predicate Single(w: State, inst: Inst) {
    && (forall p :: p in w.procs ==> w.procs[p].inst == inst)
    && OnePass(w) && OneRunning(w)
    && (forall p :: p in w.procs && Marked(w.procs[p].pc) ==> inst in w.s.inFlight)
    && (forall p, q :: (p in w.procs && q in w.procs) ==> Shielded(w.s, w.procs[p].pc, w.procs[q].pc))
  }

  lemma SingleIsProtected(w: State, a: Action, inst: Inst)
    requires Enabled(w, a) && Single(w, inst) && OneInstance(w, a, inst) && OneRunning(Step(w, a))
    ensures Protected(w, a)
  {
    if a.Pass? {
      assert forall q :: q in w.procs ==> Shielded(w.s, w.procs[a.pid].pc, w.procs[q].pc);
    }
  }

  lemma HandlerLease(s: Shared, inst: Inst, pc: Pc, h: HandlerAct)
    requires PcExcl(s, pc) && HandlerEnabled(pc, h)
    ensures var m := HandlerMove(s, inst, pc, h);
      && m.s.now == s.now
      && (m.pc.Some? ==> InHandler(m.pc.value))
      && (m.pc.Some? && Reserving(m.pc.value) ==>
            || (m.s.row == s.row && Reserving(pc))
            || (m.s.row.lease.Some? && m.s.row.lease.value > s.now))
      && (m.pc.Some? && Marked(m.pc.value) ==> Marked(pc) || inst in m.s.inFlight)
      && (h != Finish ==> s.inFlight <= m.s.inFlight)
      && (m.s.row == s.row || Engaged(pc) || (m.pc.Some? && Engaged(m.pc.value))
          || (m.s.row.lease.Some? && m.s.row.lease.value > s.now))
  {
  }

  lemma HandlerShields(w: State, p: Pid, h: HandlerAct, inst: Inst, q: Pid, r: Pid)
    requires Excl(w) && TimesOk(w) && Single(w, inst) && Enabled(w, Handler(p, h)) && OneInstance(w, Handler(p, h), inst)
    requires Excl(Step(w, Handler(p, h))) && OneRunning(Step(w, Handler(p, h)))
    requires var w' := Step(w, Handler(p, h)); q in w'.procs && r in w'.procs
    ensures var w' := Step(w, Handler(p, h)); Shielded(w'.s, w'.procs[q].pc, w'.procs[r].pc)
  {
    var w' := Step(w, Handler(p, h));
    assert PcExcl(w.s, w.procs[p].pc);
    HandlerLease(w.s, inst, w.procs[p].pc, h);
    if w'.procs[q].pc.RecoverClear? && Reserving(w'.procs[r].pc) {
      assert q != p && TimeOk(w.s, w.procs[q].pc) && Shielded(w.s, w.procs[q].pc, w.procs[r].pc);
      if r != p {
        assert PcExcl(w.s, w.procs[r].pc);
        assert Running(w'.procs[r].pc) && Running(w.procs[r].pc);
        assert !Running(w.procs[p].pc);
        assert p in w'.procs ==> !Running(w'.procs[p].pc);
      }
    }
  }

  lemma HandlerMarks(w: State, p: Pid, h: HandlerAct, inst: Inst, q: Pid)
    requires Excl(w) && Single(w, inst) && Enabled(w, Handler(p, h)) && OneInstance(w, Handler(p, h), inst)
    requires Excl(Step(w, Handler(p, h))) && OneRunning(Step(w, Handler(p, h)))
    requires var w' := Step(w, Handler(p, h)); q in w'.procs && Marked(w'.procs[q].pc)
    ensures inst in Step(w, Handler(p, h)).s.inFlight
  {
    var w' := Step(w, Handler(p, h));
    assert PcExcl(w.s, w.procs[p].pc);
    HandlerLease(w.s, inst, w.procs[p].pc, h);
    assert PcExcl(w'.s, w'.procs[q].pc);
    assert Running(w'.procs[q].pc);
  }

  lemma HandlerSingle(w: State, p: Pid, h: HandlerAct, inst: Inst)
    requires Safe(w) && Excl(w) && TimesOk(w) && Single(w, inst)
    requires Enabled(w, Handler(p, h)) && OneInstance(w, Handler(p, h), inst)
    requires Excl(Step(w, Handler(p, h))) && OneRunning(Step(w, Handler(p, h)))
    ensures Single(Step(w, Handler(p, h)), inst)
  {
    var w' := Step(w, Handler(p, h));
    assert PcExcl(w.s, w.procs[p].pc);
    HandlerLease(w.s, inst, w.procs[p].pc, h);
    forall q, r | q in w'.procs && r in w'.procs
      ensures Shielded(w'.s, w'.procs[q].pc, w'.procs[r].pc)
    {
      HandlerShields(w, p, h, inst, q, r);
    }
    forall q | q in w'.procs && Marked(w'.procs[q].pc) ensures inst in w'.s.inFlight {
      HandlerMarks(w, p, h, inst, q);
    }
  }

  lemma PassSingle(w: State, p: Pid, b: PassAct, inst: Inst)
    requires Safe(w) && Excl(w) && TimesOk(w) && Single(w, inst)
    requires Enabled(w, Pass(p, b)) && OneInstance(w, Pass(p, b), inst)
    ensures Single(Step(w, Pass(p, b)), inst)
  {
    var w' := Step(w, Pass(p, b));
    var pc := w.procs[p].pc;
    assert PcOk(w.s, pc) && PcExcl(w.s, pc) && TimeOk(w.s, pc);
    PassExcl(w.s, inst, pc, b);
    PassClears(w.s, inst, pc, b);
    forall q, r | q in w'.procs && r in w'.procs
      ensures Shielded(w'.s, w'.procs[q].pc, w'.procs[r].pc)
    {
      // the instance of a reserving wake is marked in flight, so no pass goes on to clear its row
      if r in w.procs { assert PcExcl(w.s, w.procs[r].pc); }
    }
  }

  /** A pass only decides to clear ownership when no wake is marked in flight, and writes nothing then. */
  lemma PassClears(s: Shared, inst: Inst, pc: Pc, b: PassAct)
    requires PassEnabled(pc, b)
    ensures var m := PassMove(s, inst, pc, b);
      && m.s.inFlight == s.inFlight
      && (m.pc.Some? && m.pc.value.RecoverClear? ==>
            && pc.RecoverDecide? && m.pc.value.t == pc.t && m.s == s && inst !in s.inFlight)
  {
  }

  lemma StepSingle(w: State, a: Action, inst: Inst)
    requires Safe(w) && Excl(w) && TimesOk(w) && Single(w, inst)
    requires Enabled(w, a) && OneInstance(w, a, inst) && Excl(Step(w, a)) && OneRunning(Step(w, a))
    ensures Single(Step(w, a), inst)
  {
    match a
    case Handler(p, h) => HandlerSingle(w, p, h, inst);
    case Pass(p, b) => PassSingle(w, p, b, inst);
    case PassStart(_) => StartSingle(w, a, inst);
    case Inbound(_) => StartSingle(w, a, inst);
    case _ =>
  }

  lemma StartSingle(w: State, a: Action, inst: Inst)
    requires Safe(w) && TimesOk(w) && Single(w, inst) && (a.PassStart? || a.Inbound?)
    requires Enabled(w, a) && OneInstance(w, a, inst)
    ensures Single(Step(w, a), inst)
  {
  }

  lemma {:induction false} SingleRunProtected(w: State, acts: seq<Action>, inst: Inst)
    requires Safe(w) && Excl(w) && TimesOk(w) && Single(w, inst)
    requires IsRun(w, acts) && OneInstanceRun(w, acts, inst)
    ensures ProtectedRun(w, acts)
    decreases |acts|
  {
    if acts != [] {
      StepRunning(w, acts[0], inst);
      SingleIsProtected(w, acts[0], inst);
      StepSafe(w, acts[0]);
      StepTime(w, acts[0]);
      StepExcl(w, acts[0]);
      StepSingle(w, acts[0], inst);
      SingleRunProtected(Step(w, acts[0]), acts[1..], inst);
    }
  }

  /** Exclusivity for one bridge instance: leases may run out at any time, calls may fail, and
      the instance may crash and restart at any point. */
  lemma OneInstanceExcludes(w: State, acts: seq<Action>, inst: Inst)
    requires Init(w) && (forall p :: p in w.procs ==> w.procs[p].inst == inst)
    requires IsRun(w, acts) && OneInstanceRun(w, acts, inst)
    ensures Exclusive(After(w, acts).s)
  {
    InitSafe(w);
    if w.s.slack {
      RunSafe(w, acts);
      RunSlack(w, acts);
    } else {
      SingleRunProtected(w, acts, inst);
      WakeAndAgentExclude(w, acts);
    }
  }

  lemma {:induction false} RunSlack(w: State, acts: seq<Action>)
    requires Safe(w) && IsRun(w, acts)
    ensures After(w, acts).s.slack == w.s.slack
    decreases |acts|
  {
    if acts != [] {
      StepSafe(w, acts[0]);
      RunSlack(Step(w, acts[0]), acts[1..]);
    }
  }
}
