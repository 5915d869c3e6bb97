/** What holds in every reachable state with no assumption on time, on the number of
    instances or handlers, or on which calls fail: statuses only move forward, ownership
    and run link agree with the status, and the provider is asked to post at most once. */
module TeamChatSafety {
  import opened Wrappers
  import opened TeamChatRow
  import opened TeamChatProtocol

  /** Holds the right to post: won reserveDelivery and has not posted yet. */
  predicate Sender(pc: Pc) {
    pc.ReadHandle? || pc.Post?
  }

  predicate KnowsRun(pc: Pc) {
    pc.FindAfterSend? || pc.CancelRun? || pc.LinkRun? || pc.EnqueueRun?
  }

  predicate RunIs(s: Shared, id: nat) {
    s.run.Some? && s.run.value.id == id
  }

  predicate RunOver(s: Shared, id: nat) {
    RunIs(s, id) && s.run.value.state != Active
  }

  predicate PcOk(s: Shared, pc: Pc) {
    && (InQueue(pc) ==> !s.slack)
    && (pc.QueueSlack? ==> s.slack)
    && (InDelivery(pc) ==> Linked(s.row.status))
    && (Sender(pc) ==> Posting(s.row.status) && s.sends == 0)
    && (pc.SaveHandle? || pc.Finalize? || pc.RetryFinalize? ==> Posting(s.row.status))
    && (pc.AmbientTrigger? ==> pc.reason == NoReason || pc.reason.Text?)
    && (KnowsRun(pc) ==> RunIs(s, pc.run))
    && (pc.AbandonClaimed? && pc.cancelled.Some? ==> RunOver(s, pc.cancelled.value))
  }

  predicate GlobalOk(s: Shared) {
    && RowInv(s.row)
    && (s.slack ==> !Linked(s.row.status) && s.row.status != Queueing)
    && (s.row.runId.Some? ==> RunIs(s, s.row.runId.value))
    && s.sends <= 1
    && (s.sends == 1 ==> Posting(s.row.status))
  }

  ghost predicate ProcsOk(w: State) {
    forall p :: p in w.procs ==> p < w.nextPid && PcOk(w.s, w.procs[p].pc)
  }

  ghost predicate OneSender(w: State) {
    forall p, q :: p in w.procs && q in w.procs && Sender(w.procs[p].pc) && Sender(w.procs[q].pc) ==> p == q
  }

  ghost predicate Safe(w: State) {
    GlobalOk(w.s) && ProcsOk(w) && OneSender(w)
  }

  /** What any step does to the shared state: statuses forward, the run created once and
      never revived, the nonce never lost. */
  predicate Evolves(s: Shared, s': Shared) {
    && Forward(s.row, s'.row)
    && s'.slack == s.slack
    && (s.run.Some? ==> RunIs(s', s.run.value.id))
    && (s.run.Some? && s.run.value.state != Active ==> s'.run == s.run)
    && s.sends <= s'.sends
    && (s.nonce ==> s'.nonce)
    && s.now <= s'.now
  }

  /** A step of one process fits the new shared state, and it holds the right to post
      afterwards only if it held it before or nobody can have held it. */
  predicate Good(s: Shared, pc: Pc, m: Move) {
    && GlobalOk(m.s) && Evolves(s, m.s)
    && (m.s.sends == s.sends || Sender(pc))
    && (m.pc.Some? ==>
          && PcOk(m.s, m.pc.value)
          && (Sender(m.pc.value) ==> Sender(pc) || s.row.status == Running))
  }

  /** Handlers change the row only by pre-run updates, so nothing else can be disturbed. */
  predicate Routes(s: Shared, m: Move) {
    && m.s == s.(row := m.s.row, nonce := m.s.nonce, inFlight := m.s.inFlight)
    && RowInv(m.s.row) && Forward(s.row, m.s.row)
    && (m.s.row == s.row || (!Linked(m.s.row.status) && m.s.row.status != Queueing))
    && (s.nonce ==> m.s.nonce)
    && (m.pc.Some? ==> InHandler(m.pc.value))
  }

  lemma HandlingRoutes(s: Shared, inst: Inst, pc: Pc, h: HandlerAct)
    requires GlobalOk(s) && pc.Handling? && HandlerEnabled(pc, h)
    ensures Routes(s, HandlerMove(s, inst, pc, h))
  {
  }

  lemma DeferringRoutes(s: Shared, inst: Inst, pc: Pc, h: HandlerAct)
    requires GlobalOk(s) && !pc.Handling? && HandlerEnabled(pc, h)
    ensures Routes(s, HandlerMove(s, inst, pc, h))
  {
  }

  lemma RoutesGood(s: Shared, pc: Pc, m: Move)
    requires GlobalOk(s) && Routes(s, m)
    ensures Good(s, pc, m)
  {
  }

  lemma HandlerGood(s: Shared, inst: Inst, pc: Pc, h: HandlerAct)
    requires GlobalOk(s) && HandlerEnabled(pc, h)
    ensures Good(s, pc, HandlerMove(s, inst, pc, h))
  {
    if pc.Handling? { HandlingRoutes(s, inst, pc, h); } else { DeferringRoutes(s, inst, pc, h); }
    RoutesGood(s, pc, HandlerMove(s, inst, pc, h));
  }

  predicate RecoverReads(pc: Pc) {
    pc.RecoverScan? || pc.RecoverFind? || pc.RecoverDecide?
  }

  lemma RecoverReadGood(s: Shared, inst: Inst, pc: Pc)
    requires GlobalOk(s) && PcOk(s, pc) && RecoverReads(pc)
    ensures Good(s, pc, RecoverStep(s, inst, pc))
  {
  }

  lemma RecoverWriteGood(s: Shared, inst: Inst, pc: Pc)
    requires GlobalOk(s) && PcOk(s, pc) && InRecovery(pc) && !RecoverReads(pc)
    ensures Good(s, pc, RecoverStep(s, inst, pc))
  {
  }

  predicate QueueReads(pc: Pc) {
    pc.FindBeforeClaim? || pc.FindAfterClaim? || pc.Barrier? || pc.FindAtBarrier? || pc.FindAfterSend?
  }

  lemma QueueReadGood(s: Shared, pc: Pc)
    requires GlobalOk(s) && PcOk(s, pc) && QueueReads(pc)
    ensures Good(s, pc, QueueStep(s, pc))
  {
  }

  predicate Abandons(pc: Pc) {
    pc.AbandonUnclaimed? || pc.AbandonClaimed? || pc.CancelRun?
  }

  lemma AbandonGood(s: Shared, pc: Pc)
    requires GlobalOk(s) && PcOk(s, pc) && Abandons(pc)
    ensures Good(s, pc, QueueStep(s, pc))
  {
  }

  lemma QueueWriteGood(s: Shared, pc: Pc)
    requires GlobalOk(s) && PcOk(s, pc) && InQueue(pc) && !pc.SendUser? && !QueueReads(pc) && !Abandons(pc)
    ensures Good(s, pc, QueueStep(s, pc))
  {
  }

  lemma DeliveryGood(s: Shared, pc: Pc)
    requires GlobalOk(s) && PcOk(s, pc) && InDelivery(pc) && !pc.Post?
    ensures Good(s, pc, DeliveryStep(s, pc))
  {
  }

  lemma RetryGood(s: Shared, pc: Pc)
    requires GlobalOk(s) && PcOk(s, pc) && InRetry(pc)
    ensures Good(s, pc, RetryStep(s, pc))
  {
  }

  predicate Judges(pc: Pc) {
    pc.AmbientScan? || pc.AmbientDrop? || pc.AmbientTrigger?
  }

  lemma JudgeGood(s: Shared, inst: Inst, pc: Pc)
    requires GlobalOk(s) && PcOk(s, pc) && Judges(pc)
    ensures Good(s, pc, PassMove(s, inst, pc, Go))
  {
  }

  lemma ScanGood(s: Shared, inst: Inst, pc: Pc)
    requires GlobalOk(s) && PcOk(s, pc) && PassEnabled(pc, Go)
    requires !InRecovery(pc) && !InQueue(pc) && !InDelivery(pc) && !InRetry(pc) && !Judges(pc)
    ensures Good(s, pc, PassMove(s, inst, pc, Go))
  {
  }

  /** Moves that only change where the process stands. */
  lemma StayGood(s: Shared, pc: Pc, m: Move)
    requires GlobalOk(s) && m.s == s
    requires m.pc.Some? ==> PcOk(s, m.pc.value) && !Sender(m.pc.value)
    ensures Good(s, pc, m)
  {
  }

  lemma ThrowGood(s: Shared, inst: Inst, pc: Pc)
    requires GlobalOk(s) && PassEnabled(pc, Throw)
    ensures Good(s, pc, PassMove(s, inst, pc, Throw))
  {
    ThrowMoves(s, inst, pc);
    StayGood(s, pc, PassMove(s, inst, pc, Throw));
  }

  lemma ThrowMoves(s: Shared, inst: Inst, pc: Pc)
    requires PassEnabled(pc, Throw)
    ensures var m := PassMove(s, inst, pc, Throw); m.s == s && (m.pc.Some? ==> m.pc.value.RetryRead?)
  {
  }

  lemma ChoiceGood(s: Shared, inst: Inst, pc: Pc, a: PassAct)
    requires GlobalOk(s) && PcOk(s, pc) && a != Go && a != Throw && PassEnabled(pc, a)
    ensures Good(s, pc, PassMove(s, inst, pc, a))
  {
    if a.SendCreates? { SendGood(s, inst, pc, a.run); }
    else if a.Reply? { PostGood(s, inst, pc, a.handle); }
    else if a == Silent { SilentGood(s, inst, pc); }
    else { StayGood(s, pc, PassMove(s, inst, pc, a)); }
  }

  lemma SendGood(s: Shared, inst: Inst, pc: Pc, run: nat)
    requires GlobalOk(s) && PcOk(s, pc) && pc.SendUser?
    ensures Good(s, pc, PassMove(s, inst, pc, SendCreates(run)))
  {
  }

  lemma PostGood(s: Shared, inst: Inst, pc: Pc, handle: string)
    requires GlobalOk(s) && PcOk(s, pc) && pc.Post?
    ensures Good(s, pc, PassMove(s, inst, pc, Reply(handle)))
  {
  }

  lemma SilentGood(s: Shared, inst: Inst, pc: Pc)
    requires GlobalOk(s) && PcOk(s, pc) && pc.DeliverScan?
    ensures Good(s, pc, PassMove(s, inst, pc, Silent))
  {
  }

  lemma PassGood(s: Shared, inst: Inst, pc: Pc, a: PassAct)
    requires GlobalOk(s) && PcOk(s, pc) && PassEnabled(pc, a)
    ensures Good(s, pc, PassMove(s, inst, pc, a))
  {
    if a == Throw { ThrowGood(s, inst, pc); }
    else if a != Go { ChoiceGood(s, inst, pc, a); }
    else if RecoverReads(pc) { RecoverReadGood(s, inst, pc); }
    else if InRecovery(pc) { RecoverWriteGood(s, inst, pc); }
    else if QueueReads(pc) { QueueReadGood(s, pc); }
    else if Abandons(pc) { AbandonGood(s, pc); }
    else if InQueue(pc) { QueueWriteGood(s, pc); }
    else if InDelivery(pc) { DeliveryGood(s, pc); }
    else if InRetry(pc) { RetryGood(s, pc); }
    else if Judges(pc) { JudgeGood(s, inst, pc); }
    else { ScanGood(s, inst, pc); }
  }

  /** A step of process `p` leaves every other process's obligations standing. */
  lemma PlaceSafe(w: State, p: Pid, m: Move)
    requires Safe(w) && p in w.procs && Good(w.s, w.procs[p].pc, m)
    ensures Safe(Place(w, p, m))
  {
    var w' := Place(w, p, m);
    forall q | q in w'.procs && q != p
      ensures q < w'.nextPid && PcOk(w'.s, w'.procs[q].pc)
      ensures p in w'.procs && Sender(w'.procs[p].pc) ==> !Sender(w'.procs[q].pc)
    {
      assert PcOk(w.s, w.procs[q].pc);
    }
  }

  lemma SpawnSafe(w: State, proc: Proc)
    requires Safe(w) && (proc.pc.Upserted? || proc.pc.RecoverScan?)
    ensures Safe(Spawn(w, proc))
  {
  }

  /** Every step of every process, instance and environment keeps the invariant and moves forward. */
  lemma StepSafe(w: State, a: Action)
    requires Safe(w) && Enabled(w, a)
    ensures Safe(Step(w, a)) && Evolves(w.s, Step(w, a).s)
  {
    match a
    case Handler(p, h) =>
      var proc := w.procs[p];
      HandlerGood(w.s, proc.inst, proc.pc, h);
      PlaceSafe(w, p, HandlerMove(w.s, proc.inst, proc.pc, h));
    case Pass(p, b) =>
      var proc := w.procs[p];
      PassGood(w.s, proc.inst, proc.pc, b);
      PlaceSafe(w, p, PassMove(w.s, proc.inst, proc.pc, b));
    case Inbound(inst) => SpawnSafe(w, Proc(inst, Upserted(w.s.row, w.s.now)));
    case PassStart(inst) => SpawnSafe(w, Proc(inst, RecoverScan(w.s.now)));
    case Crash(_) =>
    case _ =>
  }

  lemma InitSafe(w: State)
    requires Init(w)
    ensures Safe(w)
  {
  }

  lemma {:induction false} RunSafe(w: State, acts: seq<Action>)
    requires Safe(w) && IsRun(w, acts)
    ensures Safe(After(w, acts))
    decreases |acts|
  {
    if acts != [] {
      StepSafe(w, acts[0]);
      RunSafe(Step(w, acts[0]), acts[1..]);
    }
  }

  /** Statuses never go back over any stretch of a run; delivered, ignored and the run link are final. */
  lemma {:induction false} RunForward(w: State, acts: seq<Action>)
    requires Safe(w) && IsRun(w, acts)
    ensures var r, e := w.s.row, After(w, acts).s.row;
      && (Linked(r.status) ==> Linked(e.status))
      && (Posting(r.status) ==> Posting(e.status))
      && (r.status == Delivered ==> e.status == Delivered)
      && (r.status == Ignored ==> e.status == Ignored)
      && (r.runId.Some? ==> e.runId == r.runId)
    ensures w.s.sends <= After(w, acts).s.sends
    decreases |acts|
  {
    if acts != [] {
      StepSafe(w, acts[0]);
      RunForward(Step(w, acts[0]), acts[1..]);
    }
  }

  /** Over every interleaving of any number of instances, crashes, lease expiries, retries
      and lost acknowledgements, the provider is asked to post the row's reply at most once,
      and only once the row is reserved for delivery. */
  lemma AtMostOneSend(w: State, acts: seq<Action>)
    requires Init(w) && IsRun(w, acts)
    ensures After(w, acts).s.sends <= 1
    ensures After(w, acts).s.sends == 1 ==> Posting(After(w, acts).s.row.status)
  {
    InitSafe(w);
    RunSafe(w, acts);
  }

  /** In every reachable state: agent tag exactly from queueing on, run link exactly from running on. */
  lemma OwnershipMatchesStatus(w: State, acts: seq<Action>)
    requires Init(w) && IsRun(w, acts)
    ensures var r := After(w, acts).s.row;
      && (r.reason == AgentOwned <==> r.status in {Queueing, Running, Delivering, Delivered})
      && (r.runId.Some? <==> r.status in {Running, Delivering, Delivered})
      && (r.handle.Some? ==> r.status in {Delivering, Delivered})
  {
    InitSafe(w);
    RunSafe(w, acts);
  }
}
