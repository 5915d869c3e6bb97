/** What a stored reply handle stands for, and that events get where they are meant to go: a handle is what
    the provider returned for the one post of the reply, or says why there was none; and an ambient event
    reaches the agent only after a judge chose it. */
module TeamChatDelivery {
  import opened Wrappers
  import opened TeamChatRow
  import opened TeamChatProtocol
  import opened TeamChatSafety

  // ---- where handles come from ----

  /** What a run has had to say about replies: the handles the provider returned, whether an agent's answer
      was empty, and whether a reservation ran out without a confirmed post. */
  datatype Heard = Heard(replies: set<string>, empty: bool, lost: bool)

  const NOTHING := Heard({}, false, false)

  function Hear(heard: Heard, w: State, a: Action): Heard
    requires Enabled(w, a)
  {
    if !a.Pass? then heard
    else
      match a.p
      case Reply(handle) => heard.(replies := heard.replies + {handle})
      case Silent => heard.(empty := true)
      case Go =>
        var pc := w.procs[a.pid].pc;
        if pc.ExpireSend? && CanExpireDelivery(w.s.row, pc.at) then heard.(lost := true) else heard
      case _ => heard
  }

  function HeardIn(heard: Heard, w: State, acts: seq<Action>): Heard
    requires IsRun(w, acts)
    decreases |acts|
  {
    if acts == [] then heard else HeardIn(Hear(heard, w, acts[0]), Step(w, acts[0]), acts[1..])
  }

  /** A handle is the provider's, or records an empty answer or a failed run of an ambient event, or a
      post that was never confirmed. */
  predicate Explained(s: Shared, heard: Heard, handle: string) {
    || handle in heard.replies
    || (handle == "silent" && s.row.kind == Ambient && heard.empty && s.run.Some? && s.run.value.state == Completed)
    || (handle == "silent-failure" && s.row.kind == Ambient && s.run.Some?
        && s.run.value.state != Active && s.run.value.state != Completed)
    || (handle == UNCONFIRMED && heard.lost)
  }

  predicate PcExplained(s: Shared, heard: Heard, pc: Pc) {
    match pc
    case DeliverSilent(_, handle) => Explained(s, heard, handle)
    case SaveHandle(_, handle) => handle in heard.replies
    case Finalize(_, handle) => Explained(s, heard, handle)
    case RetryFinalize(handle, _) => Explained(s, heard, handle)
    case _ => true
  }

  predicate RowExplained(s: Shared, heard: Heard) {
    && (s.row.handle.Some? ==> Explained(s, heard, s.row.handle.value))
    && (s.row.status == Delivered ==> s.row.handle.Some?)
    && (s.sends == 0 <==> heard.replies == {})
  }

  ghost predicate AllExplained(w: State, heard: Heard) {
    RowExplained(w.s, heard) && forall p :: p in w.procs ==> PcExplained(w.s, heard, w.procs[p].pc)
  }

  /** What is heard stays heard. */
  predicate More(a: Heard, b: Heard) {
    a.replies <= b.replies && (a.empty ==> b.empty) && (a.lost ==> b.lost)
  }

  lemma StillExplained(s: Shared, s': Shared, heard: Heard, heard': Heard, pc: Pc)
    requires Evolves(s, s') && More(heard, heard') && PcExplained(s, heard, pc)
    ensures PcExplained(s', heard', pc)
  {
  }

  predicate StepExplained(heard: Heard, m: Move) {
    RowExplained(m.s, heard) && (m.pc.Some? ==> PcExplained(m.s, heard, m.pc.value))
  }

  lemma HandlerExplained(s: Shared, inst: Inst, pc: Pc, h: HandlerAct, heard: Heard)
    requires GlobalOk(s) && HandlerEnabled(pc, h) && RowExplained(s, heard)
    ensures StepExplained(heard, HandlerMove(s, inst, pc, h))
  {
    if pc.Handling? { HandlingRoutes(s, inst, pc, h); HandlingKeepsHandle(s, inst, pc, h); }
    else { DeferringRoutes(s, inst, pc, h); DeferringKeepsHandle(s, inst, pc, h); }
  }

  lemma HandlingKeepsHandle(s: Shared, inst: Inst, pc: Pc, h: HandlerAct)
    requires pc.Handling? && HandlerEnabled(pc, h)
    ensures var m := HandlerMove(s, inst, pc, h);
      m.s.row.handle == s.row.handle && m.s.row.kind == s.row.kind && (m.s.row.status == Delivered ==> s.row.status == Delivered)
  {
  }

  lemma DeferringKeepsHandle(s: Shared, inst: Inst, pc: Pc, h: HandlerAct)
    requires !pc.Handling? && HandlerEnabled(pc, h)
    ensures var m := HandlerMove(s, inst, pc, h);
      m.s.row.handle == s.row.handle && m.s.row.kind == s.row.kind && (m.s.row.status == Delivered ==> s.row.status == Delivered)
  {
  }

  /** Before and after delivery nothing touches the handle. */
  predicate KeepsHandle(s: Shared, m: Move) {
    && m.s.row.handle == s.row.handle && m.s.row.kind == s.row.kind && m.s.sends == s.sends
    && (m.s.row.status == Delivered ==> s.row.status == Delivered)
    && (s.run.Some? && s.run.value.state != Active ==> m.s.run == s.run)
    && (m.pc.Some? ==> !m.pc.value.DeliverSilent? && !m.pc.value.SaveHandle? && !m.pc.value.Finalize? && !m.pc.value.RetryFinalize?)
  }

  lemma RecoverKeepsHandle(s: Shared, inst: Inst, pc: Pc)
    requires InRecovery(pc)
    ensures KeepsHandle(s, RecoverStep(s, inst, pc))
  {
  }

  lemma QueueKeepsHandle(s: Shared, pc: Pc)
    requires InQueue(pc) && !pc.SendUser?
    ensures KeepsHandle(s, QueueStep(s, pc))
  {
  }

  lemma ChoiceKeepsHandle(s: Shared, inst: Inst, pc: Pc, a: PassAct)
    requires PassEnabled(pc, a) && a != Go && a != Silent && !a.Reply?
    ensures KeepsHandle(s, PassMove(s, inst, pc, a))
  {
  }

  lemma JudgeKeepsHandle(s: Shared, inst: Inst, pc: Pc)
    requires PassEnabled(pc, Go) && !InRecovery(pc) && !InQueue(pc) && !InDelivery(pc) && !InRetry(pc) && !pc.DeliverScan?
    ensures KeepsHandle(s, PassMove(s, inst, pc, Go))
  {
  }

  lemma KeptExplained(s: Shared, m: Move, heard: Heard)
    requires RowExplained(s, heard) && KeepsHandle(s, m)
    ensures StepExplained(heard, m)
  {
  }

  lemma DeliveryExplained(s: Shared, pc: Pc, heard: Heard)
    requires GlobalOk(s) && PcOk(s, pc) && InDelivery(pc) && !pc.Post? && RowExplained(s, heard) && PcExplained(s, heard, pc)
    ensures var lost := heard.lost || (pc.ExpireSend? && CanExpireDelivery(s.row, pc.at));
      StepExplained(heard.(lost := lost), DeliveryStep(s, pc))
  {
  }

  lemma RetryExplained(s: Shared, pc: Pc, heard: Heard)
    requires InRetry(pc) && RowExplained(s, heard) && PcExplained(s, heard, pc)
    ensures StepExplained(heard, RetryStep(s, pc))
  {
  }

  lemma ScanExplained(s: Shared, t: nat, empty: bool, heard: Heard)
    requires RowExplained(s, heard) && (empty ==> heard.empty)
    ensures StepExplained(heard, DeliverScanStep(s, t, empty))
  {
  }

  lemma GoExplained(s: Shared, inst: Inst, pc: Pc, heard: Heard)
    requires GlobalOk(s) && PcOk(s, pc) && PassEnabled(pc, Go) && RowExplained(s, heard) && PcExplained(s, heard, pc)
    ensures var lost := heard.lost || (pc.ExpireSend? && CanExpireDelivery(s.row, pc.at));
      StepExplained(heard.(lost := lost), PassMove(s, inst, pc, Go))
  {
    var m := PassMove(s, inst, pc, Go);
    if InRecovery(pc) { RecoverKeepsHandle(s, inst, pc); KeptExplained(s, m, heard); }
    else if InQueue(pc) { QueueKeepsHandle(s, pc); KeptExplained(s, m, heard); }
    else if InDelivery(pc) { DeliveryExplained(s, pc, heard); }
    else if InRetry(pc) { RetryExplained(s, pc, heard); }
    else if pc.DeliverScan? { ScanExplained(s, pc.t, false, heard); }
    else { JudgeKeepsHandle(s, inst, pc); KeptExplained(s, m, heard); }
  }

  lemma PostExplained(s: Shared, inst: Inst, pc: Pc, handle: string, heard: Heard)
    requires pc.Post? && RowExplained(s, heard)
    ensures StepExplained(heard.(replies := heard.replies + {handle}), PassMove(s, inst, pc, Reply(handle)))
  {
  }

  lemma PassExplained(w: State, p: Pid, a: PassAct, heard: Heard)
    requires Safe(w) && AllExplained(w, heard) && Enabled(w, Pass(p, a))
    ensures StepExplained(Hear(heard, w, Pass(p, a)), PassMove(w.s, w.procs[p].inst, w.procs[p].pc, a))
  {
    var s, proc := w.s, w.procs[p];
    assert PcOk(s, proc.pc) && PcExplained(s, heard, proc.pc);
    if a == Go { GoExplained(s, proc.inst, proc.pc, heard); }
    else if a == Silent { ScanExplained(s, proc.pc.t, true, heard.(empty := true)); }
    else if a.Reply? { PostExplained(s, proc.inst, proc.pc, a.handle, heard); }
    else {
      ChoiceKeepsHandle(s, proc.inst, proc.pc, a);
      KeptExplained(s, PassMove(s, proc.inst, proc.pc, a), heard);
    }
  }

  lemma PlaceExplained(w: State, p: Pid, m: Move, heard: Heard, heard': Heard)
    requires p in w.procs && AllExplained(w, heard) && Evolves(w.s, m.s) && More(heard, heard') && StepExplained(heard', m)
    ensures AllExplained(Place(w, p, m), heard')
  {
    var w' := Place(w, p, m);
    forall q | q in w'.procs ensures PcExplained(w'.s, heard', w'.procs[q].pc) {
      if q != p { StillExplained(w.s, w'.s, heard, heard', w.procs[q].pc); }
    }
  }

  lemma OtherExplained(w: State, a: Action, heard: Heard)
    requires Safe(w) && AllExplained(w, heard) && Enabled(w, a) && !a.Pass? && !a.Handler?
    ensures AllExplained(Step(w, a), heard)
  {
    var w' := Step(w, a);
    StepSafe(w, a);
    forall q | q in w'.procs ensures PcExplained(w'.s, heard, w'.procs[q].pc) {
      if q in w.procs && w'.procs[q] == w.procs[q] { StillExplained(w.s, w'.s, heard, heard, w.procs[q].pc); }
    }
  }

  lemma StepKeepsExplained(w: State, a: Action, heard: Heard)
    requires Safe(w) && AllExplained(w, heard) && Enabled(w, a)
    ensures AllExplained(Step(w, a), Hear(heard, w, a))
  {
    StepSafe(w, a);
    match a
    case Handler(p, h) =>
      var proc := w.procs[p];
      HandlerExplained(w.s, proc.inst, proc.pc, h, heard);
      PlaceExplained(w, p, HandlerMove(w.s, proc.inst, proc.pc, h), heard, heard);
    case Pass(p, b) =>
      PassExplained(w, p, b, heard);
      PlaceExplained(w, p, PassMove(w.s, w.procs[p].inst, w.procs[p].pc, b), heard, Hear(heard, w, a));
    case _ => OtherExplained(w, a, heard);
  }

  lemma {:induction false} RunExplained(w: State, acts: seq<Action>, heard: Heard)
    requires Safe(w) && AllExplained(w, heard) && IsRun(w, acts)
    ensures AllExplained(After(w, acts), HeardIn(heard, w, acts))
    decreases |acts|
  {
    if acts != [] {
      StepSafe(w, acts[0]);
      StepKeepsExplained(w, acts[0], heard);
      RunExplained(Step(w, acts[0]), acts[1..], Hear(heard, w, acts[0]));
    }
  }

  /** Over every run: a delivered row has a handle; it is what the provider returned for the one post of
      this reply, unless it says that the answer of an ambient event was empty, that its run failed, or
      that a reservation ran out unconfirmed, and each of these happened. */
  lemma DeliveredMeansPosted(w: State, acts: seq<Action>)
    requires Init(w) && IsRun(w, acts)
    ensures var s, heard := After(w, acts).s, HeardIn(NOTHING, w, acts);
      && (s.row.status == Delivered ==> s.row.handle.Some?)
      && (s.row.handle.Some? ==> Explained(s, heard, s.row.handle.value))
      && (s.row.handle.Some? && s.row.handle.value !in {"silent", "silent-failure", UNCONFIRMED} ==>
            s.sends == 1 && s.row.handle.value in heard.replies)
      && (s.row.kind == Direct && s.row.handle.Some? && s.sends == 0 ==> s.row.handle == Some(UNCONFIRMED))
  {
    InitSafe(w);
    RunSafe(w, acts);
    RunExplained(w, acts, NOTHING);
    assert AllExplained(After(w, acts), HeardIn(NOTHING, w, acts));
  }

  // ---- an ambient event waits for its judge ----

  predicate Unjudged(s: Shared) {
    s.row.kind == Ambient && (s.row.status == Deferred || s.row.status == Observed || s.row.status == Ignored)
  }

  ghost predicate NoneChosen(w: State) {
    forall p :: p in w.procs ==> !w.procs[p].pc.AmbientTrigger?
  }

  predicate Chooses(a: Action) {
    a.Pass? && a.p.Choose?
  }

  lemma HandlerUnjudged(s: Shared, inst: Inst, pc: Pc, h: HandlerAct)
    requires Unjudged(s) && HandlerEnabled(pc, h)
    ensures var m := HandlerMove(s, inst, pc, h); Unjudged(m.s) && (m.pc.Some? ==> !m.pc.value.AmbientTrigger?)
  {
    if pc.Handling? { HandlingUnjudged(s, inst, pc, h); }
  }

  lemma HandlingUnjudged(s: Shared, inst: Inst, pc: Pc, h: HandlerAct)
    requires Unjudged(s) && pc.Handling? && HandlerEnabled(pc, h)
    ensures var m := HandlerMove(s, inst, pc, h); Unjudged(m.s) && (m.pc.Some? ==> !m.pc.value.AmbientTrigger?)
  {
  }

  predicate StaysUnjudged(m: Move) {
    Unjudged(m.s) && (m.pc.Some? ==> !m.pc.value.AmbientTrigger?)
  }

  lemma PassUnjudged(s: Shared, inst: Inst, pc: Pc, a: PassAct)
    requires Unjudged(s) && PcOk(s, pc) && PassEnabled(pc, a) && !pc.AmbientTrigger? && !a.Choose?
    ensures StaysUnjudged(PassMove(s, inst, pc, a))
  {
    if a == Go { GoUnjudged(s, inst, pc); }
  }

  lemma GoUnjudged(s: Shared, inst: Inst, pc: Pc)
    requires Unjudged(s) && PcOk(s, pc) && PassEnabled(pc, Go) && !pc.AmbientTrigger?
    ensures StaysUnjudged(PassMove(s, inst, pc, Go))
  {
    if InRecovery(pc) { RecoverUnjudged(s, inst, pc); }
    else if InQueue(pc) { QueueUnjudged(s, pc); }
  }

  lemma RecoverUnjudged(s: Shared, inst: Inst, pc: Pc)
    requires Unjudged(s) && InRecovery(pc)
    ensures StaysUnjudged(RecoverStep(s, inst, pc))
  {
  }

  lemma QueueUnjudged(s: Shared, pc: Pc)
    requires Unjudged(s) && InQueue(pc) && !pc.SendUser?
    ensures StaysUnjudged(QueueStep(s, pc))
  {
  }

  lemma StepUnjudged(w: State, a: Action)
    requires Safe(w) && Enabled(w, a) && Unjudged(w.s) && NoneChosen(w) && !Chooses(a)
    ensures Unjudged(Step(w, a).s) && NoneChosen(Step(w, a))
  {
    match a
    case Handler(p, h) => HandlerUnjudged(w.s, w.procs[p].inst, w.procs[p].pc, h);
    case Pass(p, b) =>
      assert PcOk(w.s, w.procs[p].pc);
      PassUnjudged(w.s, w.procs[p].inst, w.procs[p].pc, b);
    case _ =>
  }

  lemma {:induction false} RunUnjudged(w: State, acts: seq<Action>)
    requires Safe(w) && IsRun(w, acts) && Unjudged(w.s) && NoneChosen(w)
    requires forall i :: 0 <= i < |acts| ==> !Chooses(acts[i])
    ensures Unjudged(After(w, acts).s)
    decreases |acts|
  {
    if acts != [] {
      StepSafe(w, acts[0]);
      StepUnjudged(w, acts[0]);
      assert forall i :: 0 <= i < |acts[1..]| ==> acts[1..][i] == acts[i + 1];
      RunUnjudged(Step(w, acts[0]), acts[1..]);
    }
  }

  /** Over every run in which no judge chooses it, an ambient event is never received, queued or answered. */
  lemma AmbientWaitsForJudge(w: State, acts: seq<Action>)
    requires Init(w) && w.s.row.kind == Ambient && IsRun(w, acts)
    requires forall i :: 0 <= i < |acts| ==> !Chooses(acts[i])
    ensures After(w, acts).s.row.status in {Deferred, Observed, Ignored} && After(w, acts).s.sends == 0
  {
    InitSafe(w);
    RunUnjudged(w, acts);
    RunSafe(w, acts);
  }
}
