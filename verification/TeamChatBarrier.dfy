/** The queue attempt's barrier: once the wake nonce is committed before the attempt's last
    look for it, the attempt never links the row.  No assumption on time, instances or failures. */
module TeamChatBarrier {
  import opened Wrappers
  import opened TeamChatRow
  import opened TeamChatProtocol
  import opened TeamChatSafety

  /** Where an attempt that is bound to see the nonce can be, from there to the end of its pass. */
  predicate Barred(pc: Pc) {
    || (InQueue(pc) && !pc.LinkRun? && !pc.EnqueueRun?)
    || pc.DeliverScan? || InDelivery(pc) || InRetry(pc) || pc.Done?
  }

  predicate StaysBarred(s: Shared, m: Move) {
    && m.s.nonce
    && (m.pc.Some? ==> Barred(m.pc.value))
    && (m.s.row.runId.Some? ==> m.s.row.runId == s.row.runId)
  }

  lemma BarredMove(s: Shared, inst: Inst, pc: Pc, a: PassAct)
    requires s.nonce && Barred(pc) && PassEnabled(pc, a)
    ensures StaysBarred(s, PassMove(s, inst, pc, a))
  {
    if a == Go { BarredGo(s, inst, pc); } else { BarredChoice(s, inst, pc, a); }
  }

  lemma BarredGo(s: Shared, inst: Inst, pc: Pc)
    requires s.nonce && Barred(pc) && PassEnabled(pc, Go)
    ensures StaysBarred(s, PassMove(s, inst, pc, Go))
  {
    if InQueue(pc) {
      BarredQueueMove(s, pc);
      assert PassMove(s, inst, pc, Go) == QueueStep(s, pc);
    } else if InDelivery(pc) {
      BarredDeliveryMove(s, pc);
      assert PassMove(s, inst, pc, Go) == DeliveryStep(s, pc);
    } else {
      BarredRestMove(s, inst, pc);
    }
  }

  lemma BarredChoice(s: Shared, inst: Inst, pc: Pc, a: PassAct)
    requires s.nonce && Barred(pc) && PassEnabled(pc, a) && a != Go
    ensures StaysBarred(s, PassMove(s, inst, pc, a))
  {
  }

  lemma BarredRestMove(s: Shared, inst: Inst, pc: Pc)
    requires s.nonce && Barred(pc) && PassEnabled(pc, Go) && !InQueue(pc) && !InDelivery(pc)
    ensures StaysBarred(s, PassMove(s, inst, pc, Go))
  {
  }

  lemma BarredQueueMove(s: Shared, pc: Pc)
    requires s.nonce && Barred(pc) && InQueue(pc) && PassEnabled(pc, Go)
    ensures StaysBarred(s, QueueStep(s, pc))
  {
  }

  lemma BarredDeliveryMove(s: Shared, pc: Pc)
    requires s.nonce && InDelivery(pc) && PassEnabled(pc, Go)
    ensures StaysBarred(s, DeliveryStep(s, pc))
  {
  }

  /** Process ids are never used twice, so `p` below is one attempt throughout. */
  lemma BarredStep(w: State, a: Action, p: Pid)
    requires Safe(w) && Enabled(w, a) && w.s.nonce && p < w.nextPid
    requires p in w.procs ==> Barred(w.procs[p].pc)
    ensures var w' := Step(w, a);
      w'.s.nonce && p < w'.nextPid && (p in w'.procs ==> Barred(w'.procs[p].pc))
  {
    if a.Pass? && a.pid == p {
      BarredMove(w.s, w.procs[p].inst, w.procs[p].pc, a.p);
    } else {
      StepSafe(w, a);
      OthersStay(w, a, p);
    }
  }

  /** A step of another process, or of the environment, leaves `p` where it is or takes it away. */
  lemma OthersStay(w: State, a: Action, p: Pid)
    requires Enabled(w, a) && p < w.nextPid && !(a.Pass? && a.pid == p) && !(a.Handler? && a.pid == p)
    ensures p < Step(w, a).nextPid
    ensures p in Step(w, a).procs ==> p in w.procs && Step(w, a).procs[p] == w.procs[p]
  {
  }

  /** Does some step of the run, taken by `p`, give the row its run? */
  predicate Links(w: State, acts: seq<Action>, p: Pid)
    requires IsRun(w, acts)
    decreases |acts|
  {
    acts != [] &&
    (|| (acts[0].Pass? && acts[0].pid == p && Step(w, acts[0]).s.row.runId != w.s.row.runId)
     || Links(Step(w, acts[0]), acts[1..], p))
  }

  /** An attempt that has its last findWake still ahead when the nonce is committed never links
      the row, whatever the rest of the system does. */
  lemma {:induction false} AttemptNeverLinks(w: State, acts: seq<Action>, p: Pid)
    requires Safe(w) && IsRun(w, acts) && w.s.nonce && p < w.nextPid
    requires p in w.procs ==> Barred(w.procs[p].pc)
    ensures !Links(w, acts, p)
    ensures p in After(w, acts).procs ==> !After(w, acts).procs[p].pc.LinkRun?
    decreases |acts|
  {
    if acts != [] {
      if acts[0].Pass? && acts[0].pid == p {
        var proc := w.procs[p];
        BarredMove(w.s, proc.inst, proc.pc, acts[0].p);
        StepSafe(w, acts[0]);
      }
      StepSafe(w, acts[0]);
      BarredStep(w, acts[0], p);
      AttemptNeverLinks(Step(w, acts[0]), acts[1..], p);
    }
  }

  /** The same from a reachable state: `p` is anywhere before its last findWake when the nonce is there. */
  lemma BarrierHolds(w0: State, before: seq<Action>, after: seq<Action>, p: Pid)
    requires Init(w0) && IsRun(w0, before)
    requires var w := After(w0, before);
      w.s.nonce && p in w.procs && BeforeLastFind(w.procs[p].pc) && IsRun(w, after)
    ensures !Links(After(w0, before), after, p)
  {
    InitSafe(w0);
    RunSafe(w0, before);
    AttemptNeverLinks(After(w0, before), after, p);
  }

  // ---- the run such an attempt created ----

  /** Where the attempt knows the run it was given and has not cancelled it yet. */
  predicate HasRun(pc: Pc) {
    pc.FindAfterSend? || pc.CancelRun?
  }

  predicate Creating(pc: Pc) {
    pc.SendUser? || HasRun(pc)
  }

  /** The run `p` is given in the course of this run of the system. */
  function Made(w: State, acts: seq<Action>, p: Pid): Option<nat>
    requires IsRun(w, acts)
    decreases |acts|
  {
    if p in w.procs && HasRun(w.procs[p].pc) then Some(w.procs[p].pc.run)
    else if acts == [] then None
    else Made(Step(w, acts[0]), acts[1..], p)
  }

  /** The attempt throws, or its own instance crashes, between being given the run and cancelling it. */
  predicate GivesUp(w: State, a: Action, p: Pid) {
    && p in w.procs && HasRun(w.procs[p].pc)
    && (a == Pass(p, Throw) || a == Crash(w.procs[p].inst))
  }

  /** It gives up a run that has not ended. */
  predicate Dropped(w: State, acts: seq<Action>, p: Pid)
    requires IsRun(w, acts)
    decreases |acts|
  {
    acts != [] &&
    (|| (GivesUp(w, acts[0], p) && !RunOver(w.s, w.procs[p].pc.run))
     || Dropped(Step(w, acts[0]), acts[1..], p))
  }

  lemma CancellingMove(s: Shared, inst: Inst, pc: Pc, a: PassAct)
    requires GlobalOk(s) && PcOk(s, pc) && s.nonce && PassEnabled(pc, a) && a != Throw && HasRun(pc)
    ensures var m := PassMove(s, inst, pc, a);
      RunOver(m.s, pc.run) || (m.pc.Some? && HasRun(m.pc.value) && m.pc.value.run == pc.run)
  {
  }

  /** One step of a run: either `p` still has the run, or it has ended, or `p` gave it up. */
  lemma RunStep(w: State, a: Action, p: Pid)
    requires Safe(w) && Enabled(w, a) && w.s.nonce && p in w.procs && HasRun(w.procs[p].pc)
    requires GivesUp(w, a, p) ==> RunOver(w.s, w.procs[p].pc.run)
    ensures var w', run := Step(w, a), w.procs[p].pc.run;
      RunOver(w'.s, run) || (p in w'.procs && HasRun(w'.procs[p].pc) && w'.procs[p].pc.run == run)
  {
    assert PcOk(w.s, w.procs[p].pc);
    if GivesUp(w, a, p) { StepSafe(w, a); }
    else if a.Pass? && a.pid == p { CancellingMove(w.s, w.procs[p].inst, w.procs[p].pc, a.p); }
    else { Stays(w, a, p); }
  }

  lemma Stays(w: State, a: Action, p: Pid)
    requires Safe(w) && Enabled(w, a) && p in w.procs
    requires !(a.Pass? && a.pid == p) && !(a.Handler? && a.pid == p) && a != Crash(w.procs[p].inst)
    ensures p in Step(w, a).procs && Step(w, a).procs[p] == w.procs[p]
  {
  }

  /** An attempt that has its last findWake still ahead when the nonce is committed leaves the run it
      was given cancelled or finished, unless it drops it: crashes elsewhere, retries, other attempts
      and time do not matter. */
  lemma {:induction false} RunIsCancelled(w: State, acts: seq<Action>, p: Pid)
    requires Safe(w) && IsRun(w, acts) && w.s.nonce && p < w.nextPid
    requires p in w.procs ==> Barred(w.procs[p].pc)
    requires Made(w, acts, p).Some? && !Dropped(w, acts, p)
    ensures var e, run := After(w, acts), Made(w, acts, p).value;
      RunOver(e.s, run) || (p in e.procs && HasRun(e.procs[p].pc) && e.procs[p].pc.run == run)
    decreases |acts|
  {
    if acts != [] {
      var w' := Step(w, acts[0]);
      StepSafe(w, acts[0]);
      BarredStep(w, acts[0], p);
      if p in w.procs && HasRun(w.procs[p].pc) {
        var run := w.procs[p].pc.run;
        RunStep(w, acts[0], p);
        if RunOver(w'.s, run) { RunStaysOver(w', acts[1..], run); }
        else { RunIsCancelled(w', acts[1..], p); }
      } else {
        RunIsCancelled(w', acts[1..], p);
      }
    }
  }

  // ---- and the run it drops ----

  ghost predicate OnlyCreator(w: State, p: Pid) {
    forall q :: q in w.procs && q != p ==> !Creating(w.procs[q].pc)
  }

  ghost predicate NoneCreating(w: State) {
    forall q :: q in w.procs ==> !Creating(w.procs[q].pc)
  }

  /** Once the nonce is there nobody comes to the creation of the run any more, and only a process
      that has the run, or its own end, changes it. */
  lemma CreatorMove(s: Shared, inst: Inst, pc: Pc, a: PassAct)
    requires s.nonce && PassEnabled(pc, a) && !Creating(pc)
    ensures var m := PassMove(s, inst, pc, a);
      m.s.run == s.run && m.s.nonce && (m.pc.Some? ==> !Creating(m.pc.value))
  {
    if a == Go && InQueue(pc) { QueueCreatorMove(s, pc); }
    else if a == Go && InDelivery(pc) { DeliveryCreatorMove(s, pc); }
  }

  lemma QueueCreatorMove(s: Shared, pc: Pc)
    requires s.nonce && InQueue(pc) && !Creating(pc)
    ensures var m := QueueStep(s, pc);
      m.s.run == s.run && m.s.nonce && (m.pc.Some? ==> !Creating(m.pc.value))
  {
  }

  lemma DeliveryCreatorMove(s: Shared, pc: Pc)
    requires s.nonce && InDelivery(pc) && !pc.Post?
    ensures var m := DeliveryStep(s, pc);
      m.s.run == s.run && m.s.nonce && (m.pc.Some? ==> !Creating(m.pc.value))
  {
  }

  lemma HandlerCreatorMove(s: Shared, inst: Inst, pc: Pc, h: HandlerAct)
    requires HandlerEnabled(pc, h)
    ensures var m := HandlerMove(s, inst, pc, h);
      m.s.run == s.run && (s.nonce ==> m.s.nonce) && (m.pc.Some? ==> !Creating(m.pc.value))
  {
  }

  lemma CreatorStep(w: State, a: Action, p: Pid)
    requires Safe(w) && Enabled(w, a) && w.s.nonce && OnlyCreator(w, p)
    ensures OnlyCreator(Step(w, a), p)
    ensures (p in w.procs ==> !Creating(w.procs[p].pc)) && !a.RunEnds? ==> Step(w, a).s.run == w.s.run
  {
    match a
    case Handler(q, h) => HandlerCreatorMove(w.s, w.procs[q].inst, w.procs[q].pc, h);
    case Pass(q, b) =>
      if !Creating(w.procs[q].pc) { CreatorMove(w.s, w.procs[q].inst, w.procs[q].pc, b); }
    case _ =>
  }

  ghost predicate NeverEndsItself(acts: seq<Action>) {
    forall i :: 0 <= i < |acts| ==> !acts[i].RunEnds?
  }

  lemma {:induction false} RunUntouched(w: State, acts: seq<Action>)
    requires Safe(w) && IsRun(w, acts) && w.s.nonce && NoneCreating(w) && NeverEndsItself(acts)
    ensures After(w, acts).s.run == w.s.run
    decreases |acts|
  {
    if acts != [] {
      StepSafe(w, acts[0]);
      CreatorStep(w, acts[0], w.nextPid + 1);
      assert forall i :: 0 <= i < |acts[1..]| ==> acts[1..][i] == acts[i + 1];
      RunUntouched(Step(w, acts[0]), acts[1..]);
    }
  }

  /** A run that its attempt drops stays active, whatever anybody does afterwards, until it ends by itself. */
  lemma {:induction false} DroppedRunStays(w: State, acts: seq<Action>, p: Pid)
    requires Safe(w) && IsRun(w, acts) && w.s.nonce && OnlyCreator(w, p) && NeverEndsItself(acts)
    requires Dropped(w, acts, p)
    ensures var e := After(w, acts); e.s.run.Some? && e.s.run.value.state == Active
    decreases |acts|
  {
    var w' := Step(w, acts[0]);
    StepSafe(w, acts[0]);
    CreatorStep(w, acts[0], p);
    assert forall i :: 0 <= i < |acts[1..]| ==> acts[1..][i] == acts[i + 1];
    if GivesUp(w, acts[0], p) && !RunOver(w.s, w.procs[p].pc.run) {
      assert PcOk(w.s, w.procs[p].pc);
      GivingUpStep(w, acts[0], p);
      RunUntouched(w', acts[1..]);
    } else {
      DroppedRunStays(w', acts[1..], p);
    }
  }

  lemma GivingUpStep(w: State, a: Action, p: Pid)
    requires Enabled(w, a) && OnlyCreator(w, p) && GivesUp(w, a, p)
    ensures NoneCreating(Step(w, a)) && Step(w, a).s.run == w.s.run
  {
  }

  /** The exact condition: from any reachable state with the nonce committed before the attempt's last
      look, and no other attempt in the middle of creating, the run the attempt was given has ended
      once the attempt has moved on, if and only if the attempt did not drop it. */
  lemma CancelledUnlessDropped(w0: State, before: seq<Action>, acts: seq<Action>, p: Pid)
    requires Init(w0) && IsRun(w0, before)
    requires var w := After(w0, before);
      && w.s.nonce && p in w.procs && BeforeLastFind(w.procs[p].pc) && OnlyCreator(w, p)
      && IsRun(w, acts) && NeverEndsItself(acts) && Made(w, acts, p).Some?
    requires var e := After(After(w0, before), acts); p in e.procs ==> !HasRun(e.procs[p].pc)
    ensures var w := After(w0, before);
      RunOver(After(w, acts).s, Made(w, acts, p).value) <==> !Dropped(w, acts, p)
  {
    InitSafe(w0);
    RunSafe(w0, before);
    var w := After(w0, before);
    if Dropped(w, acts, p) { DroppedRunStays(w, acts, p); }
    else { RunIsCancelled(w, acts, p); }
  }

  lemma {:induction false} RunStaysOver(w: State, acts: seq<Action>, run: nat)
    requires Safe(w) && IsRun(w, acts) && RunOver(w.s, run)
    ensures RunOver(After(w, acts).s, run)
    decreases |acts|
  {
    if acts != [] {
      StepSafe(w, acts[0]);
      RunStaysOver(Step(w, acts[0]), acts[1..], run);
    }
  }
}
