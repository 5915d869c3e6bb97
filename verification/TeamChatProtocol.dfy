/** The life of one external chat event as a transition system.  Any number of inbound
    handlers, orphaned wakes and reconcile passes, on any number of bridge instances,
    hold a program counter each; every database call, provider call and in-memory check
    is one atomic step, and an instance can crash between any two of them. */
module TeamChatProtocol {
  import opened Wrappers
  import opened TeamChatRow

  type Pid = nat
  type Inst = nat

  /** The fallback agent run.  Its client nonce makes it unique for the event. */
  datatype RunState = Active | Completed | Failed | Cancelled
  datatype AgentRun = AgentRun(id: nat, state: RunState)

  /** wakeMessageRoutines and deliverWebhookEvent. */
  datatype Wake =
    | Unreserved     // about to look up routines and reassert ownership
    | Reserved       // ownership reasserted, the wake message not yet committed
    | Committed      // the wake nonce is committed, the promise still pending
    | Woken(result: bool)
    | WakeFailed

  /** handleTeamChatInbound from the moment the wake starts. */
  datatype Outer =
    | Racing                  // Promise.race([wakePromise, leaseHeartbeat.lost])
    | LeaseLost               // the race rejected with a lost reservation
    | AwaitingWake            // ownership re-held if possible, awaiting the wake alone
    | Releasing               // about to resolve to the agent because the wake failed or a renewal threw
    | Resolving(woken: bool)
    | Finishing               // resolved; the finally block is next
    | Orphan                  // the handler returned; its wake or a renewal may still be in flight

  datatype Pc =
    // inbound handler
    | Upserted(snapshot: Row, at: nat)
    | DeferredHere
    | Held
    | Handling(wake: Wake, outer: Outer, beating: bool)
    // reconcile: recovery
    | RecoverScan(t: nat)
    | RecoverFind(t: nat, reason: Reason)
    | RecoverDecide(t: nat, reason: Reason, woken: bool)
    | RecoverIgnore(t: nat)
    | RecoverClear(t: nat)
    | RecoverPromote(t: nat)
    | ResetQueueing(t: nat)
    // reconcile: ambient judge
    | AmbientScan(t: nat)
    | AmbientDrop(t: nat)
    | AmbientTrigger(t: nat, reason: Reason)
    // reconcile: queue
    | QueueScan(t: nat)
    | QueueSlack(t: nat, attempts: nat)
    | FindBeforeClaim(t: nat, attempts: nat)
    | AbandonUnclaimed(t: nat, attempts: nat)
    | ClaimQueueing(t: nat, attempts: nat)
    | FindAfterClaim(t: nat, attempts: nat)
    | Barrier(t: nat, attempts: nat)
    | FindAtBarrier(t: nat, attempts: nat)
    | SendUser(t: nat, attempts: nat)
    | FindAfterSend(t: nat, attempts: nat, run: nat)
    | CancelRun(t: nat, attempts: nat, run: nat)
    | AbandonClaimed(t: nat, attempts: nat, cancelled: Option<nat>)
    | LinkRun(t: nat, attempts: nat, run: nat)
    | EnqueueRun(t: nat, attempts: nat, run: nat)
    // reconcile: delivery
    | DeliverScan(t: nat)
    | DeliverSilent(attempts: nat, handle: string)
    | ReserveSend(attempts: nat)
    | FindPosted(attempts: nat, at: nat)
    | ExpireSend(attempts: nat, at: nat)
    | ReadHandle(attempts: nat)
    | Post(attempts: nat)
    | SaveHandle(attempts: nat, handle: string)
    | Finalize(attempts: nat, handle: string)
    // retry; `next` is where the pass goes on
    | RetryRead(attempts: nat, next: Option<nat>)
    | RetryFinalize(handle: string, next: Option<nat>)
    | RetryWrite(attempts: nat, seen: Status, next: Option<nat>)
    | Done

  datatype Proc = Proc(inst: Inst, pc: Pc)

  /** Everything but the program counters. */
  datatype Shared = Shared(
    slack: bool,               // the conversation's provider is "slack"
    now: nat,
    row: Row,
    nonce: bool,               // the routine wake's message is committed
    run: Option<AgentRun>,
    sends: nat,                // how often the provider was asked to post this row's own reply
    inFlight: set<Inst>)       // instances whose inFlightRoutineWakes holds this row

  datatype State = State(s: Shared, procs: map<Pid, Proc>, nextPid: nat)

  /** One process's step: the shared state it leaves and where it stands, or None when it ends. */
  datatype Move = Move(s: Shared, pc: Option<Pc>)

  datatype HandlerAct =
    | TryDefer | TryExtend | Mark
    | WakeReserve(routines: bool) | WakeCommit | WakeReturn | WakeThrow
    | Renew | RenewThrow | LateRenew | SettleRace | Rehold(reached: bool)
    | ResolveRow(reached: bool) | Finish | Abort

  datatype PassAct =
    | Go
    | Skip                       // the row is outside this query's batch, or not chosen
    | Choose(reason: Reason)     // the judge acts on this row
    | SendCreates(run: nat)      // sendUserMessage returns; `run` is used if it creates one
    | Silent                     // the agent's answer is empty
    | Reply(handle: string)      // the provider accepted the post
    | Throw                      // the call in flight throws, before or after taking effect

  datatype Action =
    | Tick(ms: nat)
    | Crash(inst: Inst)
    | RunEnds(state: RunState)
    | Inbound(inst: Inst)        // another webhook delivery of the same event
    | Restart(inst: Inst)        // recoverInterruptedRoutineRoutes at start
    | PassStart(inst: Inst)
    | Handler(pid: Pid, h: HandlerAct)
    | Pass(pid: Pid, p: PassAct)

  // ---- program-counter classes ----

  predicate InHandler(pc: Pc) {
    pc.Upserted? || pc.DeferredHere? || pc.Held? || pc.Handling?
  }

  /** Before the last findWake of a queue attempt. */
  predicate BeforeLastFind(pc: Pc) {
    || pc.FindBeforeClaim? || pc.ClaimQueueing? || pc.FindAfterClaim? || pc.Barrier?
    || pc.FindAtBarrier? || pc.SendUser? || pc.FindAfterSend?
  }

  predicate InQueue(pc: Pc) {
    || BeforeLastFind(pc) || pc.AbandonUnclaimed? || pc.CancelRun? || pc.AbandonClaimed?
    || pc.LinkRun? || pc.EnqueueRun?
  }

  predicate InDelivery(pc: Pc) {
    || pc.DeliverSilent? || pc.ReserveSend? || pc.FindPosted? || pc.ExpireSend?
    || pc.ReadHandle? || pc.Post? || pc.SaveHandle? || pc.Finalize?
  }

  predicate InRecovery(pc: Pc) {
    || pc.RecoverScan? || pc.RecoverFind? || pc.RecoverDecide? || pc.RecoverIgnore?
    || pc.RecoverClear? || pc.RecoverPromote? || pc.ResetQueueing?
  }

  predicate InRetry(pc: Pc) {
    pc.RetryRead? || pc.RetryFinalize? || pc.RetryWrite?
  }

  predicate Settled(w: Wake) {
    w.Woken? || w.WakeFailed?
  }

  // ---- initial states: the first delivery has just upserted the row ----

  ghost predicate Init(w: State) {
    && !w.s.nonce && w.s.run.None? && w.s.sends == 0 && w.s.inFlight == {}
    && w.nextPid == 1
    && (|| (w.procs == map[] && w.s.row == Created(w.s.row.kind, false, w.s.now))
        || exists inst :: InitDeferred(w, inst))
  }

  predicate InitDeferred(w: State, inst: Inst) {
    && w.s.row == Created(w.s.row.kind, true, w.s.now)
    && w.procs == map[0 := Proc(inst, Upserted(w.s.row, w.s.now))]
  }

  function To(s: Shared, pc: Pc): Move {
    Move(s, Some(pc))
  }

  function End(s: Shared): Move {
    Move(s, None)
  }

  // ---- the inbound handler ----

  /** The row this call read back is the one it created, or was deferred at the very same instant. */
  predicate CarriesOwnLease(snapshot: Row, at: nat) {
    snapshot.status == Deferred && snapshot.lease == Some(at + DEFERRED_RESERVATION_MS)
  }

  predicate HandlerEnabled(pc: Pc, h: HandlerAct) {
    match h
    case TryDefer => pc.Upserted?
    case TryExtend => pc.DeferredHere?
    case Mark => pc.Held?
    case WakeReserve(_) => pc.Handling? && pc.wake == Unreserved
    case WakeCommit => pc.Handling? && pc.wake == Reserved
    case WakeReturn => pc.Handling? && pc.wake == Committed
    case WakeThrow => pc.Handling? && !Settled(pc.wake)
    case Renew => pc.Handling? && pc.beating
    case RenewThrow => pc.Handling? && pc.beating
    // a renewal that was in flight when its heartbeat stopped
    case LateRenew => pc.Handling?
    case SettleRace => pc.Handling? && Settled(pc.wake) && (pc.outer == Racing || pc.outer == AwaitingWake)
    case Rehold(_) => pc.Handling? && pc.outer == LeaseLost
    case ResolveRow(_) => pc.Handling? && (pc.outer == Releasing || pc.outer.Resolving?)
    case Finish => pc.Handling? && (pc.outer == Finishing || (pc.outer == Orphan && Settled(pc.wake)))
    // a call that threw, whether or not it took effect first
    case Abort => pc.Upserted? || pc.DeferredHere? || pc.Held?
  }

  function HandlerMove(s: Shared, inst: Inst, pc: Pc, h: HandlerAct): Move
    requires HandlerEnabled(pc, h)
  {
    match h
    case TryDefer =>
      if CarriesOwnLease(pc.snapshot, pc.at) then To(s, DeferredHere)
      else if CanDefer(s.row, pc.at) then To(s.(row := Defer(s.row, pc.at)), DeferredHere)
      else End(s)
    case TryExtend =>
      if CanExtend(s.row) then To(s.(row := Extend(s.row, s.now)), Held) else End(s)
    case Mark =>
      To(s.(inFlight := s.inFlight + {inst}), Handling(Unreserved, Racing, true))
    case Abort => End(s)
    case _ => HandlingMove(s, inst, pc.wake, pc.outer, pc.beating, h)
  }

  function HandlingMove(s: Shared, inst: Inst, wake: Wake, outer: Outer, beating: bool, h: HandlerAct): Move
    requires HandlerEnabled(Handling(wake, outer, beating), h)
  {
    match h
    case WakeReserve(routines) =>
      if !routines then To(s, Handling(Woken(false), outer, beating))
      else if CanReserveWake(s.row) then
        To(s.(row := ReserveWake(s.row, s.now)), Handling(Reserved, outer, beating))
      else To(s, Handling(Woken(false), outer, beating))
    case WakeCommit => To(s.(nonce := true), Handling(Committed, outer, beating))
    case WakeReturn => To(s, Handling(Woken(true), outer, beating))
    case WakeThrow => To(s, Handling(WakeFailed, outer, beating))
    case Renew =>
      if CanExtend(s.row) then To(s.(row := Extend(s.row, s.now)), Handling(wake, outer, beating))
      else To(s, Handling(wake, if outer == Racing then LeaseLost else outer, false))
    case RenewThrow =>
      To(s, Handling(wake, if outer == Racing then Releasing else outer, false))
    case LateRenew => To(s.(row := Extend(s.row, s.now)), Handling(wake, outer, beating))
    case SettleRace =>
      if wake.WakeFailed? then To(s, Handling(wake, Releasing, beating))
      else To(s, Handling(wake, Resolving(wake.result), beating && outer == Racing))
    case Rehold(reached) =>
      if reached && CanExtend(s.row) then
        To(s.(row := Extend(s.row, s.now)), Handling(wake, AwaitingWake, true))
      else To(s, Handling(wake, AwaitingWake, false))
    case ResolveRow(reached) =>
      To(if reached then s.(row := Resolve(s.row, outer.Resolving? && outer.woken)) else s,
         Handling(wake, Finishing, beating))
    case Finish =>
      if outer == Orphan then End(s)
      else To(s.(inFlight := s.inFlight - {inst}), Handling(wake, Orphan, false))
  }

  // ---- one reconcile pass ----

  predicate PassEnabled(pc: Pc, a: PassAct) {
    !InHandler(pc) &&
    match a
    case Go => !pc.SendUser? && !pc.Post?
    case Skip => pc.RecoverScan? || pc.AmbientScan? || pc.QueueScan? || pc.DeliverScan?
    case Choose(reason) => pc.AmbientScan? && (reason == NoReason || reason.Text?)
    case SendCreates(_) => pc.SendUser?
    case Silent => pc.DeliverScan?
    case Reply(_) => pc.Post?
    case Throw => !pc.Done?
  }

  function RecoverStep(s: Shared, inst: Inst, pc: Pc): Move
    requires PassEnabled(pc, Go)
    requires InRecovery(pc)
  {
    match pc
    case RecoverScan(t) =>
      if s.row.status == Deferred && ExpiredBy(s.row.lease, t)
      then To(s, RecoverFind(t, s.row.reason)) else To(s, ResetQueueing(t))
    case RecoverFind(t, reason) => To(s, RecoverDecide(t, reason, s.nonce))
    case RecoverDecide(t, reason, woken) =>
      if woken then To(s, RecoverIgnore(t))
      else if !Routed(reason) then To(s, RecoverPromote(t))
      else if inst in s.inFlight then To(s, ResetQueueing(t))
      else To(s, RecoverClear(t))
    case RecoverIgnore(t) => To(s.(row := IgnoreWoken(s.row, t)), ResetQueueing(t))
    case RecoverClear(t) => To(s.(row := Clear(s.row, t)), ResetQueueing(t))
    case RecoverPromote(t) => To(s.(row := Promote(s.row, t)), ResetQueueing(t))
    case ResetQueueing(t) => To(s.(row := Reset(s.row, t)), AmbientScan(t))
  }

  /** findMany over received rows, then the checks queue makes on that snapshot. */
  function QueueScanStep(s: Shared, t: nat): Move
  {
    if !(s.row.status == Received && DueBy(s.row.lease, t)) then To(s, DeliverScan(t))
    else if s.slack then To(s, QueueSlack(t, s.row.attempts))
    else if Routed(s.row.reason) then To(s, DeliverScan(t))
    else To(s, FindBeforeClaim(t, s.row.attempts))
  }

  function QueueStep(s: Shared, pc: Pc): Move
    requires PassEnabled(pc, Go)
    requires InQueue(pc) && !pc.SendUser?
  {
    match pc
    case FindBeforeClaim(t, n) => To(s, if s.nonce then AbandonUnclaimed(t, n) else ClaimQueueing(t, n))
    case AbandonUnclaimed(t, n) => To(s.(row := AbandonReceived(s.row)), DeliverScan(t))
    case ClaimQueueing(t, n) =>
      if CanClaim(s.row) then To(s.(row := Claim(s.row, s.now)), FindAfterClaim(t, n))
      else To(s, DeliverScan(t))
    case FindAfterClaim(t, n) => To(s, if s.nonce then AbandonClaimed(t, n, None) else Barrier(t, n))
    case Barrier(t, n) =>
      To(s, if CanLink(s.row) then FindAtBarrier(t, n) else AbandonClaimed(t, n, None))
    case FindAtBarrier(t, n) => To(s, if s.nonce then AbandonClaimed(t, n, None) else SendUser(t, n))
    case FindAfterSend(t, n, run) => To(s, if s.nonce then CancelRun(t, n, run) else LinkRun(t, n, run))
    case CancelRun(t, n, run) =>
      var cancelled := s.run.Some? && s.run.value == AgentRun(run, Active);
      To(if cancelled then s.(run := Some(AgentRun(run, Cancelled))) else s,
         AbandonClaimed(t, n, Some(run)))
    case AbandonClaimed(t, n, _) => To(s.(row := AbandonQueueing(s.row)), DeliverScan(t))
    case LinkRun(t, n, run) =>
      if CanLink(s.row) then To(s.(row := Link(s.row, run)), EnqueueRun(t, n, run))
      else To(s, RetryRead(n, Some(t)))
    case EnqueueRun(t, n, run) => To(s, DeliverScan(t))
  }

  /** findMany over running and delivering rows whose run has ended, then the completion or failure path. */
  function DeliverScanStep(s: Shared, t: nat, empty: bool): Move
  {
    if !(Linked(s.row.status) && s.row.status != Delivered && DueBy(s.row.lease, t)
         && s.run.Some? && s.run.value.state != Active)
    then To(s, Done)
    else if s.row.kind == Ambient && s.run.value.state != Completed
    then To(s, DeliverSilent(s.row.attempts, "silent-failure"))
    else if s.row.kind == Ambient && empty
    then To(s, DeliverSilent(s.row.attempts, "silent"))
    else To(s, ReserveSend(s.row.attempts))
  }

  function DeliveryStep(s: Shared, pc: Pc): Move
    requires PassEnabled(pc, Go)
    requires InDelivery(pc) && !pc.Post?
  {
    match pc
    case DeliverSilent(n, h) => To(s.(row := MarkDelivered(s.row, h)), Done)
    case ReserveSend(n) =>
      if CanReserveDelivery(s.row) then To(s.(row := ReserveDelivery(s.row, s.now)), ReadHandle(n))
      else To(s, FindPosted(n, s.now))
    case FindPosted(n, at) =>
      if s.row.status == Delivering && Truthy(s.row.handle) then To(s, Finalize(n, s.row.handle.value))
      else To(s, ExpireSend(n, at))
    case ExpireSend(n, at) => To(s.(row := ExpireDelivery(s.row, at)), Done)
    case ReadHandle(n) =>
      To(s, if Truthy(s.row.handle) then Finalize(n, s.row.handle.value) else Post(n))
    case SaveHandle(n, h) => To(s.(row := StoreHandle(s.row, h)), Finalize(n, h))
    case Finalize(n, h) => To(s.(row := MarkDelivered(s.row, h)), Done)
  }

  function Resume(next: Option<nat>): Pc {
    if next.Some? then DeliverScan(next.value) else Done
  }

  function RetryStep(s: Shared, pc: Pc): Move
    requires PassEnabled(pc, Go)
    requires InRetry(pc)
  {
    match pc
    case RetryRead(n, next) =>
      if Truthy(s.row.handle) then
        To(s, if s.row.status == Delivered then Resume(next) else RetryFinalize(s.row.handle.value, next))
      else if s.row.status == Delivered then To(s, Resume(next))
      else To(s, RetryWrite(n + 1, s.row.status, next))
    case RetryFinalize(h, next) => To(s.(row := MarkDelivered(s.row, h)), Resume(next))
    case RetryWrite(n, seen, next) => To(s.(row := Retry(s.row, seen, n, s.now)), Resume(next))
  }

  function PassMove(s: Shared, inst: Inst, pc: Pc, a: PassAct): Move
    requires PassEnabled(pc, a)
  {
    match a
    case Go =>
      if InRecovery(pc) then RecoverStep(s, inst, pc)
      else if InQueue(pc) then QueueStep(s, pc)
      else if InDelivery(pc) then DeliveryStep(s, pc)
      else if InRetry(pc) then RetryStep(s, pc)
      else if pc.AmbientScan? then To(s, if CanJudge(s.row) then AmbientDrop(pc.t) else QueueScan(pc.t))
      else if pc.AmbientDrop? then To(s.(row := AmbientIgnore(s.row)), QueueScan(pc.t))
      else if pc.AmbientTrigger? then To(s.(row := AmbientPromote(s.row, pc.reason)), QueueScan(pc.t))
      else if pc.QueueScan? then QueueScanStep(s, pc.t)
      else if pc.QueueSlack? then To(s.(row := SlackDrop(s.row)), DeliverScan(pc.t))
      else if pc.DeliverScan? then DeliverScanStep(s, pc.t, false)
      else End(s)
    case Skip =>
      To(s, if pc.RecoverScan? then ResetQueueing(pc.t)
               else if pc.AmbientScan? then QueueScan(pc.t)
               else if pc.QueueScan? then DeliverScan(pc.t)
               else Done)
    case Choose(reason) =>
      To(s, if CanJudge(s.row) then AmbientTrigger(pc.t, reason) else QueueScan(pc.t))
    case SendCreates(run) =>
      // sendUserMessage is idempotent in its client nonce: a second call finds the first one's run
      var s' := if s.run.None? then s.(run := Some(AgentRun(run, Active))) else s;
      To(s', FindAfterSend(pc.t, pc.attempts, s'.run.value.id))
    case Silent => DeliverScanStep(s, pc.t, true)
    case Reply(h) => To(s.(sends := s.sends + 1), SaveHandle(pc.attempts, h))
    case Throw =>
      // queue and delivery failures go to retry; any other failure rejects the pass
      if InQueue(pc) || pc.QueueSlack? then To(s, RetryRead(pc.attempts, Some(pc.t)))
      else if InDelivery(pc) then To(s, RetryRead(pc.attempts, None))
      else End(s)
  }

  // ---- the whole system ----

  function Place(w: State, p: Pid, m: Move): State
    requires p in w.procs
  {
    w.(s := m.s,
       procs := if m.pc.Some? then w.procs[p := Proc(w.procs[p].inst, m.pc.value)] else w.procs - {p})
  }

  function Spawn(w: State, proc: Proc): State {
    w.(procs := w.procs[w.nextPid := proc], nextPid := w.nextPid + 1)
  }

  predicate Enabled(w: State, a: Action) {
    match a
    case Tick(_) => true
    case Crash(_) => true
    case RunEnds(state) => w.s.run.Some? && w.s.run.value.state == Active && state != Active
    case Inbound(_) => true
    // start() runs before the instance serves inbound events or arms its timer
    case Restart(inst) => forall p :: p in w.procs ==> w.procs[p].inst != inst
    // reconcileOnce joins a pass already running on the instance
    case PassStart(inst) =>
      forall p :: p in w.procs && w.procs[p].inst == inst ==> InHandler(w.procs[p].pc)
    case Handler(p, h) => p in w.procs && HandlerEnabled(w.procs[p].pc, h)
    case Pass(p, b) => p in w.procs && PassEnabled(w.procs[p].pc, b)
  }

  function Step(w: State, a: Action): State
    requires Enabled(w, a)
  {
    var s := w.s;
    match a
    case Tick(ms) => w.(s := s.(now := s.now + ms))
    case Crash(inst) =>
      w.(s := s.(inFlight := s.inFlight - {inst}),
         procs := map p | p in w.procs && w.procs[p].inst != inst :: w.procs[p])
    case RunEnds(state) => w.(s := s.(run := Some(s.run.value.(state := state))))
    case Inbound(inst) =>
      Spawn(w, Proc(inst, Upserted(s.row, s.now)))
    case Restart(inst) => w.(s := s.(row := Clear(s.row, s.now)))
    case PassStart(inst) => Spawn(w, Proc(inst, RecoverScan(s.now)))
    case Handler(p, h) => Place(w, p, HandlerMove(s, w.procs[p].inst, w.procs[p].pc, h))
    case Pass(p, b) => Place(w, p, PassMove(s, w.procs[p].inst, w.procs[p].pc, b))
  }

  /** A run: from `w`, the actions are enabled one after the other. */
  predicate IsRun(w: State, acts: seq<Action>)
    decreases |acts|
  {
    acts == [] || (Enabled(w, acts[0]) && IsRun(Step(w, acts[0]), acts[1..]))
  }

  function After(w: State, acts: seq<Action>): State
    requires IsRun(w, acts)
    decreases |acts|
  {
    if acts == [] then w else After(Step(w, acts[0]), acts[1..])
  }

  /** Runs grow at the end. */
  lemma {:induction false} RunSnoc(from: State, acts: seq<Action>, a: Action)
    requires IsRun(from, acts) && Enabled(After(from, acts), a)
    ensures IsRun(from, acts + [a]) && After(from, acts + [a]) == Step(After(from, acts), a)
    decreases |acts|
  {
    var all := acts + [a];
    if acts == [] {
      assert all[1..] == [];
    } else {
      assert all[0] == acts[0] && all[1..] == acts[1..] + [a];
      RunSnoc(Step(from, acts[0]), acts[1..], a);
    }
  }
}
