/** Concrete runs: exclusivity fails when a renewal throws before its wake committed, when a routing
    lease runs out under its wake on another instance, when a second delivery is let in beside a
    running handler, when a wake reserves a row the ambient judge was already given, or when a
    retry on another instance resets a row under a queue attempt; and a run created beside a wake
    outlives an attempt that fails before its cancel. */
module TeamChatScenarios {
  import opened Wrappers
  import opened TeamChatRow
  import opened TeamChatProtocol
  import opened TeamChatExclusivity

  /** The state right after instance 0 upserted a new message, deferred, at time 0. */
  function FirstDelivery(kind: Kind): State {
    var row := Created(kind, true, 0);
    State(Shared(false, 0, row, false, None, 0, {}),
          map[0 := Proc(0, Upserted(row, 0))], 1)
  }

  function Fresh(): State {
    FirstDelivery(Direct)
  }

  lemma DeliveryInit(kind: Kind)
    ensures Init(FirstDelivery(kind))
  {
    assert InitDeferred(FirstDelivery(kind), 0);
  }

  lemma FreshInit()
    ensures Init(Fresh())
  {
    DeliveryInit(Direct);
  }

  /** A direct message that was stored for the agent at once. */
  function Posted(): State {
    State(Shared(false, 0, Created(Direct, false, 0), false, None, 0, {}), map[], 1)
  }

  /** What can go wrong in a run. */
  datatype Hazard = TimePasses | InstanceStops | SecondDelivery | OtherInstance | RenewalFails | CallFails

  function Hazards(a: Action): set<Hazard> {
    match a
    case Tick(_) => {TimePasses}
    case Crash(_) => {InstanceStops}
    case Restart(_) => {InstanceStops}
    case Inbound(_) => {SecondDelivery}
    case PassStart(inst) => if inst == 0 then {} else {OtherInstance}
    case Handler(_, h) => if h == RenewThrow then {RenewalFails} else if h == WakeThrow || h == Abort then {CallFails} else {}
    case Pass(_, b) => if b == Throw then {CallFails} else {}
    case RunEnds(_) => {}
  }

  function AllHazards(acts: seq<Action>): set<Hazard> {
    if acts == [] then {} else Hazards(acts[0]) + AllHazards(acts[1..])
  }

  lemma {:induction false} HazardsSnoc(acts: seq<Action>, a: Action)
    ensures AllHazards(acts + [a]) == AllHazards(acts) + Hazards(a)
  {
    if acts != [] {
      assert (acts + [a])[0] == acts[0] && (acts + [a])[1..] == acts[1..] + [a];
      HazardsSnoc(acts[1..], a);
    }
  }

  /** A run, recorded with where it began, the state it reaches and what went wrong on the way. */
  datatype Trace = Trace(from: State, acts: seq<Action>, w: State, hazards: set<Hazard>)

  ghost predicate Valid(t: Trace) {
    IsRun(t.from, t.acts) && After(t.from, t.acts) == t.w && AllHazards(t.acts) == t.hazards
  }

  lemma Do(t: Trace, a: Action) returns (t': Trace)
    requires Valid(t) && Enabled(t.w, a)
    ensures Valid(t') && t'.from == t.from && t'.w == Step(t.w, a) && t'.hazards == t.hazards + Hazards(a)
  {
    RunSnoc(t.from, t.acts, a);
    HazardsSnoc(t.acts, a);
    t' := Trace(t.from, t.acts + [a], Step(t.w, a), t.hazards + Hazards(a));
  }

  /** One step of pass `p`, with the move it makes. */
  lemma By(t: Trace, p: Pid, a: PassAct, m: Move) returns (t': Trace)
    requires Valid(t) && p in t.w.procs && a != Throw && PassEnabled(t.w.procs[p].pc, a)
    requires m == PassMove(t.w.s, t.w.procs[p].inst, t.w.procs[p].pc, a) && m.pc.Some?
    ensures Valid(t') && t'.from == t.from && t'.hazards == t.hazards
    ensures t'.w == Placed(t.w, p, m.s, m.pc.value)
  {
    t' := Do(t, Pass(p, a));
  }

  function Placed(w: State, p: Pid, s: Shared, pc: Pc): State
    requires p in w.procs
  {
    w.(s := s, procs := w.procs[p := Proc(w.procs[p].inst, pc)])
  }

  predicate NoPass(w: State, inst: Inst) {
    forall p :: p in w.procs && w.procs[p].inst == inst ==> InHandler(w.procs[p].pc)
  }

  lemma Begin(t: Trace, inst: Inst) returns (t': Trace)
    requires Valid(t) && NoPass(t.w, inst)
    ensures Valid(t') && t'.from == t.from && t'.hazards == t.hazards + Hazards(PassStart(inst))
    ensures t'.w == Spawn(t.w, Proc(inst, RecoverScan(t.w.s.now)))
  {
    t' := Do(t, PassStart(inst));
  }

  // ---- one whole fallback: a pass takes the received row nobody owns to a linked run ----

  predicate Unclaimed(s: Shared) {
    Open(s) && s.run.None?
  }

  predicate Open(s: Shared) {
    && !s.slack && !s.nonce
    && s.row.status == Received && s.row.reason == NoReason && DueBy(s.row.lease, s.now)
  }

  /** `t'` is `t` with pass `p` moved to `pc`. */
  ghost predicate Moved(t: Trace, t': Trace, p: Pid, pc: Pc)
    requires p in t.w.procs
  {
    Valid(t') && t'.from == t.from && t'.hazards == t.hazards && t'.w == Placed(t.w, p, t.w.s, pc)
  }

  lemma ToAmbient(t: Trace, p: Pid) returns (t': Trace)
    requires Valid(t) && Open(t.w.s) && p in t.w.procs && t.w.procs[p].pc == RecoverScan(t.w.s.now)
    ensures Moved(t, t', p, AmbientScan(t.w.s.now))
  {
    t' := By(t, p, Skip, To(t.w.s, ResetQueueing(t.w.s.now)));
    t' := By(t', p, Go, To(t.w.s, AmbientScan(t.w.s.now)));
  }

  lemma ToQueue(t: Trace, p: Pid) returns (t': Trace)
    requires Valid(t) && Open(t.w.s) && p in t.w.procs && t.w.procs[p].pc == AmbientScan(t.w.s.now)
    ensures Moved(t, t', p, FindBeforeClaim(t.w.s.now, t.w.s.row.attempts))
  {
    t' := By(t, p, Skip, To(t.w.s, QueueScan(t.w.s.now)));
    t' := By(t', p, Go, To(t.w.s, FindBeforeClaim(t.w.s.now, t.w.s.row.attempts)));
  }

  lemma ToClaimed(t: Trace, p: Pid) returns (t': Trace)
    requires Valid(t) && Open(t.w.s) && p in t.w.procs && t.w.procs[p].pc == FindBeforeClaim(t.w.s.now, t.w.s.row.attempts)
    ensures Valid(t') && t'.from == t.from && t'.hazards == t.hazards
    ensures t'.w == Placed(t.w, p, t.w.s.(row := Claim(t.w.s.row, t.w.s.now)), FindAfterClaim(t.w.s.now, t.w.s.row.attempts))
  {
    var s := t.w.s;
    t' := By(t, p, Go, To(s, ClaimQueueing(s.now, s.row.attempts)));
    t' := By(t', p, Go, To(s.(row := Claim(s.row, s.now)), FindAfterClaim(s.now, s.row.attempts)));
  }

  lemma ToSend(t: Trace, p: Pid) returns (t': Trace)
    requires Valid(t) && CanLink(t.w.s.row) && !t.w.s.nonce && p in t.w.procs
    requires t.w.procs[p].pc == FindAfterClaim(t.w.s.now, t.w.s.row.attempts)
    ensures Moved(t, t', p, SendUser(t.w.s.now, t.w.s.row.attempts))
  {
    var s := t.w.s;
    t' := ToBarrier(t, p);
    t' := By(t', p, Go, To(s, SendUser(s.now, s.row.attempts)));
  }

  lemma ToBarrier(t: Trace, p: Pid) returns (t': Trace)
    requires Valid(t) && CanLink(t.w.s.row) && !t.w.s.nonce && p in t.w.procs
    requires t.w.procs[p].pc == FindAfterClaim(t.w.s.now, t.w.s.row.attempts)
    ensures Moved(t, t', p, FindAtBarrier(t.w.s.now, t.w.s.row.attempts))
  {
    var s := t.w.s;
    t' := By(t, p, Go, To(s, Barrier(s.now, s.row.attempts)));
    t' := By(t', p, Go, To(s, FindAtBarrier(s.now, s.row.attempts)));
  }

  lemma ToCreated(t: Trace, p: Pid) returns (t': Trace)
    requires Valid(t) && CanLink(t.w.s.row) && !t.w.s.nonce && t.w.s.run.None?
    requires p in t.w.procs && t.w.procs[p].pc == SendUser(t.w.s.now, t.w.s.row.attempts)
    ensures Valid(t') && t'.from == t.from && t'.hazards == t.hazards
    ensures t'.w == Placed(t.w, p, t.w.s.(run := Some(AgentRun(7, Active))), FindAfterSend(t.w.s.now, t.w.s.row.attempts, 7))
  {
    var s := t.w.s;
    t' := By(t, p, SendCreates(7), To(s.(run := Some(AgentRun(7, Active))), FindAfterSend(s.now, s.row.attempts, 7)));
  }

  lemma ToLinked(t: Trace, p: Pid) returns (t': Trace)
    requires Valid(t) && CanLink(t.w.s.row) && !t.w.s.nonce && t.w.s.run == Some(AgentRun(7, Active))
    requires p in t.w.procs && t.w.procs[p].pc == FindAfterSend(t.w.s.now, t.w.s.row.attempts, 7)
    ensures Valid(t') && t'.from == t.from && t'.hazards == t.hazards
    ensures t'.w.s == t.w.s.(row := Link(t.w.s.row, 7))
    ensures t'.w.procs == t.w.procs[p := Proc(t.w.procs[p].inst, EnqueueRun(t.w.s.now, t.w.s.row.attempts, 7))]
  {
    var s := t.w.s;
    t' := By(t, p, Go, To(s, LinkRun(s.now, s.row.attempts, 7)));
    t' := By(t', p, Go, To(s.(row := Link(s.row, 7)), EnqueueRun(s.now, s.row.attempts, 7)));
  }

  /** A new pass goes as far as its first look at the wake nonce. */
  lemma Approach(t: Trace, inst: Inst) returns (t': Trace)
    requires Valid(t) && Open(t.w.s) && NoPass(t.w, inst) && t.w.nextPid !in t.w.procs
    ensures Valid(t') && t'.from == t.from && t'.hazards == t.hazards + Hazards(PassStart(inst))
    ensures t'.w == Spawn(t.w, Proc(inst, FindBeforeClaim(t.w.s.now, t.w.s.row.attempts)))
  {
    var p := t.w.nextPid;
    t' := Begin(t, inst);
    t' := ToAmbient(t', p);
    t' := ToQueue(t', p);
    assert t'.w.procs == t.w.procs[p := Proc(inst, FindBeforeClaim(t.w.s.now, t.w.s.row.attempts))];
  }

  /** The row is linked to a new agent run. */
  function Asked(s: Shared): Shared {
    s.(row := s.row.(status := Running, reason := AgentOwned, lease := None, runId := Some(7)), run := Some(AgentRun(7, Active)))
  }

  lemma Fallback(t: Trace, inst: Inst) returns (t': Trace)
    requires Valid(t) && Unclaimed(t.w.s) && NoPass(t.w, inst) && t.w.nextPid !in t.w.procs
    ensures Valid(t') && t'.from == t.from && t'.hazards == t.hazards + Hazards(PassStart(inst))
    ensures t'.w.s == Asked(t.w.s)
    ensures forall q :: q in t.w.procs ==> q in t'.w.procs && t'.w.procs[q] == t.w.procs[q]
  {
    t' := Approach(t, inst);
    t' := FromQueue(t', t.w.nextPid);
  }

  lemma FromQueue(t: Trace, p: Pid) returns (t': Trace)
    requires Valid(t) && Unclaimed(t.w.s) && p in t.w.procs && t.w.procs[p].pc == FindBeforeClaim(t.w.s.now, t.w.s.row.attempts)
    ensures Valid(t') && t'.from == t.from && t'.hazards == t.hazards && t'.w.s == Asked(t.w.s)
    ensures t'.w.procs == t.w.procs[p := Proc(t.w.procs[p].inst, EnqueueRun(t.w.s.now, t.w.s.row.attempts, 7))]
  {
    t' := ToSent(t, p);
    t' := ToLinked(t', p);
  }

  // ---- a handler's way to a reserved, uncommitted wake ----

  lemma ToMarked() returns (t: Trace)
    ensures Valid(t) && t.from == Fresh() && t.hazards == {} && t.w.nextPid == 1
    ensures t.w.s == OwnedByWake()
    ensures t.w.procs == map[0 := Proc(0, Handling(Unreserved, Racing, true))]
  {
    t := Trace(Fresh(), [], Fresh(), {});
    t := Do(t, Handler(0, TryDefer));
    t := Do(t, Handler(0, TryExtend));
    t := Do(t, Handler(0, Mark));
    assert t.w.procs == map[0 := Proc(0, Handling(Unreserved, Racing, true))];
  }

  /** The shared state while the first handler owns the row. */
  function OwnedByWake(): Shared {
    var s := Fresh().s;
    s.(row := s.row.(reason := Routing, lease := Some(ROUTING_RESERVATION_MS)), inFlight := {0})
  }

  lemma ToReserved() returns (t: Trace)
    ensures Valid(t) && t.from == Fresh() && t.hazards == {} && t.w.nextPid == 1
    ensures t.w.s == OwnedByWake()
    ensures t.w.procs == map[0 := Proc(0, Handling(Reserved, Racing, true))]
  {
    t := ToMarked();
    t := Do(t, Handler(0, WakeReserve(true)));
    assert t.w.procs == map[0 := Proc(0, Handling(Reserved, Racing, true))];
  }

  lemma Commit(t: Trace) returns (t': Trace)
    requires Valid(t) && t.w.s.row.status == Running
    requires 0 in t.w.procs && t.w.procs[0].pc.Handling? && t.w.procs[0].pc.wake == Reserved
    ensures Valid(t') && t'.from == t.from && t'.hazards == t.hazards && !Exclusive(t'.w.s)
  {
    t' := Do(t, Handler(0, WakeCommit));
  }

  lemma RenewalErrorTrace() returns (t: Trace)
    ensures Valid(t) && t.from == Fresh() && !Exclusive(t.w.s) && t.hazards == {RenewalFails}
  {
    t := ToReserved();
    t := ReleaseOnError(t);
    t := Fallback(t, 0);
    t := Commit(t);
  }

  /** One instance, one handler, no lease running out, nothing else failing: a renewal that
      throws while the wake is in flight lets a wake and an agent run own the same event. */
  lemma RenewalErrorBreaksExclusivity() returns (acts: seq<Action>)
    ensures Init(Fresh()) && IsRun(Fresh(), acts) && !Exclusive(After(Fresh(), acts).s)
    ensures AllHazards(acts) == {RenewalFails}
  {
    FreshInit();
    var t := RenewalErrorTrace();
    acts := t.acts;
  }

  /** The handler hands the row to the agent although its wake has not settled. */
  lemma ReleaseOnError(t: Trace) returns (t': Trace)
    requires Valid(t) && t.hazards == {} && t.w.nextPid == 1 && t.w.s == OwnedByWake()
    requires t.w.procs == map[0 := Proc(0, Handling(Reserved, Racing, true))]
    ensures Valid(t') && t'.from == t.from && t'.hazards == {RenewalFails} && t'.w.nextPid == 1 && Unclaimed(t'.w.s)
    ensures t'.w.procs == map[0 := Proc(0, Handling(Reserved, Finishing, false))]
  {
    t' := Do(t, Handler(0, RenewThrow));
    assert t'.w.procs == map[0 := Proc(0, Handling(Reserved, Releasing, false))];
    t' := Do(t', Handler(0, ResolveRow(true)));
    assert t'.w.procs == map[0 := Proc(0, Handling(Reserved, Finishing, false))];
  }

  lemma ExpiredLeaseTrace() returns (t: Trace)
    ensures Valid(t) && t.from == Fresh() && !Exclusive(t.w.s) && t.hazards == {TimePasses, OtherInstance}
  {
    t := ToReserved();
    t := ToOrphaned(t);
    t := Fallback(t, 3);
    t := Commit(t);
  }

  /** Two other instances clear and promote the row under a wake whose lease has run out. */
  lemma ToOrphaned(t: Trace) returns (t': Trace)
    requires Valid(t) && t.hazards == {} && t.w.nextPid == 1 && t.w.s == OwnedByWake()
    requires t.w.procs == map[0 := Proc(0, Handling(Reserved, Racing, true))]
    ensures Valid(t') && t'.from == t.from && t'.hazards == {TimePasses, OtherInstance} && Unclaimed(t'.w.s)
    ensures t'.w.nextPid == 3 && t'.w.procs.Keys == {0, 1, 2} && t'.w.procs[0] == t.w.procs[0]
    ensures t'.w.procs[1].inst == 1 && t'.w.procs[2].inst == 2
    ensures !Claimed(t'.w.procs[1].pc) && !Claimed(t'.w.procs[2].pc) && t'.w.s.row.handle.None? && t'.w.s.row.runId.None?
  {
    t' := ClearOrphan(t);
    t' := PromoteOrphan(t');
  }

  lemma ClearOrphan(t: Trace) returns (t': Trace)
    requires Valid(t) && t.hazards == {} && t.w.nextPid == 1 && t.w.s == OwnedByWake()
    requires t.w.procs == map[0 := Proc(0, Handling(Reserved, Racing, true))]
    ensures Valid(t') && t'.from == t.from && t'.hazards == {TimePasses, OtherInstance} && t'.w.nextPid == 2
    ensures t'.w.s == OwnedByWake().(now := ROUTING_RESERVATION_MS, row := Clear(OwnedByWake().row, ROUTING_RESERVATION_MS))
    ensures t'.w.procs == t.w.procs[1 := Proc(1, ResetQueueing(ROUTING_RESERVATION_MS))]
  {
    t' := PassAfterLease(t);
    t' := ToCleared(t', 1);
  }

  lemma PassAfterLease(t: Trace) returns (t': Trace)
    requires Valid(t) && t.hazards == {} && t.w.nextPid == 1 && t.w.s == OwnedByWake()
    requires t.w.procs == map[0 := Proc(0, Handling(Reserved, Racing, true))]
    ensures Valid(t') && t'.from == t.from && t'.hazards == {TimePasses, OtherInstance} && t'.w.nextPid == 2
    ensures t'.w.s == OwnedByWake().(now := ROUTING_RESERVATION_MS)
    ensures t'.w.procs == t.w.procs[1 := Proc(1, RecoverScan(ROUTING_RESERVATION_MS))]
  {
    t' := Do(t, Tick(ROUTING_RESERVATION_MS));
    t' := Begin(t', 1);
  }

  lemma PromoteOrphan(t: Trace) returns (t': Trace)
    requires Valid(t) && t.w.nextPid == 2 && t.w.procs.Keys == {0, 1}
    requires t.w.procs[0].inst == 0 && t.w.procs[1].inst == 1 && t.w.s.now == ROUTING_RESERVATION_MS
    requires t.w.s == OwnedByWake().(now := ROUTING_RESERVATION_MS, row := Clear(OwnedByWake().row, ROUTING_RESERVATION_MS))
    ensures Valid(t') && t'.from == t.from && t'.hazards == t.hazards + {OtherInstance} && Unclaimed(t'.w.s) && t'.w.nextPid == 3
    ensures t'.w.procs == t.w.procs[2 := Proc(2, ResetQueueing(t.w.s.now))]
    ensures t'.w.s.row.handle.None? && t'.w.s.row.runId.None?
  {
    t' := Begin(t, 2);
    t' := ToPromoted(t', 2);
  }

  /** No call fails: several instances and a routing lease that runs out under its wake are enough. */
  lemma ExpiredLeaseBreaksExclusivity() returns (acts: seq<Action>)
    ensures Init(Fresh()) && IsRun(Fresh(), acts) && !Exclusive(After(Fresh(), acts).s)
    ensures AllHazards(acts) == {TimePasses, OtherInstance}
  {
    FreshInit();
    var t := ExpiredLeaseTrace();
    acts := t.acts;
  }

  /** On one instance, with nothing failing: the first handler's lease runs out, a second delivery of the
      event wins the deferral, finds no routine and hands the row to the agent, and the first handler's
      wake still commits. */
  lemma SecondDeliveryBreaksExclusivity() returns (acts: seq<Action>)
    ensures Init(Fresh()) && IsRun(Fresh(), acts) && !Exclusive(After(Fresh(), acts).s)
    ensures AllHazards(acts) == {TimePasses, SecondDelivery}
  {
    FreshInit();
    var t := SecondDeliveryTrace();
    acts := t.acts;
  }

  lemma SecondDeliveryTrace() returns (t: Trace)
    ensures Valid(t) && t.from == Fresh() && !Exclusive(t.w.s) && t.hazards == {TimePasses, SecondDelivery}
  {
    t := ToReserved();
    t := SecondComes(t);
    t := SecondHolds(t);
    t := SecondReleases(t);
    t := Fallback(t, 0);
    t := Commit(t);
  }

  lemma SecondComes(t: Trace) returns (t': Trace)
    requires Valid(t) && t.hazards == {} && t.w.nextPid == 1 && t.w.s == OwnedByWake()
    requires t.w.procs == map[0 := Proc(0, Handling(Reserved, Racing, true))]
    ensures Valid(t') && t'.from == t.from && t'.hazards == {TimePasses, SecondDelivery} && t'.w.nextPid == 2
    ensures t'.w.s == OwnedByWake().(now := ROUTING_RESERVATION_MS)
    ensures t'.w.procs == t.w.procs[1 := Proc(0, Upserted(OwnedByWake().row, ROUTING_RESERVATION_MS))]
  {
    t' := Do(t, Tick(ROUTING_RESERVATION_MS));
    t' := Do(t', Inbound(0));
  }

  lemma SecondHolds(t: Trace) returns (t': Trace)
    requires Valid(t) && t.w.nextPid == 2 && t.w.s == OwnedByWake().(now := ROUTING_RESERVATION_MS)
    requires t.w.procs == map[0 := Proc(0, Handling(Reserved, Racing, true)),
                              1 := Proc(0, Upserted(OwnedByWake().row, ROUTING_RESERVATION_MS))]
    ensures Valid(t') && t'.from == t.from && t'.hazards == t.hazards && t'.w.nextPid == 2
    ensures t'.w.s.row.status == Deferred && t'.w.s == t.w.s.(row := t'.w.s.row)
    ensures t'.w.s.row == t.w.s.row.(lease := t'.w.s.row.lease)
    ensures t'.w.procs == t.w.procs[1 := Proc(0, Handling(Unreserved, Racing, true))]
  {
    t' := Do(t, Handler(1, TryDefer));
    t' := Do(t', Handler(1, TryExtend));
    t' := Do(t', Handler(1, Mark));
    assert t'.w.s.inFlight == t.w.s.inFlight;
  }

  /** The second handler's wake finds no routine, so it releases the row. */
  lemma SecondReleases(t: Trace) returns (t': Trace)
    requires Valid(t) && t.w.nextPid == 2 && t.w.s.row.status == Deferred
    requires t.w.s == OwnedByWake().(now := t.w.s.now, row := t.w.s.row)
    requires t.w.s.row == OwnedByWake().row.(lease := t.w.s.row.lease)
    requires t.w.procs == map[0 := Proc(0, Handling(Reserved, Racing, true)), 1 := Proc(0, Handling(Unreserved, Racing, true))]
    ensures Valid(t') && t'.from == t.from && t'.hazards == t.hazards && t'.w.nextPid == 2 && Unclaimed(t'.w.s)
    ensures t'.w.procs == t.w.procs[1 := Proc(0, Handling(Woken(false), Finishing, true))]
  {
    t' := SecondSettles(t);
    t' := Do(t', Handler(1, ResolveRow(true)));
  }

  lemma SecondSettles(t: Trace) returns (t': Trace)
    requires Valid(t) && t.w.nextPid == 2 && t.w.s.row.status == Deferred
    requires t.w.procs == map[0 := Proc(0, Handling(Reserved, Racing, true)), 1 := Proc(0, Handling(Unreserved, Racing, true))]
    ensures Valid(t') && t'.from == t.from && t'.hazards == t.hazards && t'.w.nextPid == 2 && t'.w.s == t.w.s
    ensures t'.w.procs == t.w.procs[1 := Proc(0, Handling(Woken(false), Resolving(false), true))]
  {
    t' := Do(t, Handler(1, WakeReserve(false)));
    t' := Do(t', Handler(1, SettleRace));
  }

  // ---- two deliveries at one instant ----

  /** No time passes and nothing fails: two deliveries that defer the row at the very same instant are
      both let in, one finds no routine and hands the row to the agent, the other's wake commits. */
  lemma SameInstantBreaksExclusivity() returns (acts: seq<Action>)
    ensures Init(Fresh()) && IsRun(Fresh(), acts) && !Exclusive(After(Fresh(), acts).s)
    ensures AllHazards(acts) == {SecondDelivery}
  {
    FreshInit();
    var t := TwinsDefer();
    t := TwinHolds(t);
    t := SecondReleases(t);
    t := Fallback(t, 0);
    t := Commit(t);
    acts := t.acts;
  }

  lemma TwinsDefer() returns (t: Trace)
    ensures Valid(t) && t.from == Fresh() && t.hazards == {SecondDelivery} && t.w.nextPid == 2 && t.w.s == OwnedByWake()
    ensures t.w.procs == map[0 := Proc(0, Handling(Reserved, Racing, true)), 1 := Proc(0, Upserted(Fresh().s.row, 0))]
  {
    t := TwinMarks();
    t := Do(t, Handler(0, WakeReserve(true)));
    assert t.w.procs == map[0 := Proc(0, Handling(Reserved, Racing, true)), 1 := Proc(0, Upserted(Fresh().s.row, 0))];
  }

  lemma TwinMarks() returns (t: Trace)
    ensures Valid(t) && t.from == Fresh() && t.hazards == {SecondDelivery} && t.w.nextPid == 2 && t.w.s == OwnedByWake()
    ensures t.w.procs == map[0 := Proc(0, Handling(Unreserved, Racing, true)), 1 := Proc(0, Upserted(Fresh().s.row, 0))]
  {
    t := TwinsArrive();
    t := Do(t, Handler(0, TryExtend));
    t := Do(t, Handler(0, Mark));
    assert t.w.procs == map[0 := Proc(0, Handling(Unreserved, Racing, true)), 1 := Proc(0, Upserted(Fresh().s.row, 0))];
  }

  lemma TwinsArrive() returns (t: Trace)
    ensures Valid(t) && t.from == Fresh() && t.hazards == {SecondDelivery} && t.w.nextPid == 2 && t.w.s == Fresh().s
    ensures t.w.procs == map[0 := Proc(0, DeferredHere), 1 := Proc(0, Upserted(Fresh().s.row, 0))]
  {
    t := Trace(Fresh(), [], Fresh(), {});
    t := Do(t, Inbound(0));
    t := Do(t, Handler(0, TryDefer));
    assert t.w.procs == map[0 := Proc(0, DeferredHere), 1 := Proc(0, Upserted(Fresh().s.row, 0))];
  }

  lemma TwinHolds(t: Trace) returns (t': Trace)
    requires Valid(t) && t.w.nextPid == 2 && t.w.s == OwnedByWake()
    requires t.w.procs == map[0 := Proc(0, Handling(Reserved, Racing, true)), 1 := Proc(0, Upserted(Fresh().s.row, 0))]
    ensures Valid(t') && t'.from == t.from && t'.hazards == t.hazards && t'.w.nextPid == 2 && t'.w.s == OwnedByWake()
    ensures t'.w.procs == t.w.procs[1 := Proc(0, Handling(Unreserved, Racing, true))]
  {
    t' := Do(t, Handler(1, TryDefer));
    t' := Do(t', Handler(1, TryExtend));
    t' := Do(t', Handler(1, Mark));
    assert t'.w.s.inFlight == t.w.s.inFlight;
  }

  // ---- an ambient row reserved under the judge ----

  /** On one instance, with one delivery and nothing failing: the lease runs out before the wake is marked
      in flight, two passes clear and release the row, and the judge's update, which guards the status
      only, overwrites the wake's reservation. */
  lemma ObservedReservationBreaksExclusivity() returns (acts: seq<Action>)
    ensures var from := FirstDelivery(Ambient); Init(from) && IsRun(from, acts) && !Exclusive(After(from, acts).s)
    ensures AllHazards(acts) == {TimePasses}
  {
    DeliveryInit(Ambient);
    var t := HeldTooLong();
    t := Judged(t);
    t := Overwritten(t);
    t := Do(t, Tick(ROUTING_RESERVATION_MS));
    t := Fallback(t, 0);
    t := Commit(t);
    acts := t.acts;
  }

  /** The row when its first lease has run out and been cleared. */
  function ClearedRow(): Row {
    Created(Ambient, true, 0).(lease := Some(ROUTING_RESERVATION_MS))
  }

  function Cleared(): Shared {
    Shared(false, ROUTING_RESERVATION_MS, ClearedRow(), false, None, 0, {})
  }

  lemma HeldTooLong() returns (t: Trace)
    ensures Valid(t) && t.from == FirstDelivery(Ambient) && t.hazards == {TimePasses} && t.w.nextPid == 2
    ensures t.w.s == Cleared() && t.w.procs == map[0 := Proc(0, Held)]
  {
    t := HeldAmbient();
    t := ClearedByPass(t);
    t := EndPass(t, 1);
    assert t.w.procs == map[0 := Proc(0, Held)];
  }

  lemma ClearedByPass(t: Trace) returns (t': Trace)
    requires Valid(t) && t.w.nextPid == 1 && t.w.s == Cleared().(row := ClearedRow().(reason := Routing))
    requires t.w.procs == map[0 := Proc(0, Held)]
    ensures Valid(t') && t'.from == t.from && t'.hazards == t.hazards && t'.w.nextPid == 2 && t'.w.s == Cleared()
    ensures t'.w.procs == t.w.procs[1 := Proc(0, ResetQueueing(ROUTING_RESERVATION_MS))]
  {
    t' := Begin(t, 0);
    t' := ToCleared(t', 1);
  }

  lemma HeldAmbient() returns (t: Trace)
    ensures Valid(t) && t.from == FirstDelivery(Ambient) && t.hazards == {TimePasses} && t.w.nextPid == 1
    ensures t.w.s == Cleared().(row := ClearedRow().(reason := Routing)) && t.w.procs == map[0 := Proc(0, Held)]
  {
    t := Trace(FirstDelivery(Ambient), [], FirstDelivery(Ambient), {});
    t := Do(t, Handler(0, TryDefer));
    t := Do(t, Handler(0, TryExtend));
    t := Do(t, Tick(ROUTING_RESERVATION_MS));
    assert t.w.procs == map[0 := Proc(0, Held)];
  }

  /** The rest of a pass that leaves the row alone. */
  lemma EndPass(t: Trace, p: Pid) returns (t': Trace)
    requires Valid(t) && p in t.w.procs && t.w.procs[p].pc == ResetQueueing(t.w.s.now) && t.w.s.row.status != Queueing
    ensures Valid(t') && t'.from == t.from && t'.hazards == t.hazards && t'.w == t.w.(procs := t.w.procs - {p})
  {
    t' := By(t, p, Go, To(t.w.s, AmbientScan(t.w.s.now)));
    t' := By(t', p, Skip, To(t.w.s, QueueScan(t.w.s.now)));
    t' := EndFromQueue(t', p);
    assert t'.w.procs == t.w.procs - {p};
  }

  lemma EndFromQueue(t: Trace, p: Pid) returns (t': Trace)
    requires Valid(t) && p in t.w.procs && t.w.procs[p].pc == QueueScan(t.w.s.now)
    ensures Valid(t') && t'.from == t.from && t'.hazards == t.hazards && t'.w == t.w.(procs := t.w.procs - {p})
  {
    t' := By(t, p, Skip, To(t.w.s, DeliverScan(t.w.s.now)));
    t' := By(t', p, Skip, To(t.w.s, Done));
    t' := Ends(t', p);
    assert t'.w.procs == t.w.procs - {p};
  }

  lemma Ends(t: Trace, p: Pid) returns (t': Trace)
    requires Valid(t) && p in t.w.procs && t.w.procs[p].pc == Done
    ensures Valid(t') && t'.from == t.from && t'.hazards == t.hazards && t'.w == t.w.(procs := t.w.procs - {p})
  {
    t' := Do(t, Pass(p, Go));
  }

  /** The next pass releases the row, and its judge decides to act on it. */
  lemma Judged(t: Trace) returns (t': Trace)
    requires Valid(t) && t.w.nextPid == 2 && t.w.s == Cleared() && t.w.procs == map[0 := Proc(0, Held)]
    ensures Valid(t') && t'.from == t.from && t'.hazards == t.hazards && t'.w.nextPid == 3
    ensures t'.w.s == Cleared().(row := ClearedRow().(status := Observed, lease := None))
    ensures t'.w.procs == map[0 := Proc(0, Held), 2 := Proc(0, AmbientTrigger(ROUTING_RESERVATION_MS, NoReason))]
  {
    t' := ReleasedByPass(t);
    t' := Chosen(t', 2);
    assert t'.w.procs == map[0 := Proc(0, Held), 2 := Proc(0, AmbientTrigger(ROUTING_RESERVATION_MS, NoReason))];
  }

  lemma ReleasedByPass(t: Trace) returns (t': Trace)
    requires Valid(t) && t.w.nextPid == 2 && t.w.s == Cleared() && t.w.procs == map[0 := Proc(0, Held)]
    ensures Valid(t') && t'.from == t.from && t'.hazards == t.hazards && t'.w.nextPid == 3
    ensures t'.w.s == Cleared().(row := ClearedRow().(status := Observed, lease := None))
    ensures t'.w.procs == t.w.procs[2 := Proc(0, ResetQueueing(ROUTING_RESERVATION_MS))]
  {
    t' := Begin(t, 0);
    t' := ToPromoted(t', 2);
  }

  lemma Chosen(t: Trace, p: Pid) returns (t': Trace)
    requires Valid(t) && p in t.w.procs && t.w.procs[p].pc == ResetQueueing(t.w.s.now) && t.w.s.row.status == Observed
    ensures Moved(t, t', p, AmbientTrigger(t.w.s.now, NoReason))
  {
    t' := By(t, p, Go, To(t.w.s, AmbientScan(t.w.s.now)));
    t' := By(t', p, Choose(NoReason), To(t.w.s, AmbientTrigger(t.w.s.now, NoReason)));
  }

  /** The wake reserves the observed row, and the judge's update takes the reservation away. */
  lemma Overwritten(t: Trace) returns (t': Trace)
    requires Valid(t) && t.w.nextPid == 3 && t.w.s == Cleared().(row := ClearedRow().(status := Observed, lease := None))
    requires t.w.procs == map[0 := Proc(0, Held), 2 := Proc(0, AmbientTrigger(ROUTING_RESERVATION_MS, NoReason))]
    ensures Valid(t') && t'.from == t.from && t'.hazards == t.hazards && t'.w.nextPid == 3
    ensures t'.w.s == Cleared().(row := ClearedRow().(status := Received, lease := Some(2 * ROUTING_RESERVATION_MS)), inFlight := {0})
    ensures t'.w.procs == map[0 := Proc(0, Handling(Reserved, Racing, true))]
  {
    t' := ReservedAsObserved(t);
    t' := Promoted(t', 2);
    t' := EndFromQueue(t', 2);
    assert t'.w.procs == map[0 := Proc(0, Handling(Reserved, Racing, true))];
  }

  lemma Promoted(t: Trace, p: Pid) returns (t': Trace)
    requires Valid(t) && p in t.w.procs && t.w.procs[p].pc == AmbientTrigger(t.w.s.now, NoReason)
    ensures Valid(t') && t'.from == t.from && t'.hazards == t.hazards
    ensures t'.w == Placed(t.w, p, t.w.s.(row := AmbientPromote(t.w.s.row, NoReason)), QueueScan(t.w.s.now))
  {
    var s := t.w.s;
    t' := By(t, p, Go, To(s.(row := AmbientPromote(s.row, NoReason)), QueueScan(s.now)));
  }

  lemma ReservedAsObserved(t: Trace) returns (t': Trace)
    requires Valid(t) && t.w.nextPid == 3 && t.w.s == Cleared().(row := ClearedRow().(status := Observed, lease := None))
    requires t.w.procs == map[0 := Proc(0, Held), 2 := Proc(0, AmbientTrigger(ROUTING_RESERVATION_MS, NoReason))]
    ensures Valid(t') && t'.from == t.from && t'.hazards == t.hazards && t'.w.nextPid == 3
    ensures t'.w.s == Cleared().(
      row := ClearedRow().(status := Observed, reason := Routing, lease := Some(2 * ROUTING_RESERVATION_MS)), inFlight := {0})
    ensures t'.w.procs == t.w.procs[0 := Proc(0, Handling(Reserved, Racing, true))]
  {
    t' := MarkedOnly(t);
    t' := ReservedOnly(t');
  }

  lemma ReservedOnly(t: Trace) returns (t': Trace)
    requires Valid(t) && CanReserveWake(t.w.s.row) && 0 in t.w.procs && t.w.procs[0] == Proc(0, Handling(Unreserved, Racing, true))
    ensures Valid(t') && t'.from == t.from && t'.hazards == t.hazards && t'.w.nextPid == t.w.nextPid
    ensures t'.w.s == t.w.s.(row := ReserveWake(t.w.s.row, t.w.s.now))
    ensures t'.w.procs == t.w.procs[0 := Proc(0, Handling(Reserved, Racing, true))]
  {
    t' := Do(t, Handler(0, WakeReserve(true)));
  }

  lemma MarkedOnly(t: Trace) returns (t': Trace)
    requires Valid(t) && 0 in t.w.procs && t.w.procs[0] == Proc(0, Held) && t.w.s.inFlight == {}
    ensures Valid(t') && t'.from == t.from && t'.hazards == t.hazards && t'.w.nextPid == t.w.nextPid
    ensures t'.w.s == t.w.s.(inFlight := {0}) && t'.w.procs == t.w.procs[0 := Proc(0, Handling(Unreserved, Racing, true))]
  {
    t' := Do(t, Handler(0, Mark));
  }

  // ---- a retry that resets a row under another attempt ----

  /** Within four seconds, so with no reservation running out: a retry with a stale view puts the row back
      to received under an attempt about to link it; a wake commits and fails, a third attempt claims
      the row again, and the first one links it. */
  lemma StaleRetryBreaksExclusivity() returns (acts: seq<Action>)
    ensures Init(Posted()) && IsRun(Posted(), acts) && !Exclusive(After(Posted(), acts).s)
    ensures AllHazards(acts) == {TimePasses, OtherInstance, SecondDelivery, CallFails}
    ensures After(Posted(), acts).s.now == 4_000 < QUEUE_RESERVATION_MS
  {
    var t := StaleRetries();
    t := AboutToLink(t);
    t := ResetUnderneath(t);
    t := ThirdApproaches(t);
    t := WakeCommitsAndFails(t);
    t := ClaimedAndLinked(t, 3, 4);
    acts := t.acts;
  }

  /** Two attempts throw while the first holds its claim, and one retry has put the row back. */
  lemma StaleRetries() returns (t: Trace)
    ensures Valid(t) && t.from == Posted() && t.hazards == {OtherInstance, CallFails} && t.w.nextPid == 3
    ensures t.w.s == PutBack(0)
    ensures t.w.procs == map[1 := Proc(1, RetryWrite(1, Queueing, Some(0))), 2 := Proc(2, DeliverScan(0))]
  {
    t := ThrownTwice();
    DelayOnce();
    t := WritesBack(t, 2);
    assert t.w.procs == map[1 := Proc(1, RetryWrite(1, Queueing, Some(0))), 2 := Proc(2, DeliverScan(0))];
  }

  lemma ThrownTwice() returns (t: Trace)
    ensures Valid(t) && t.from == Posted() && t.hazards == {OtherInstance, CallFails} && t.w.nextPid == 3
    ensures t.w.s == Posted().s.(row := Claim(Posted().s.row, 0))
    ensures t.w.procs == map[1 := Proc(1, RetryWrite(1, Queueing, Some(0))), 2 := Proc(2, RetryWrite(1, Queueing, Some(0)))]
  {
    t := TwoApproach();
    t := ToClaimed(t, 1);
    t := BothThrow(t);
  }

  lemma TwoApproach() returns (t: Trace)
    ensures Valid(t) && t.from == Posted() && t.hazards == {OtherInstance} && t.w.nextPid == 3 && t.w.s == Posted().s
    ensures t.w.procs == map[1 := Proc(1, FindBeforeClaim(0, 0)), 2 := Proc(2, FindBeforeClaim(0, 0))]
  {
    t := Trace(Posted(), [], Posted(), {});
    t := Approach(t, 1);
    t := Approach(t, 2);
    assert t.w.procs == map[1 := Proc(1, FindBeforeClaim(0, 0)), 2 := Proc(2, FindBeforeClaim(0, 0))];
  }

  lemma BothThrow(t: Trace) returns (t': Trace)
    requires Valid(t) && t.w.s.row.status == Queueing && t.w.s.row.handle.None?
    requires t.w.procs == map[1 := Proc(1, FindAfterClaim(0, 0)), 2 := Proc(2, FindBeforeClaim(0, 0))]
    ensures Valid(t') && t'.from == t.from && t'.hazards == t.hazards + {CallFails} && t'.w.s == t.w.s && t'.w.nextPid == t.w.nextPid
    ensures t'.w.procs == map[1 := Proc(1, RetryWrite(1, Queueing, Some(0))), 2 := Proc(2, RetryWrite(1, Queueing, Some(0)))]
  {
    t' := ThrowsQueueing(t, 1);
    t' := ThrowsQueueing(t', 2);
  }

  /** The received row after one counted attempt. */
  function PutBack(now: nat): Shared {
    Posted().s.(now := now, row := Posted().s.row.(attempts := 1, lease := Some(now + 2_000)))
  }

  lemma ThrowsQueueing(t: Trace, p: Pid) returns (t': Trace)
    requires Valid(t) && p in t.w.procs && t.w.s.row.status == Queueing && t.w.s.row.handle.None?
    requires t.w.procs[p].pc == FindAfterClaim(0, 0) || t.w.procs[p].pc == FindBeforeClaim(0, 0)
    ensures Valid(t') && t'.from == t.from && t'.hazards == t.hazards + {CallFails}
    ensures t'.w == Placed(t.w, p, t.w.s, RetryWrite(1, Queueing, Some(0)))
  {
    t' := ThrowsIntoRetry(t, p);
    t' := By(t', p, Go, To(t.w.s, RetryWrite(1, Queueing, Some(0))));
  }

  lemma ThrowsIntoRetry(t: Trace, p: Pid) returns (t': Trace)
    requires Valid(t) && p in t.w.procs
    requires t.w.procs[p].pc == FindAfterClaim(0, 0) || t.w.procs[p].pc == FindBeforeClaim(0, 0)
    ensures Valid(t') && t'.from == t.from && t'.hazards == t.hazards + {CallFails}
    ensures t'.w == Placed(t.w, p, t.w.s, RetryRead(0, Some(0)))
  {
    t' := Do(t, Pass(p, Throw));
  }

  lemma WritesBack(t: Trace, p: Pid) returns (t': Trace)
    requires Valid(t) && p in t.w.procs && t.w.procs[p].pc == RetryWrite(1, Queueing, Some(0))
    ensures Valid(t') && t'.from == t.from && t'.hazards == t.hazards
    ensures t'.w == Placed(t.w, p, t.w.s.(row := Retry(t.w.s.row, Queueing, 1, t.w.s.now)), DeliverScan(0))
  {
    t' := By(t, p, Go, To(t.w.s.(row := Retry(t.w.s.row, Queueing, 1, t.w.s.now)), DeliverScan(0)));
  }

  lemma DelayOnce()
    ensures RetryDelay(1) == 2_000
  {
    assert Pow2(1) == 2 * Pow2(0);
  }

  lemma AboutToLink(t: Trace) returns (t': Trace)
    requires Valid(t) && t.w.nextPid == 3 && t.w.s == PutBack(0)
    requires t.w.procs == map[1 := Proc(1, RetryWrite(1, Queueing, Some(0))), 2 := Proc(2, DeliverScan(0))]
    ensures Valid(t') && t'.from == t.from && t'.hazards == t.hazards + {TimePasses, OtherInstance} && t'.w.nextPid == 4
    ensures t'.w.s == PutBack(0).(now := 2_000, row := Claim(PutBack(0).row, 2_000), run := Some(AgentRun(7, Active)))
    ensures t'.w.procs == t.w.procs[3 := Proc(3, LinkRun(2_000, 1, 7))]
  {
    t' := ApproachLater(t, 3);
    t' := SentAndLooked(t', 3);
    assert t'.w.procs == t.w.procs[3 := Proc(3, LinkRun(2_000, 1, 7))];
  }

  lemma SentAndLooked(t: Trace, p: Pid) returns (t': Trace)
    requires Valid(t) && Unclaimed(t.w.s) && t.w.s.now == 2_000 && t.w.s.row.attempts == 1
    requires p in t.w.procs && t.w.procs[p].pc == FindBeforeClaim(2_000, 1)
    ensures Valid(t') && t'.from == t.from && t'.hazards == t.hazards && t'.w.nextPid == t.w.nextPid
    ensures t'.w.s == t.w.s.(row := Claim(t.w.s.row, 2_000), run := Some(AgentRun(7, Active)))
    ensures t'.w.procs == t.w.procs[p := Proc(t.w.procs[p].inst, LinkRun(2_000, 1, 7))]
  {
    t' := ToSent(t, p);
    t' := LooksLast(t', p);
  }

  lemma LooksLast(t: Trace, p: Pid) returns (t': Trace)
    requires Valid(t) && !t.w.s.nonce && p in t.w.procs && t.w.procs[p].pc == FindAfterSend(2_000, 1, 7)
    ensures Moved(t, t', p, LinkRun(2_000, 1, 7))
  {
    t' := By(t, p, Go, To(t.w.s, LinkRun(2_000, 1, 7)));
  }

  /** Two seconds later the row is due again, and a new pass finds it. */
  lemma ApproachLater(t: Trace, inst: Inst) returns (t': Trace)
    requires Valid(t) && !t.w.s.slack && !t.w.s.nonce && t.w.s.row.status == Received && t.w.s.row.reason == NoReason
    requires t.w.s.row.lease == Some(t.w.s.now + 2_000) && t.w.nextPid !in t.w.procs && NoPass(t.w, inst) && inst != 0
    ensures Valid(t') && t'.from == t.from && t'.hazards == t.hazards + {TimePasses, OtherInstance}
    ensures t'.w.s == t.w.s.(now := t.w.s.now + 2_000) && t'.w.nextPid == t.w.nextPid + 1
    ensures t'.w.procs == t.w.procs[t.w.nextPid := Proc(inst, FindBeforeClaim(t.w.s.now + 2_000, t.w.s.row.attempts))]
  {
    t' := Do(t, Tick(2_000));
    t' := Approach(t', inst);
  }

  lemma ResetUnderneath(t: Trace) returns (t': Trace)
    requires Valid(t) && t.w.nextPid == 4
    requires t.w.s == PutBack(0).(now := 2_000, row := Claim(PutBack(0).row, 2_000), run := Some(AgentRun(7, Active)))
    requires t.w.procs == map[1 := Proc(1, RetryWrite(1, Queueing, Some(0))), 2 := Proc(2, DeliverScan(0)),
                              3 := Proc(3, LinkRun(2_000, 1, 7))]
    ensures Valid(t') && t'.from == t.from && t'.hazards == t.hazards && t'.w.nextPid == 4
    ensures t'.w.s == PutBack(2_000).(run := Some(AgentRun(7, Active)))
    ensures t'.w.procs == t.w.procs[1 := Proc(1, DeliverScan(0))]
  {
    DelayOnce();
    t' := WritesBack(t, 1);
  }

  lemma ThirdApproaches(t: Trace) returns (t': Trace)
    requires Valid(t) && t.w.nextPid == 4 && t.w.s == PutBack(2_000).(run := Some(AgentRun(7, Active)))
    requires t.w.procs.Keys == {1, 2, 3} && t.w.procs[1].inst == 1 && t.w.procs[2].inst == 2
    requires t.w.procs[3] == Proc(3, LinkRun(2_000, 1, 7))
    ensures Valid(t') && t'.from == t.from && t'.hazards == t.hazards + {TimePasses, OtherInstance} && t'.w.nextPid == 5
    ensures t'.w.s == PutBack(2_000).(now := 4_000, run := Some(AgentRun(7, Active)))
    ensures t'.w.procs == t.w.procs[4 := Proc(4, ClaimQueueing(4_000, 1))]
  {
    t' := ApproachLater(t, 4);
    t' := By(t', 4, Go, To(t'.w.s, ClaimQueueing(4_000, 1)));
  }

  /** Another delivery routes the event to a routine whose wake commits and then fails, so it hands the
      row back. */
  lemma WakeCommitsAndFails(t: Trace) returns (t': Trace)
    requires Valid(t) && Handed(t.w)
    ensures Valid(t') && t'.from == t.from && t'.hazards == t.hazards + {SecondDelivery, CallFails}
    ensures t'.w.s == t.w.s.(row := t.w.s.row.(lease := None), nonce := true, inFlight := {0})
    ensures t'.w.procs == t.w.procs[t.w.nextPid := Proc(0, Handling(WakeFailed, Finishing, true))]
  {
    t' := SecondRoutes(t);
    t' := RoutineCommits(t', t.w.nextPid);
    t' := FailsAndReleases(t', t.w.nextPid);
  }

  /** The row is the agent's to claim, with no handler about. */
  ghost predicate Handed(w: State) {
    && w.nextPid !in w.procs && w.s.inFlight == {}
    && w.s.row.status == Received && w.s.row.reason == NoReason && w.s.row.kind == Direct
  }

  lemma SecondRoutes(t: Trace) returns (t': Trace)
    requires Valid(t) && Handed(t.w)
    ensures Valid(t') && t'.from == t.from && t'.hazards == t.hazards + {SecondDelivery}
    ensures t'.w.s == t.w.s.(row := t.w.s.row.(status := Deferred, reason := Routing, lease := t'.w.s.row.lease), inFlight := {0})
    ensures t'.w.procs == t.w.procs[t.w.nextPid := Proc(0, Handling(Unreserved, Racing, true))]
  {
    t' := SecondDefers(t);
    t' := Do(t', Handler(t.w.nextPid, TryExtend));
    t' := Do(t', Handler(t.w.nextPid, Mark));
  }

  lemma SecondDefers(t: Trace) returns (t': Trace)
    requires Valid(t) && Handed(t.w)
    ensures Valid(t') && t'.from == t.from && t'.hazards == t.hazards + {SecondDelivery}
    ensures t'.w.s == t.w.s.(row := Defer(t.w.s.row, t.w.s.now))
    ensures t'.w.procs == t.w.procs[t.w.nextPid := Proc(0, DeferredHere)]
  {
    t' := Do(t, Inbound(0));
    t' := Do(t', Handler(t.w.nextPid, TryDefer));
  }

  lemma RoutineCommits(t: Trace, p: Pid) returns (t': Trace)
    requires Valid(t) && t.w.s.row.status == Deferred && t.w.s.row.reason == Routing
    requires p in t.w.procs && t.w.procs[p] == Proc(0, Handling(Unreserved, Racing, true))
    ensures Valid(t') && t'.from == t.from && t'.hazards == t.hazards
    ensures t'.w.s == t.w.s.(row := t.w.s.row.(lease := t'.w.s.row.lease), nonce := true)
    ensures t'.w.procs == t.w.procs[p := Proc(0, Handling(Committed, Racing, true))]
  {
    t' := Do(t, Handler(p, WakeReserve(true)));
    t' := Do(t', Handler(p, WakeCommit));
  }

  lemma FailsAndReleases(t: Trace, p: Pid) returns (t': Trace)
    requires Valid(t) && t.w.s.row.status == Deferred && t.w.s.row.kind == Direct
    requires p in t.w.procs && t.w.procs[p] == Proc(0, Handling(Committed, Racing, true))
    ensures Valid(t') && t'.from == t.from && t'.hazards == t.hazards + {CallFails}
    ensures t'.w.s == t.w.s.(row := t.w.s.row.(status := Received, reason := NoReason, lease := None))
    ensures t'.w.procs == t.w.procs[p := Proc(0, Handling(WakeFailed, Finishing, true))]
  {
    t' := FailsAndSettles(t, p);
    t' := Do(t', Handler(p, ResolveRow(true)));
  }

  lemma FailsAndSettles(t: Trace, p: Pid) returns (t': Trace)
    requires Valid(t) && p in t.w.procs && t.w.procs[p] == Proc(0, Handling(Committed, Racing, true))
    ensures Valid(t') && t'.from == t.from && t'.hazards == t.hazards + {CallFails} && t'.w.s == t.w.s
    ensures t'.w.procs == t.w.procs[p := Proc(0, Handling(WakeFailed, Releasing, true))]
  {
    t' := Do(t, Handler(p, WakeThrow));
    t' := Do(t', Handler(p, SettleRace));
  }

  /** Attempt `c`, which looked for the wake before it committed, claims the row, and attempt `a`, which had
      looked for the last time, takes that claim for its own. */
  lemma ClaimedAndLinked(t: Trace, a: Pid, c: Pid) returns (t': Trace)
    requires Valid(t) && t.w.s.nonce && CanClaim(t.w.s.row) && a in t.w.procs && c in t.w.procs
    requires t.w.procs[a].pc.LinkRun? && t.w.procs[c].pc.ClaimQueueing?
    ensures Valid(t') && t'.from == t.from && t'.hazards == t.hazards && !Exclusive(t'.w.s) && t'.w.s.now == t.w.s.now
  {
    var s, link, claim := t.w.s, t.w.procs[a].pc, t.w.procs[c].pc;
    t' := By(t, c, Go, To(s.(row := Claim(s.row, s.now)), FindAfterClaim(claim.t, claim.attempts)));
    s := t'.w.s;
    t' := By(t', a, Go, To(s.(row := Link(s.row, link.run)), EnqueueRun(link.t, link.attempts, link.run)));
  }

  // ---- a queue attempt that outlives its reservation ----

  /** The same with nothing thrown but the wake itself: the attempt's own reservation runs out, and a pass
      on another instance puts the row back. */
  lemma ExpiredClaimBreaksExclusivity() returns (acts: seq<Action>)
    ensures Init(Posted()) && IsRun(Posted(), acts) && !Exclusive(After(Posted(), acts).s)
    ensures AllHazards(acts) == {TimePasses, OtherInstance, SecondDelivery, CallFails}
  {
    var t := LinkingLate();
    t := ResetByPass(t);
    t := ReadyToClaim(t, 2);
    t := WakeCommitsAndFails(t);
    t := ClaimedAndLinked(t, 1, 2);
    acts := t.acts;
  }

  /** The claimed row when its reservation has run out. */
  function ClaimedLate(): Shared {
    Posted().s.(now := QUEUE_RESERVATION_MS, row := Claim(Posted().s.row, 0), run := Some(AgentRun(7, Active)))
  }

  lemma LinkingLate() returns (t: Trace)
    ensures Valid(t) && t.from == Posted() && t.hazards == {TimePasses, OtherInstance} && t.w.nextPid == 2
    ensures t.w.s == ClaimedLate() && t.w.procs == map[1 := Proc(1, LinkRun(0, 0, 7))]
  {
    t := SentAtOnce();
    t := By(t, 1, Go, To(t.w.s, LinkRun(0, 0, 7)));
    t := Do(t, Tick(QUEUE_RESERVATION_MS));
    assert t.w.procs == map[1 := Proc(1, LinkRun(0, 0, 7))];
  }

  lemma SentAtOnce() returns (t: Trace)
    ensures Valid(t) && t.from == Posted() && t.hazards == {OtherInstance} && t.w.nextPid == 2
    ensures t.w.s == ClaimedLate().(now := 0) && t.w.procs == map[1 := Proc(1, FindAfterSend(0, 0, 7))]
  {
    t := Trace(Posted(), [], Posted(), {});
    t := Approach(t, 1);
    t := ToSent(t, 1);
    assert t.w.procs == map[1 := Proc(1, FindAfterSend(0, 0, 7))];
  }

  lemma ResetByPass(t: Trace) returns (t': Trace)
    requires Valid(t) && t.w.nextPid == 2 && t.w.s == ClaimedLate() && t.w.procs == map[1 := Proc(1, LinkRun(0, 0, 7))]
    ensures Valid(t') && t'.from == t.from && t'.hazards == t.hazards + {OtherInstance} && t'.w.nextPid == 3
    ensures t'.w.s == t.w.s.(row := Posted().s.row)
    ensures t'.w.procs == t.w.procs[2 := Proc(2, AmbientScan(QUEUE_RESERVATION_MS))]
  {
    t' := Begin(t, 2);
    t' := ResetNow(t', 2);
  }

  lemma ResetNow(t: Trace, p: Pid) returns (t': Trace)
    requires Valid(t) && p in t.w.procs && t.w.procs[p].pc == RecoverScan(t.w.s.now)
    ensures Valid(t') && t'.from == t.from && t'.hazards == t.hazards
    ensures t'.w == Placed(t.w, p, t.w.s.(row := Reset(t.w.s.row, t.w.s.now)), AmbientScan(t.w.s.now))
  {
    var s := t.w.s;
    t' := By(t, p, Skip, To(s, ResetQueueing(s.now)));
    t' := By(t', p, Go, To(s.(row := Reset(s.row, s.now)), AmbientScan(s.now)));
  }

  lemma ReadyToClaim(t: Trace, p: Pid) returns (t': Trace)
    requires Valid(t) && Open(t.w.s) && p in t.w.procs && t.w.procs[p].pc == AmbientScan(t.w.s.now)
    ensures Moved(t, t', p, ClaimQueueing(t.w.s.now, t.w.s.row.attempts))
  {
    t' := ToQueue(t, p);
    t' := By(t', p, Go, To(t.w.s, ClaimQueueing(t.w.s.now, t.w.s.row.attempts)));
  }

  /** A pass on an instance that runs no wake drops the orphaned-looking ownership. */
  lemma ToCleared(t: Trace, p: Pid) returns (t': Trace)
    requires Valid(t) && p in t.w.procs && t.w.procs[p].pc == RecoverScan(t.w.s.now)
    requires !t.w.s.nonce && CanClear(t.w.s.row, t.w.s.now) && t.w.procs[p].inst !in t.w.s.inFlight
    ensures Valid(t') && t'.from == t.from && t'.hazards == t.hazards
    ensures t'.w == Placed(t.w, p, t.w.s.(row := Clear(t.w.s.row, t.w.s.now)), ResetQueueing(t.w.s.now))
  {
    var s := t.w.s;
    t' := ToDecide(t, p);
    t' := By(t', p, Go, To(s, RecoverClear(s.now)));
    t' := By(t', p, Go, To(s.(row := Clear(s.row, s.now)), ResetQueueing(s.now)));
  }

  lemma ToDecide(t: Trace, p: Pid) returns (t': Trace)
    requires Valid(t) && p in t.w.procs && t.w.procs[p].pc == RecoverScan(t.w.s.now)
    requires !t.w.s.nonce && t.w.s.row.status == Deferred && ExpiredBy(t.w.s.row.lease, t.w.s.now)
    ensures Moved(t, t', p, RecoverDecide(t.w.s.now, t.w.s.row.reason, false))
  {
    var s := t.w.s;
    t' := By(t, p, Go, To(s, RecoverFind(s.now, s.row.reason)));
    t' := By(t', p, Go, To(s, RecoverDecide(s.now, s.row.reason, false)));
  }

  lemma ToPromoted(t: Trace, p: Pid) returns (t': Trace)
    requires Valid(t) && p in t.w.procs && t.w.procs[p].pc == RecoverScan(t.w.s.now)
    requires !t.w.s.nonce && CanPromote(t.w.s.row, t.w.s.now)
    ensures Valid(t') && t'.from == t.from && t'.hazards == t.hazards
    ensures t'.w == Placed(t.w, p, t.w.s.(row := Promote(t.w.s.row, t.w.s.now)), ResetQueueing(t.w.s.now))
  {
    var s := t.w.s;
    t' := ToDecide(t, p);
    t' := By(t', p, Go, To(s, RecoverPromote(s.now)));
    t' := By(t', p, Go, To(s.(row := Promote(s.row, s.now)), ResetQueueing(s.now)));
  }

  // ---- a run left behind ----

  lemma ToSent(t: Trace, p: Pid) returns (t': Trace)
    requires Valid(t) && Unclaimed(t.w.s) && p in t.w.procs && t.w.procs[p].pc == FindBeforeClaim(t.w.s.now, t.w.s.row.attempts)
    ensures Valid(t') && t'.from == t.from && t'.hazards == t.hazards
    ensures t'.w.s == t.w.s.(row := Claim(t.w.s.row, t.w.s.now), run := Some(AgentRun(7, Active)))
    ensures t'.w.procs == t.w.procs[p := Proc(t.w.procs[p].inst, FindAfterSend(t.w.s.now, t.w.s.row.attempts, 7))]
    ensures t'.w.nextPid == t.w.nextPid
  {
    t' := ToClaimed(t, p);
    t' := ToSend(t', p);
    t' := ToCreated(t', p);
  }

  /** The attempt sees the wake, and its cancel throws; retry then puts the row back. */
  lemma ThrowAtCancel(t: Trace, p: Pid) returns (t': Trace)
    requires Valid(t) && t.w.s.nonce
    requires p in t.w.procs && t.w.procs[p].pc == FindAfterSend(t.w.s.now, t.w.s.row.attempts, 7)
    ensures Valid(t') && t'.from == t.from && t'.hazards == t.hazards + {CallFails}
    ensures t'.w == Placed(t.w, p, t.w.s, RetryRead(t.w.s.row.attempts, Some(t.w.s.now)))
  {
    t' := By(t, p, Go, To(t.w.s, CancelRun(t.w.s.now, t.w.s.row.attempts, 7)));
    t' := Do(t', Pass(p, Throw));
    assert t'.w.procs == t.w.procs[p := Proc(t.w.procs[p].inst, RetryRead(t.w.s.row.attempts, Some(t.w.s.now)))];
  }

  lemma FailCancel(t: Trace, p: Pid) returns (t': Trace)
    requires Valid(t) && t.w.s.nonce && t.w.s.row.status == Queueing && t.w.s.row.handle.None?
    requires p in t.w.procs && t.w.procs[p].pc == FindAfterSend(t.w.s.now, t.w.s.row.attempts, 7)
    ensures Valid(t') && t'.from == t.from && t'.hazards == t.hazards + {CallFails}
    ensures t'.w.s == t.w.s.(row := Retry(t.w.s.row, Queueing, t.w.s.row.attempts + 1, t.w.s.now))
    ensures t'.w.procs == t.w.procs[p := Proc(t.w.procs[p].inst, DeliverScan(t.w.s.now))]
  {
    var s := t.w.s;
    t' := ThrowAtCancel(t, p);
    t' := By(t', p, Go, To(s, RetryWrite(s.row.attempts + 1, Queueing, Some(s.now))));
    t' := By(t', p, Go, To(s.(row := Retry(s.row, Queueing, s.row.attempts + 1, s.now)), DeliverScan(s.now)));
  }

  lemma ToTwoOwners(t: Trace) returns (t': Trace)
    requires Valid(t) && Unclaimed(t.w.s) && t.w.nextPid == 3 && t.w.procs.Keys == {0, 1, 2}
    requires t.w.procs[0] == Proc(0, Handling(Reserved, Racing, true))
    requires t.w.procs[1].inst == 1 && t.w.procs[2].inst == 2
    ensures Valid(t') && t'.from == t.from && t'.hazards == t.hazards + {OtherInstance}
    ensures t'.w.s == t.w.s.(row := Claim(t.w.s.row, t.w.s.now), run := Some(AgentRun(7, Active)), nonce := true)
    ensures t'.w.procs == t.w.procs[3 := Proc(3, FindAfterSend(t.w.s.now, t.w.s.row.attempts, 7))]
                                   [0 := Proc(0, Handling(Committed, Racing, true))]
  {
    t' := Approach(t, 3);
    t' := SentThenCommitted(t');
  }

  lemma SentThenCommitted(t: Trace) returns (t': Trace)
    requires Valid(t) && t.w.procs.Keys == {0, 1, 2, 3} && Unclaimed(t.w.s)
    requires t.w.procs[0] == Proc(0, Handling(Reserved, Racing, true))
    requires t.w.procs[3] == Proc(3, FindBeforeClaim(t.w.s.now, t.w.s.row.attempts))
    ensures Valid(t') && t'.from == t.from && t'.hazards == t.hazards
    ensures t'.w.s == t.w.s.(row := Claim(t.w.s.row, t.w.s.now), run := Some(AgentRun(7, Active)), nonce := true)
    ensures t'.w.procs == t.w.procs[3 := Proc(3, FindAfterSend(t.w.s.now, t.w.s.row.attempts, 7))]
                                   [0 := Proc(0, Handling(Committed, Racing, true))]
  {
    t' := ToSent(t, 3);
    t' := Do(t', Handler(0, WakeCommit));
  }

  /** A run the fallback created stays active beside a committed wake when the cancel itself
      fails: the row goes back to received with nobody left to cancel the run. */
  lemma FailedCancelLeavesRun() returns (acts: seq<Action>)
    ensures Init(Fresh()) && IsRun(Fresh(), acts)
    ensures AllHazards(acts) == {TimePasses, OtherInstance, CallFails}
    ensures var w := After(Fresh(), acts);
      && w.s.nonce && w.s.run == Some(AgentRun(7, Active))
      && w.s.row.status == Received && w.s.row.runId.None?
      && forall p :: p in w.procs ==> !Claimed(w.procs[p].pc)
  {
    FreshInit();
    var t := FailedCancelTrace();
    acts := t.acts;
  }

  lemma FailedCancelTrace() returns (t: Trace)
    ensures Valid(t) && t.from == Fresh() && t.hazards == {TimePasses, OtherInstance, CallFails}
    ensures t.w.s.nonce && t.w.s.run == Some(AgentRun(7, Active))
    ensures t.w.s.row.status == Received && t.w.s.row.runId.None?
    ensures forall p :: p in t.w.procs ==> !Claimed(t.w.procs[p].pc)
  {
    t := ToReserved();
    t := ToOrphaned(t);
    t := ToTwoOwners(t);
    t := FailCancel(t, 3);
  }
}
