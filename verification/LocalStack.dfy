/** LocalStackController.start and stop: promises chained so that `compose up` and
    `compose stop` never overlap and the latest intent wins. */
module LocalStack {

  import opened Wrappers

  /** A call's promise: what it does and which earlier promises it waits for. */
  datatype Kind = Start(ticket: nat) | Stop

  datatype Phase =
    | Waiting
    | Active                             // run() or runStop() is executing
    | Finished(ran: bool, failed: bool)  // the body is over, its finally callback is not
    | Settled(ran: bool, failed: bool)

  datatype Op = Op(kind: Kind, after: seq<nat>, phase: Phase)

  datatype State = State(
    ops: seq<Op>,              // every promise start() or stop() created, oldest first
    ticket: nat,
    voidBefore: nat,
    running: Option<nat>,
    stopping: Option<nat>,
    inFlight: Option<nat>,     // the attempt whose AbortController is current
    aborted: set<nat>,
    executed: seq<nat>)        // which bodies began, in order

  const INITIAL := State([], 0, 0, None, None, None, {}, [])

  // ---- the two calls ----

  function CallStart(s: State): State {
    if s.running.Some? then s
    else
      var ticket := s.ticket + 1;
      var after := if s.stopping.Some? then [s.stopping.value] else [];
      s.(ticket := ticket, ops := s.ops + [Op(Start(ticket), after, Waiting)], running := Some(|s.ops|))
  }

  function CallStop(s: State): State {
    var s1 := s.(voidBefore := s.ticket);
    if s.stopping.Some? && s.running.None? then s1
    else
      var after := (if s.stopping.Some? then [s.stopping.value] else [])
                 + (if s.running.Some? then [s.running.value] else []);
      s1.(aborted := if s.inFlight.Some? then s.aborted + {s.inFlight.value} else s.aborted,
          ops := s.ops + [Op(Stop, after, Waiting)], running := None, stopping := Some(|s.ops|))
  }

  // ---- what the event loop does between calls ----

  datatype Event = StartCall | StopCall | Begin(i: nat) | End(i: nat, failed: bool) | Finally(i: nat)

  predicate Unsettled(s: State, i: nat) {
    i < |s.ops| && !s.ops[i].phase.Settled?
  }

  predicate Ready(s: State, i: nat)
    requires i < |s.ops|
  {
    s.ops[i].phase == Waiting && forall d :: d in s.ops[i].after ==> !Unsettled(s, d)
  }

  /** The stop a queued start waits for rejected, so the start rejects with it. */
  predicate Rejected(s: State, i: nat)
    requires i < |s.ops|
  {
    var after := s.ops[i].after;
    after != [] && after[0] < |s.ops| && s.ops[after[0]].phase.Settled? && s.ops[after[0]].phase.failed
  }

  predicate Enabled(s: State, e: Event) {
    match e
    case StartCall => true
    case StopCall => true
    case Begin(i) => i < |s.ops| && Ready(s, i)
    // either body may reject: runStop() has no catch, and run()'s catch calls back into its owner
    case End(i, failed) => i < |s.ops| && s.ops[i].phase == Active
    case Finally(i) => i < |s.ops| && s.ops[i].phase.Finished?
  }

  function SetPhase(s: State, i: nat, phase: Phase): State
    requires i < |s.ops|
  {
    s.(ops := s.ops[i := s.ops[i].(phase := phase)])
  }

  function BeginOp(s: State, i: nat): State
    requires i < |s.ops|
  {
    match s.ops[i].kind
    case Start(ticket) =>
      if Rejected(s, i) then SetPhase(s, i, Finished(false, true))
      else if ticket <= s.voidBefore then SetPhase(s, i, Finished(false, false))
      else SetPhase(s, i, Active).(inFlight := Some(i), executed := s.executed + [i])
    case Stop => SetPhase(s, i, Active).(executed := s.executed + [i])
  }

  function EndOp(s: State, i: nat, failed: bool): State
    requires i < |s.ops|
  {
    SetPhase(s, i, Finished(true, failed)).(inFlight := if s.inFlight == Some(i) then None else s.inFlight)
  }

  function FinallyOp(s: State, i: nat): State
    requires i < |s.ops| && s.ops[i].phase.Finished?
  {
    var s1 := SetPhase(s, i, Settled(s.ops[i].phase.ran, s.ops[i].phase.failed));
    if s.ops[i].kind == Stop then s1.(stopping := if s.stopping == Some(i) then None else s.stopping)
    else s1.(running := if s.running == Some(i) then None else s.running)
  }

  function Step(s: State, e: Event): State
    requires Enabled(s, e)
  {
    match e
    case StartCall => CallStart(s)
    case StopCall => CallStop(s)
    case Begin(i) => BeginOp(s, i)
    case End(i, failed) => EndOp(s, i, failed)
    case Finally(i) => FinallyOp(s, i)
  }

  predicate IsRun(s: State, es: seq<Event>)
    decreases |es|
  {
    es == [] || (Enabled(s, es[0]) && IsRun(Step(s, es[0]), es[1..]))
  }

  function After(s: State, es: seq<Event>): State
    requires IsRun(s, es)
    decreases |es|
  {
    if es == [] then s else After(Step(s, es[0]), es[1..])
  }

  // ---- the invariant ----

  /** Once a body has begun or been skipped, everything before it is settled. */
  ghost predicate InOrder(s: State) {
    forall i, j :: 0 <= i < j < |s.ops| && s.ops[j].phase != Waiting ==> s.ops[i].phase.Settled?
  }

  /** Each promise waits for the one before it, unless that one had settled when it was made. */
  ghost predicate Chained(s: State) {
    && (forall j :: 0 < j < |s.ops| ==> j - 1 in s.ops[j].after || s.ops[j - 1].phase.Settled?)
    && (forall j, d :: 0 <= j < |s.ops| && d in s.ops[j].after ==> d < j)
  }

  ghost predicate RunningHead(s: State) {
    s.running.Some? ==>
      Unsettled(s, s.running.value) && s.ops[s.running.value].kind.Start? && s.running.value == |s.ops| - 1
  }

  ghost predicate StoppingHead(s: State) {
    s.stopping.Some? ==>
      && Unsettled(s, s.stopping.value) && s.ops[s.stopping.value].kind == Stop
      && (s.running.None? ==> s.stopping.value == |s.ops| - 1)
  }

  /** `running` and `stopping` are unsettled, only the newest promise can be joined, and with
      neither set nothing is pending. */
  ghost predicate Heads(s: State) {
    && RunningHead(s) && StoppingHead(s)
    && (s.running.None? && s.stopping.None? && s.ops != [] ==> s.ops[|s.ops| - 1].phase.Settled?)
  }

  /** The newest start has not been superseded. */
  ghost predicate Tickets(s: State) {
    && s.voidBefore <= s.ticket
    && (forall i :: 0 <= i < |s.ops| && s.ops[i].kind.Start? ==> s.ops[i].kind.ticket <= s.ticket)
    && (s.ops != [] && s.ops[|s.ops| - 1].kind.Start? ==> s.ops[|s.ops| - 1].kind.ticket > s.voidBefore)
  }

  predicate Ran(o: Op) {
    match o.phase
    case Waiting => false
    case Active => true
    case Finished(ran, _) => ran
    case Settled(ran, _) => ran
  }

  /** What was executed, in the order the promises were made. */
  ghost predicate History(s: State) {
    && (forall k :: 0 <= k < |s.executed| ==> s.executed[k] < |s.ops|)
    && (forall k, l :: 0 <= k < l < |s.executed| ==> s.executed[k] < s.executed[l])
    && (forall i :: 0 <= i < |s.ops| ==> (i in s.executed <==> Ran(s.ops[i])))
    && (forall i :: 0 <= i < |s.ops| && s.ops[i].kind == Stop ==> (s.ops[i].phase == Waiting || Ran(s.ops[i])))
  }

  /** The abort controller belongs to the start that is running. */
  ghost predicate Flight(s: State) {
    && (s.inFlight.Some? ==>
          s.inFlight.value < |s.ops| && s.ops[s.inFlight.value].phase == Active && s.ops[s.inFlight.value].kind.Start?)
    && (forall i :: 0 <= i < |s.ops| && s.ops[i].phase == Active && s.ops[i].kind.Start? ==> s.inFlight == Some(i))
  }

  /** The newest start runs unless the stop it was queued behind rejected. */
  ghost predicate LastStart(s: State) {
    s.ops != [] && s.ops[|s.ops| - 1].kind.Start? && s.ops[|s.ops| - 1].phase != Waiting ==>
      (Ran(s.ops[|s.ops| - 1]) <==> !Rejected(s, |s.ops| - 1))
  }

  ghost predicate Inv(s: State) {
    InOrder(s) && Chained(s) && Heads(s) && Tickets(s) && History(s) && Flight(s) && LastStart(s)
  }

  // ---- preservation ----

  lemma InitialOk()
    ensures Inv(INITIAL)
  {
    assert INITIAL.ops == [] && INITIAL.executed == [];
    assert INITIAL.running.None? && INITIAL.stopping.None? && INITIAL.inFlight.None?;
  }

  /** `s'` is `s` with one new promise at the end, waiting for the promises still in force. */
  ghost predicate Queued(s: State, s': State) {
    && |s'.ops| == |s.ops| + 1 && s'.ops[..|s.ops|] == s.ops
    && s'.ops[|s.ops|].phase == Waiting
    && (forall d :: d in s'.ops[|s.ops|].after <==> s.stopping == Some(d) || s.running == Some(d))
    && s'.executed == s.executed && s'.inFlight == s.inFlight
  }

  lemma QueuedKeeps(s: State, s': State)
    requires Inv(s) && Queued(s, s')
    ensures InOrder(s') && Chained(s') && History(s') && Flight(s')
  {
    QueuedOrder(s, s');
    QueuedHistory(s, s');
  }

  lemma QueuedOrder(s: State, s': State)
    requires InOrder(s) && Chained(s) && Heads(s) && Queued(s, s')
    ensures InOrder(s') && Chained(s')
  {
    assert forall i :: 0 <= i < |s.ops| ==> s'.ops[i] == s.ops[i];
  }

  lemma QueuedHistory(s: State, s': State)
    requires History(s) && Flight(s) && Queued(s, s')
    ensures History(s') && Flight(s')
  {
    assert forall i :: 0 <= i < |s.ops| ==> s'.ops[i] == s.ops[i];
    assert |s.ops| !in s.executed;
  }

  lemma StartKeeps(s: State)
    requires Inv(s)
    ensures Inv(CallStart(s))
  {
    if s.running.None? { QueuedKeeps(s, CallStart(s)); }
  }

  lemma StopKeeps(s: State)
    requires Inv(s)
    ensures Inv(CallStop(s))
  {
    if s.stopping.None? || s.running.Some? { QueuedKeeps(s, CallStop(s)); }
  }

  /** Only promise `i`'s phase changed, everything before it is settled and everything after waits. */
  ghost predicate Moved(s: State, s': State, i: nat) {
    && i < |s.ops| == |s'.ops| && s'.ops == s.ops[i := s.ops[i].(phase := s'.ops[i].phase)]
    && s'.ops[i].phase != Waiting && !s.ops[i].phase.Settled?
    && (forall j :: 0 <= j < i ==> s.ops[j].phase.Settled?)
    && (forall j :: i < j < |s.ops| ==> s.ops[j].phase == Waiting)
  }

  lemma MovedKeeps(s: State, s': State, i: nat)
    requires Inv(s) && Moved(s, s', i) && s'.ticket == s.ticket && s'.voidBefore == s.voidBefore
    ensures InOrder(s') && Chained(s') && Tickets(s')
    ensures Rejected(s', i) == Rejected(s, i)
  {
    var after := s.ops[i].after;
    if after != [] { assert after[0] in after; }
  }

  lemma ReadyIsNext(s: State, i: nat)
    requires InOrder(s) && Chained(s) && History(s) && i < |s.ops| && Ready(s, i)
    ensures forall j :: 0 <= j < i ==> s.ops[j].phase.Settled?
    ensures forall j :: i < j < |s.ops| ==> s.ops[j].phase == Waiting
    ensures forall k :: 0 <= k < |s.executed| ==> s.executed[k] < i
  {
    assert i > 0 ==> !Unsettled(s, i - 1);
    forall k | 0 <= k < |s.executed| ensures s.executed[k] < i {
      assert s.executed[k] in s.executed && Ran(s.ops[s.executed[k]]);
    }
  }

  lemma BeginKeeps(s: State, i: nat)
    requires Inv(s) && i < |s.ops| && Ready(s, i)
    ensures Inv(BeginOp(s, i))
  {
    ReadyIsNext(s, i);
    MovedKeeps(s, BeginOp(s, i), i);
    BeginHistory(s, i);
    BeginFlight(s, i);
    BeginHeads(s, i);
  }

  lemma BeginHeads(s: State, i: nat)
    requires Heads(s) && i < |s.ops| && s.ops[i].phase == Waiting
    ensures Heads(BeginOp(s, i))
  {
  }

  lemma BeginFlight(s: State, i: nat)
    requires Flight(s) && LastStart(s) && Tickets(s) && i < |s.ops| && Ready(s, i)
    requires forall j :: 0 <= j < |s.ops| ==> s.ops[j].phase != Active
    requires Rejected(BeginOp(s, i), i) == Rejected(s, i)
    requires forall j :: i < j < |s.ops| ==> s.ops[j].phase == Waiting
    ensures Flight(BeginOp(s, i)) && LastStart(BeginOp(s, i))
  {
  }

  lemma BeginHistory(s: State, i: nat)
    requires InOrder(s) && Chained(s) && History(s) && i < |s.ops| && Ready(s, i)
    ensures History(BeginOp(s, i))
  {
    ReadyIsNext(s, i);
    var s' := BeginOp(s, i);
    if s'.executed != s.executed {
      assert forall j :: j in s'.executed <==> j in s.executed || j == i;
    }
  }

  /** The active promise has everything before it settled and everything after it waiting. */
  lemma ActiveIsAlone(s: State, i: nat)
    requires InOrder(s) && Unsettled(s, i) && s.ops[i].phase != Waiting
    ensures forall j :: 0 <= j < i ==> s.ops[j].phase.Settled?
    ensures forall j :: i < j < |s.ops| ==> s.ops[j].phase == Waiting
  {
  }

  lemma EndKeeps(s: State, i: nat, failed: bool)
    requires Inv(s) && Enabled(s, End(i, failed))
    ensures Inv(EndOp(s, i, failed))
  {
    ActiveIsAlone(s, i);
    MovedKeeps(s, EndOp(s, i, failed), i);
    EndHeads(s, i, failed);
    EndHistory(s, i, failed);
    EndFlight(s, i, failed);
  }

  lemma EndHeads(s: State, i: nat, failed: bool)
    requires InOrder(s) && Heads(s) && Enabled(s, End(i, failed))
    ensures Heads(EndOp(s, i, failed))
  {
    ActiveIsAlone(s, i);
  }

  lemma EndHistory(s: State, i: nat, failed: bool)
    requires History(s) && Enabled(s, End(i, failed))
    ensures History(EndOp(s, i, failed))
  {
    var s' := EndOp(s, i, failed);
    assert forall j :: 0 <= j < |s.ops| ==> Ran(s'.ops[j]) == Ran(s.ops[j]);
  }

  lemma EndFlight(s: State, i: nat, failed: bool)
    requires InOrder(s) && Flight(s) && Enabled(s, End(i, failed))
    ensures Flight(EndOp(s, i, failed))
  {
    ActiveIsAlone(s, i);
  }

  lemma FinallyKeeps(s: State, i: nat)
    requires Inv(s) && Enabled(s, Finally(i))
    ensures Inv(FinallyOp(s, i))
  {
    ActiveIsAlone(s, i);
    MovedKeeps(s, FinallyOp(s, i), i);
    FinallyHeads(s, i);
    FinallyHistory(s, i);
  }

  lemma FinallyHeads(s: State, i: nat)
    requires InOrder(s) && Heads(s) && Enabled(s, Finally(i))
    ensures Heads(FinallyOp(s, i))
  {
    ActiveIsAlone(s, i);
  }

  lemma FinallyHistory(s: State, i: nat)
    requires History(s) && Flight(s) && Enabled(s, Finally(i))
    ensures History(FinallyOp(s, i)) && Flight(FinallyOp(s, i))
  {
    var s' := FinallyOp(s, i);
    assert forall j :: 0 <= j < |s.ops| ==> Ran(s'.ops[j]) == Ran(s.ops[j]);
  }

  lemma StepKeeps(s: State, e: Event)
    requires Inv(s) && Enabled(s, e)
    ensures Inv(Step(s, e))
  {
    match e
    case StartCall => StartKeeps(s);
    case StopCall => StopKeeps(s);
    case Begin(i) => BeginKeeps(s, i);
    case End(i, failed) => EndKeeps(s, i, failed);
    case Finally(i) => FinallyKeeps(s, i);
  }

  lemma {:induction false} RunKeeps(s: State, es: seq<Event>)
    requires Inv(s) && IsRun(s, es)
    ensures Inv(After(s, es))
    decreases |es|
  {
    if es != [] {
      StepKeeps(s, es[0]);
      RunKeeps(Step(s, es[0]), es[1..]);
    }
  }

  // ---- the promises ----

  /** For any calls and completions, run() and runStop() are never active together, nor two of either. */
  lemma NeverOverlap(es: seq<Event>, i: nat, j: nat)
    requires IsRun(INITIAL, es)
    requires var s := After(INITIAL, es);
      i < |s.ops| && j < |s.ops| && s.ops[i].phase == Active && s.ops[j].phase == Active
    ensures i == j
  {
    InitialOk();
    RunKeeps(INITIAL, es);
  }

  /** A start that has not begun when stop() is called never runs afterwards. */
  lemma {:induction false} SupersededNeverRuns(s: State, es: seq<Event>, i: nat)
    requires IsRun(s, es)
    requires i < |s.ops| && s.ops[i].kind.Start? && s.ops[i].kind.ticket <= s.voidBefore
    requires !Ran(s.ops[i]) && s.voidBefore <= s.ticket
    ensures var s' := After(s, es); i < |s'.ops| && s'.ops[i].kind == s.ops[i].kind && !Ran(s'.ops[i])
    decreases |es|
  {
    if es != [] {
      SupersededNeverRuns(Step(s, es[0]), es[1..], i);
    }
  }

  lemma StopSupersedes(before: seq<Event>, es: seq<Event>, i: nat)
    requires IsRun(INITIAL, before)
    requires var s := After(INITIAL, before);
      i < |s.ops| && s.ops[i].kind.Start? && s.ops[i].phase == Waiting && IsRun(CallStop(s), es)
    ensures var s' := After(CallStop(After(INITIAL, before)), es); i < |s'.ops| && !Ran(s'.ops[i])
  {
    InitialOk();
    RunKeeps(INITIAL, before);
    var s := After(INITIAL, before);
    assert CallStop(s).ops[i] == s.ops[i];
    SupersededNeverRuns(CallStop(s), es, i);
  }

  /** stop() aborts the attempt that is running, unless it joins a stop already waiting for it. */
  lemma StopAborts(es: seq<Event>, i: nat)
    requires IsRun(INITIAL, es)
    requires var s := After(INITIAL, es);
      i < |s.ops| && s.ops[i].kind.Start? && s.ops[i].phase == Active && !(s.stopping.Some? && s.running.None?)
    ensures i in CallStop(After(INITIAL, es)).aborted
  {
    InitialOk();
    RunKeeps(INITIAL, es);
    var s := After(INITIAL, es);
    assert s.inFlight.Some?;
    NeverOverlap(es, i, s.inFlight.value);
  }

  /** The promise a call returns. */
  function Returned(s: State, e: Event): Option<nat> {
    if e == StartCall then CallStart(s).running
    else if e == StopCall then CallStop(s).stopping
    else None
  }

  lemma ReturnsNewest(s: State, e: Event)
    requires Inv(s) && IsCall(e)
    ensures var s' := Step(s, e);
      && Returned(s, e) == Some(|s'.ops| - 1) && |s'.ops| > 0
      && (s'.ops[|s'.ops| - 1].kind.Start? <==> e == StartCall)
  {
  }

  /** Every call returns the newest promise, of its own kind: joining never hands out an outdated one. */
  lemma CallReturnsNewest(es: seq<Event>, e: Event)
    requires IsRun(INITIAL, es) && IsCall(e)
    ensures var s := After(INITIAL, es); var s' := Step(s, e);
      && Returned(s, e) == Some(|s'.ops| - 1) && |s'.ops| > 0
      && (s'.ops[|s'.ops| - 1].kind.Start? <==> e == StartCall)
  {
    var s := Reached(es);
    ReturnsNewest(s, e);
  }

  /** The state a run reaches has the invariant. */
  lemma Reached(es: seq<Event>) returns (s: State)
    requires IsRun(INITIAL, es)
    ensures s == After(INITIAL, es) && Inv(s)
  {
    InitialOk();
    RunKeeps(INITIAL, es);
    s := After(INITIAL, es);
  }

  /** What a call does in every reachable state: a start joins the start it finds pending, a stop joins the
      stop nothing has been started after; otherwise one promise is queued behind those in force.  A stop
      voids every ticket drawn so far and aborts the attempt in flight and no other; a start voids nothing. */
  lemma CallsJoinOrQueue(es: seq<Event>)
    requires IsRun(INITIAL, es)
    ensures var s := After(INITIAL, es); var s' := CallStart(s);
      && (s.running.Some? ==> s' == s)
      && (s.running.None? ==>
            && s'.ops[..|s.ops|] == s.ops && |s'.ops| == |s.ops| + 1 && s'.running == Some(|s.ops|)
            && s'.ops[|s.ops|].phase == Waiting && s'.ops[|s.ops|].kind == Start(s'.ticket) && s'.ticket > s.ticket
            && s'.ops[|s.ops|].after == (if s.stopping.Some? then [s.stopping.value] else []))
      && s'.voidBefore == s.voidBefore && s'.aborted == s.aborted && s'.executed == s.executed && s'.stopping == s.stopping
    ensures var s := After(INITIAL, es); var s' := CallStop(s);
      && s'.voidBefore == s.ticket && s'.ticket == s.ticket && s'.executed == s.executed
      && (s.stopping.Some? && s.running.None? ==> s'.ops == s.ops && s'.aborted == s.aborted && s'.stopping == s.stopping)
      && (s.stopping.None? || s.running.Some? ==>
            && s'.ops[..|s.ops|] == s.ops && |s'.ops| == |s.ops| + 1 && s'.stopping == Some(|s.ops|) && s'.running.None?
            && s'.ops[|s.ops|].phase == Waiting && s'.ops[|s.ops|].kind == Stop
            && s'.aborted == s.aborted + (if s.inFlight.Some? then {s.inFlight.value} else {})
            && forall d :: d in s'.ops[|s.ops|].after <==> s.stopping == Some(d) || s.running == Some(d))
  {
  }

  predicate AtRest(s: State) {
    forall i :: 0 <= i < |s.ops| ==> s.ops[i].phase.Settled?
  }

  /** Nothing deadlocks: until everything settles, some promise can take its next step. */
  lemma NeverStuck(es: seq<Event>) returns (e: Event)
    requires IsRun(INITIAL, es) && !AtRest(After(INITIAL, es))
    ensures !IsCall(e) && Enabled(After(INITIAL, es), e)
  {
    InitialOk();
    RunKeeps(INITIAL, es);
    var s := After(INITIAL, es);
    var i: nat := 0;
    while s.ops[i].phase.Settled?
      invariant i < |s.ops| && forall j :: 0 <= j < i ==> s.ops[j].phase.Settled?
      decreases |s.ops| - i
    {
      i := i + 1;
    }
    match s.ops[i].phase
    case Waiting => e := Begin(i);
    case Active => e := End(i, false);
    case Finished(_, _) => e := Finally(i);
  }

  lemma LastPromiseWins(s: State)
    requires Inv(s) && s.ops != [] && AtRest(s)
    ensures Won(s, |s.ops| - 1) <==> !(s.ops[|s.ops| - 1].kind.Start? && Rejected(s, |s.ops| - 1))
  {
    var last := |s.ops| - 1;
    if Ran(s.ops[last]) {
      var k :| 0 <= k < |s.executed| && s.executed[k] == last;
      assert k == |s.executed| - 1;
    } else if s.executed != [] {
      assert s.executed[|s.executed| - 1] in s.executed;
    }
  }

  /** Promise `i`'s body was the last one executed. */
  predicate Won(s: State, i: nat) {
    s.executed != [] && s.executed[|s.executed| - 1] == i
  }

  predicate IsCall(e: Event) {
    e == StartCall || e == StopCall
  }

  lemma {:induction false} QuietKeepsPromises(s: State, es: seq<Event>)
    requires IsRun(s, es) && forall e :: e in es ==> !IsCall(e)
    ensures |After(s, es).ops| == |s.ops|
    ensures forall i :: 0 <= i < |s.ops| ==> After(s, es).ops[i].kind == s.ops[i].kind
    decreases |es|
  {
    if es != [] {
      assert es[0] in es;
      QuietKeepsPromises(Step(s, es[0]), es[1..]);
    }
  }

  /** The latest intent wins: whatever came before, once the calls stop and everything settles, the
      body executed last is the one whose promise the last call returned, and it is of that call's
      kind. The one exception is a last start queued behind a stop that rejected. */
  lemma LatestIntentWins(before: seq<Event>, call: Event, rest: seq<Event>)
    requires IsRun(INITIAL, before) && IsCall(call) && IsRun(Step(After(INITIAL, before), call), rest)
    requires (forall e :: e in rest ==> !IsCall(e)) && AtRest(After(Step(After(INITIAL, before), call), rest))
    ensures var s := After(INITIAL, before); var s' := After(Step(s, call), rest);
      && Returned(s, call).Some? && Returned(s, call).value < |s'.ops|
      && (s'.ops[Returned(s, call).value].kind.Start? <==> call == StartCall)
      && (Won(s', Returned(s, call).value) <==> !(call == StartCall && Rejected(s', Returned(s, call).value)))
  {
    InitialOk();
    RunKeeps(INITIAL, before);
    LastCallWins(After(INITIAL, before), call, rest);
  }

  lemma LastCallWins(s: State, call: Event, rest: seq<Event>)
    requires Inv(s) && IsCall(call) && IsRun(Step(s, call), rest)
    requires (forall e :: e in rest ==> !IsCall(e)) && AtRest(After(Step(s, call), rest))
    ensures var s' := After(Step(s, call), rest);
      && Returned(s, call).Some? && Returned(s, call).value < |s'.ops|
      && (s'.ops[Returned(s, call).value].kind.Start? <==> call == StartCall)
      && (Won(s', Returned(s, call).value) <==> !(call == StartCall && Rejected(s', Returned(s, call).value)))
  {
    var s1 := Step(s, call);
    ReturnsNewest(s, call);
    StepKeeps(s, call);
    RunKeeps(s1, rest);
    QuietKeepsPromises(s1, rest);
    LastPromiseWins(After(s1, rest));
  }

  /** The exception is real: a start made while a stop that then rejects is running never runs. */
  lemma RejectedStopLosesTheStart()
    ensures var es := [StopCall, Begin(0), StartCall, End(0, true), Finally(0), Begin(1), Finally(1)];
      IsRun(INITIAL, es) && AtRest(After(INITIAL, es)) && After(INITIAL, es).executed == [0]
  {
    assert INITIAL.stopping.None? && INITIAL.running.None? && INITIAL.ops == [];
    assert CallStop(INITIAL).ops[0].after == [];
    assert Step(INITIAL, StopCall).ops == [Op(Stop, [], Waiting)];
    var s2 := Step(Step(INITIAL, StopCall), Begin(0));
    var s3 := Step(s2, StartCall);
    assert s2.ops == [Op(Stop, [], Active)] && s2.executed == [0] && s2.stopping == Some(0);
    assert s3.ops == [Op(Stop, [], Active), Op(Start(1), [0], Waiting)] && s3.executed == [0];
    LostStart(s3);
    Unroll(s2, StartCall, [End(0, true), Finally(0), Begin(1), Finally(1)]);
    Unroll(Step(INITIAL, StopCall), Begin(0), [StartCall, End(0, true), Finally(0), Begin(1), Finally(1)]);
    Unroll(INITIAL, StopCall, [Begin(0), StartCall, End(0, true), Finally(0), Begin(1), Finally(1)]);
  }

  lemma LostStart(s: State)
    requires s.ops == [Op(Stop, [], Active), Op(Start(1), [0], Waiting)] && s.executed == [0]
    ensures var es := [End(0, true), Finally(0), Begin(1), Finally(1)];
      IsRun(s, es) && AtRest(After(s, es)) && After(s, es).executed == [0]
  {
    var s5 := Step(Step(s, End(0, true)), Finally(0));
    var s6 := Step(s5, Begin(1));
    assert s5.ops == [Op(Stop, [], Settled(true, true)), Op(Start(1), [0], Waiting)];
    assert s6.ops == [Op(Stop, [], Settled(true, true)), Op(Start(1), [0], Finished(false, true))];
    Unroll(s6, Finally(1), []);
    Unroll(s5, Begin(1), [Finally(1)]);
    Unroll(Step(s, End(0, true)), Finally(0), [Begin(1), Finally(1)]);
    Unroll(s, End(0, true), [Finally(0), Begin(1), Finally(1)]);
  }

  lemma Unroll(s: State, e: Event, es: seq<Event>)
    requires Enabled(s, e) && IsRun(Step(s, e), es)
    ensures IsRun(s, [e] + es) && After(s, [e] + es) == After(Step(s, e), es)
  {
    assert ([e] + es)[1..] == es;
  }
}

/** The controller itself: the promise fields it assigns and the callbacks it hands to the event loop. */
module LocalStackController {
  import opened Wrappers
  import opened LocalStack

  class Controller {
    var ops: seq<Op>
    var ticket: nat
    var voidBefore: nat
    var running: Option<nat>
    var stopping: Option<nat>
    var inFlight: Option<nat>
    ghost var aborted: set<nat>
    ghost var executed: seq<nat>

    ghost function View(): State
      reads this
    {
      State(ops, ticket, voidBefore, running, stopping, inFlight, aborted, executed)
    }

    constructor ()
      ensures View() == INITIAL
    {
      ops, ticket, voidBefore, running, stopping, inFlight := [], 0, 0, None, None, None;
      aborted, executed := {}, [];
    }

    method Start() returns (promise: nat)
      requires Inv(View())
      modifies this
      ensures View() == CallStart(old(View())) && Inv(View())
      ensures running == Some(promise) && promise == |ops| - 1
    {
      StartKeeps(View());
      if running.Some? { return running.value; }
      ticket := ticket + 1;
      promise := |ops|;
      ops := ops + [Op(LocalStack.Start(ticket), if stopping.Some? then [stopping.value] else [], Waiting)];
      running := Some(promise);
    }

    method Abort()
      modifies this`aborted
      ensures aborted == if inFlight.Some? then old(aborted) + {inFlight.value} else old(aborted)
    {
      if inFlight.Some? { aborted := aborted + {inFlight.value}; }
    }

    method Stop() returns (promise: nat)
      requires Inv(View())
      modifies this
      ensures View() == CallStop(old(View())) && Inv(View())
      ensures stopping == Some(promise) && promise == |ops| - 1
    {
      StopKeeps(View());
      voidBefore := ticket;
      if stopping.Some? && running.None? { return stopping.value; }
      Abort();
      var settled := (if stopping.Some? then [stopping.value] else []) + (if running.Some? then [running.value] else []);
      running := None;
      promise := |ops|;
      ops := ops + [Op(LocalStack.Stop, settled, Waiting)];
      stopping := Some(promise);
    }

    /** The `.then` callback of promise `i`: skip a voided or rejected start, or begin its body. */
    method OnReady(i: nat)
      requires Inv(View()) && i < |ops| && Ready(View(), i)
      modifies this
      ensures View() == BeginOp(old(View()), i) && Inv(View())
    {
      BeginKeeps(View(), i);
      var after := ops[i].after;
      if after != [] { assert after[0] in after; }
      var rejected := after != [] && ops[after[0]].phase.Settled? && ops[after[0]].phase.failed;
      if ops[i].kind.Start? && rejected {
        ops := ops[i := ops[i].(phase := Finished(false, true))];
      } else if ops[i].kind.Start? && ops[i].kind.ticket <= voidBefore {
        ops := ops[i := ops[i].(phase := Finished(false, false))];
      } else {
        if ops[i].kind.Start? { inFlight := Some(i); }
        ops := ops[i := ops[i].(phase := Active)];
        executed := executed + [i];
      }
    }

    /** run() or runStop() returned; run()'s own finally releases its AbortController. */
    method OnBodyDone(i: nat, failed: bool)
      requires Inv(View()) && Enabled(View(), End(i, failed))
      modifies this
      ensures View() == EndOp(old(View()), i, failed) && Inv(View())
    {
      EndKeeps(View(), i, failed);
      ops := ops[i := ops[i].(phase := Finished(true, failed))];
      if inFlight == Some(i) { inFlight := None; }
    }

    /** The `.finally` callback of promise `i`. */
    method OnFinally(i: nat)
      requires Inv(View()) && Enabled(View(), Finally(i))
      modifies this
      ensures View() == FinallyOp(old(View()), i) && Inv(View())
    {
      FinallyKeeps(View(), i);
      if ops[i].kind == LocalStack.Stop {
        if stopping == Some(i) { stopping := None; }
      } else {
        if running == Some(i) { running := None; }
      }
      ops := ops[i := ops[i].(phase := Settled(ops[i].phase.ran, ops[i].phase.failed))];
    }
  }
}
