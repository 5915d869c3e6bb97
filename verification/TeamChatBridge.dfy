/** The bridge's code in its own form.  `Table` holds the rows that a reconcile pass changes
    batch by batch, with other processes writing between any two of its updates.  `Connection` is one pass at one row: queue, the two deliveries, sendOnce and
    retry with their own reads, guards and writes, while other processes interleave at every
    await.  Each statement is proved to do what the protocol's step at that point does, so the
    whole execution is a run of the protocol. */
module TeamChatBridge {
  import opened Wrappers
  import opened TeamChatRow
  import opened TeamChatProtocol
  import opened TeamChatSafety
  import Recovery = TeamChatRecovery
  import Ambient = TeamChatAmbient

  /** What a pass over the table reads and writes: the rows, oldest first, those whose wake nonce is
      committed, and inFlightRoutineWakes. */
  datatype World = World(rows: seq<Row>, woken: set<nat>, inFlight: set<nat>)

  /** What other processes do to the table while the pass awaits its k-th call. */
  type Others = (nat, World) -> World

  ghost predicate Idle(others: Others) {
    forall k, world :: others(k, world) == world
  }

  /** The other processes leave row `i` alone, and whether it is woken or in flight. */
  ghost predicate LeavesAlone(others: Others, i: nat) {
    forall k, world :: Untouched(world, others(k, world), i)
  }

  predicate Untouched(a: World, b: World, i: nat) {
    && (i < |a.rows| && i < |b.rows| ==> b.rows[i] == a.rows[i])
    && (i in b.woken <==> i in a.woken) && (i in b.inFlight <==> i in a.inFlight)
  }

  class Table {
    var rows: seq<Row>
    var woken: set<nat>
    var inFlight: set<nat>
    var awaits: nat
    const others: Others

    constructor (world: World, others: Others)
      ensures rows == world.rows && woken == world.woken && inFlight == world.inFlight && this.others == others
    {
      rows, woken, inFlight, awaits := world.rows, world.woken, world.inFlight, 0;
      this.others := others;
    }

    ghost function View(): World
      reads this
    {
      World(rows, woken, inFlight)
    }

    /** The other processes take their turn; rows are never deleted, and new ones are no concern of the pass. */
    method Await()
      modifies this
      ensures |rows| == |old(rows)|
      ensures Idle(others) ==> View() == old(View())
      ensures forall i: nat :: i < |rows| && LeavesAlone(others, i) ==> Untouched(old(View()), View(), i)
    {
      var world := others(awaits, World(rows, woken, inFlight));
      awaits := awaits + 1;
      if |world.rows| == |rows| { rows, woken, inFlight := world.rows, world.woken, world.inFlight; }
    }

    // ---- recovery ----

    /** findMany over deferred rows whose lease has run out, then for each a look for its wake and one guarded
        update.  A row that nobody else touches ends as the recovery pass says; and every update the pass
        makes is of a row of its batch, which it moves on only if it is still deferred and expired. */
    method RecoverExpiredDeferredMessages(now: nat) returns (ghost log: seq<Ambient.Update>)
      modifies this
      ensures |rows| == |old(rows)|
      ensures forall i :: 0 <= i < |rows| && LeavesAlone(others, i) ==>
        rows[i] == Recovery.RecoverPass(old(rows), now, old(woken), old(inFlight))[i]
      ensures Idle(others) ==> rows == Recovery.RecoverPass(old(rows), now, old(woken), old(inFlight))
      ensures |log| == |Recovery.Batch(old(rows), now)|
      ensures forall k :: 0 <= k < |log| ==> RecoverUpdate(log[k], Recovery.Batch(old(rows), now)[k], now)
    {
      var expired := Recovery.Batch(rows, now);
      var seen := rows;
      log := [];
      var k := 0;
      while k < |expired|
        invariant 0 <= k <= |expired| && |rows| == |seen| == |old(rows)| && |log| == k
        invariant forall i :: 0 <= i < |rows| && LeavesAlone(others, i) ==>
          Untouched(World(Recovered(seen, expired[..k], now, old(woken), old(inFlight)), old(woken), old(inFlight)), View(), i)
        invariant forall j :: 0 <= j < k ==> RecoverUpdate(log[j], expired[j], now)
      {
        assert expired[..k + 1] == expired[..k] + [expired[k]] && expired[k] !in expired[..k];
        ghost var update := RecoverMessage(expired[k], seen[expired[k]].reason, now);
        log := log + [update];
        k := k + 1;
      }
      assert expired[..k] == expired;
      assert forall i: nat :: i < |rows| && Idle(others) ==> LeavesAlone(others, i);
    }

    /** One row of the batch: `reason` is what the query read. */
    method RecoverMessage(id: nat, reason: Reason, now: nat) returns (ghost update: Ambient.Update)
      requires id < |rows|
      modifies this
      ensures |rows| == |old(rows)| && RecoverUpdate(update, id, now)
      ensures forall i: nat :: i < |rows| && i != id && LeavesAlone(others, i) ==> Untouched(old(View()), View(), i)
      ensures LeavesAlone(others, id) ==>
        && (id in woken <==> id in old(woken)) && (id in inFlight <==> id in old(inFlight))
        && (old(rows)[id].reason == reason ==>
              rows[id] == Recovery.RecoverOne(old(rows)[id], now, id in woken, id in inFlight))
    {
      Await();
      var committed := id in woken;
      if !committed && Routed(reason) && id in inFlight { return Ambient.Update(rows, rows); }
      Await();
      update := Ambient.Update(rows, rows);
      var message := rows[id];
      rows := rows[id := if committed then IgnoreWoken(message, now)
                         else if Routed(reason) then Clear(message, now) else Promote(message, now)];
      update := Ambient.Update(update.before, rows);
    }

    // ---- the ambient pass ----

    /** updateMany over the ids: those still observed become ignored. */
    method MarkAmbientIgnored(ids: set<nat>) returns (ghost update: Ambient.Update)
      modifies this
      ensures |rows| == |old(rows)| && update.after == rows
      ensures update.after == Ambient.IgnoreAll(update.before, ids)
      ensures Idle(others) ==> View().(rows := update.before) == old(View())
    {
      Await();
      update := Ambient.Update(rows, Ambient.IgnoreAll(rows, ids));
      rows := Ambient.IgnoreAll(rows, ids);
    }

    /** The trigger's compare-and-set; false when another writer got there first. */
    method PromoteAmbientTrigger(id: nat, reason: Reason) returns (promoted: bool, ghost update: Ambient.Update)
      requires id < |rows|
      modifies this
      ensures |rows| == |old(rows)| == |update.before| && update.after == rows
      ensures promoted <==> CanJudge(update.before[id])
      ensures update.after == if promoted then update.before[id := AmbientPromote(update.before[id], reason)] else update.before
      ensures Idle(others) ==> View().(rows := update.before) == old(View())
    {
      Await();
      promoted := CanJudge(rows[id]);
      update := Ambient.Update(rows, rows);
      if promoted { rows := rows[id := AmbientPromote(rows[id], reason)]; }
      update := Ambient.Update(update.before, rows);
    }

    /** The end of one conversation: ignore the batch, or promote its trigger and, only if that
        update won, ignore the rest. */
    method ActOnJudgement(evaluated: seq<Ambient.Message>, conv: Ambient.Conversation, judged: Ambient.Decision)
      returns (ghost log: seq<Ambient.Update>)
      requires evaluated != [] && forall m :: m in evaluated ==> m.row < |rows|
      modifies this
      ensures |rows| == |old(rows)| && Ambient.Sized(log, |rows|)
      ensures Ambient.JudgedLog(log, Ambient.RowsOf(evaluated), Ambient.TriggerOf(evaluated, conv, judged).row,
                                Ambient.DecisionOn(evaluated, conv, judged))
      ensures Idle(others) ==> View() == old(View()).(rows := Ambient.Act(old(rows), evaluated, conv, judged))
    {
      var decision := Ambient.DecisionOn(evaluated, conv, judged);
      var trigger := Ambient.TriggerOf(evaluated, conv, judged);
      if !decision.act {
        ghost var all := MarkAmbientIgnored(Ambient.RowsOf(evaluated));
        return [all];
      }
      var promoted;
      ghost var promotion;
      promoted, promotion := PromoteAmbientTrigger(trigger.row, Ambient.AsReason(decision.reason));
      log := [promotion];
      if promoted {
        ghost var rest := MarkAmbientIgnored(Ambient.RowsOf(evaluated) - {trigger.row});
        log := [promotion, rest];
      }
    }

    /** One conversation of the pass. */
    method EvaluateConversation(messages: seq<Ambient.Message>, conv: Ambient.Conversation, cutoff: int,
                                judge: seq<Ambient.Message> -> Ambient.Decision)
      returns (ghost log: seq<Ambient.Update>)
      requires forall m :: m in messages ==> m.row < |rows|
      modifies this
      ensures |rows| == |old(rows)| && Ambient.Sized(log, |rows|)
      ensures Ambient.ConversationLog(log, messages, conv, cutoff, judge)
      ensures Idle(others) ==>
        View() == old(View()).(rows := Ambient.ConversationStep(old(rows), messages, conv, cutoff, judge))
    {
      if !conv.enabled {
        ghost var all := MarkAmbientIgnored(Ambient.RowsOf(messages));
        return [all];
      }
      var ignored := Ambient.Keep(messages, m => Ambient.IgnoredSender(conv, m));
      ghost var first := MarkAmbientIgnored(Ambient.RowsOf(ignored));
      log := [first];
      var evaluated := Ambient.Evaluated(conv, messages);
      if Ambient.Quiet(evaluated, cutoff) {
        ghost var rest := ActOnJudgement(evaluated, conv, judge(Ambient.Tail(evaluated, Ambient.AMBIENT_CONTEXT_MESSAGES)));
        log := [first] + rest;
        assert log[1..] == rest;
      }
    }

    /** Groups the observed batch, then judges and acts on one conversation after the other; nothing
        happens for a bot that has been archived.  `logs` has the updates made for each conversation, each
        with the table it met and the table it left. */
    method EvaluateAmbient(observed: seq<Ambient.Message>, archived: bool, convs: nat -> Ambient.Conversation, cutoff: int,
                           judge: seq<Ambient.Message> -> Ambient.Decision)
      returns (groups: seq<Ambient.Group>, ghost logs: seq<seq<Ambient.Update>>)
      requires forall m :: m in observed ==> m.row < |rows|
      requires forall m, n :: m in observed && n in observed && m.row == n.row ==> m == n
      modifies this
      ensures Ambient.Partition(groups, if archived then [] else observed)
      ensures Ambient.PassLog(logs, groups, convs, cutoff, judge)
      ensures Ambient.ActsOnce(logs, groups, convs, cutoff, judge)
      ensures Idle(others) ==>
        && Ambient.PassWithin(old(rows), rows, groups) && Ambient.InTable(groups, old(rows))
        && rows == Ambient.PassOver(old(rows), groups, convs, cutoff, judge)
    {
      if archived { return [], []; }
      groups := Ambient.GroupByConversation(observed);
      Ambient.PartitionDisjoint(groups, observed);
      logs := EvaluateGroups(groups, convs, cutoff, judge);
      Ambient.LogsActOnce(logs, groups, convs, cutoff, judge);
      Ambient.PassActsWithin(old(rows), groups, convs, cutoff, judge);
    }

    method EvaluateGroups(groups: seq<Ambient.Group>, convs: nat -> Ambient.Conversation, cutoff: int,
                          judge: seq<Ambient.Message> -> Ambient.Decision)
      returns (ghost logs: seq<seq<Ambient.Update>>)
      requires Ambient.InTable(groups, rows)
      modifies this
      ensures Ambient.PassLog(logs, groups, convs, cutoff, judge)
      ensures Idle(others) ==> rows == Ambient.PassOver(old(rows), groups, convs, cutoff, judge)
    {
      logs := [];
      var g := 0;
      while g < |groups|
        invariant 0 <= g <= |groups| && |logs| == g && |rows| == |old(rows)|
        invariant Ambient.InTable(groups[..g], old(rows))
        invariant Ambient.PassLog(logs, groups[..g], convs, cutoff, judge)
        invariant Idle(others) ==> View() == old(View()).(rows := Ambient.PassOver(old(rows), groups[..g], convs, cutoff, judge))
      {
        assert groups[..g + 1][..g] == groups[..g];
        ghost var log := EvaluateConversation(groups[g].messages, convs(groups[g].conversation), cutoff, judge);
        Ambient.OneMoreLog(logs, log, groups, g, convs, cutoff, judge);
        logs := logs + [log];
        g := g + 1;
      }
      assert groups[..g] == groups;
    }
  }

  /** What the pass computes for the rows of its batch seen so far. */
  ghost function Recovered(rows: seq<Row>, ids: seq<nat>, now: nat, woken: set<nat>, inFlight: set<nat>): (rows': seq<Row>)
    ensures |rows'| == |rows|
  {
    seq(|rows|, i requires 0 <= i < |rows| =>
      if i in ids then Recovery.RecoverOne(rows[i], now, i in woken, i in inFlight) else rows[i])
  }

  /** One update of recovery: of this row alone, and only while it is deferred and expired. */
  predicate RecoverUpdate(update: Ambient.Update, id: nat, now: nat) {
    && |update.after| == |update.before| && id < |update.before|
    && (forall i :: 0 <= i < |update.before| && i != id ==> update.after[i] == update.before[i])
    && (update.after[id] != update.before[id] ==> Recovery.Expired(update.before[id], now))
    && (update.after[id] == update.before[id] || update.after[id] == IgnoreWoken(update.before[id], now)
        || update.after[id] == Clear(update.before[id], now) || update.after[id] == Promote(update.before[id], now))
  }

  /** What else happens while this process awaits its k-th call, and whether that call throws. */
  datatype Schedule = Schedule(others: nat -> seq<Action>, throws: nat -> bool)

  ghost predicate NeverThrows(s: Schedule) {
    forall n :: !s.throws(n)
  }

  /** What no step of anybody takes back: a linked row stays linked, a delivered row delivered, an
      ended run ended. */
  predicate Lasts(s: Shared, s': Shared) {
    && (Linked(s.row.status) ==> Linked(s'.row.status))
    && (s.row.status == Delivered ==> s'.row.status == Delivered)
    && (RunEnded(s) ==> s'.run == s.run)
    && s.sends <= s'.sends
  }

  predicate RunEnded(s: Shared) {
    s.run.Some? && s.run.value.state != Active
  }

  /** An ambient event gets no post for a failure or an empty answer. */
  predicate Speaks(s: Shared, empty: bool)
    requires RunEnded(s)
  {
    s.row.kind == Direct || (s.run.value.state == Completed && !empty)
  }

  function SilentHandle(s: Shared, empty: bool): Option<string>
    requires RunEnded(s)
  {
    if Speaks(s, empty) then None
    else Some(if s.run.value.state == Completed then "silent" else "silent-failure")
  }

  /** Where the pass's catch takes a call that throws here. */
  predicate CatchGoesTo(pc: Pc, n: nat, next: Option<nat>) {
    || ((InQueue(pc) || pc.QueueSlack?) && pc.attempts == n && next == Some(pc.t))
    || (InDelivery(pc) && pc.attempts == n && next == None)
  }

  class Connection {
    var w: State
    var awaits: nat
    const pid: Pid
    ghost const start: State
    ghost var log: seq<Action>

    /** The world is where the logged run leads, and this pass is still in it. */
    ghost predicate Valid()
      reads this
    {
      && IsRun(start, log) && After(start, log) == w && Safe(w)
      && pid in w.procs && !InHandler(w.procs[pid].pc)
    }

    /** The statement this pass is at. */
    ghost function Here(): Pc
      reads this
      requires pid in w.procs
    {
      w.procs[pid].pc
    }

    constructor (w: State, pid: Pid)
      requires Safe(w) && pid in w.procs && !InHandler(w.procs[pid].pc)
      ensures Valid() && this.w == w && this.pid == pid && start == w && log == []
    {
      this.w, this.pid, this.awaits := w, pid, 0;
      start, log := w, [];
    }

    // ---- other processes ----

    /** Actions that belong to this process, or that end it. */
    predicate Mine(a: Action)
      reads this
      requires pid in w.procs
    {
      match a
      case Handler(p, _) => p == pid
      case Pass(p, _) => p == pid
      case Crash(inst) => inst == w.procs[pid].inst
      case _ => false
    }

    method PerformOther(a: Action)
      requires Valid() && Enabled(w, a) && !Mine(a)
      modifies this`w, this`log
      ensures Valid() && Here() == old(Here()) && old(log) <= log && Lasts(old(w).s, w.s)
    {
      RunSnoc(start, log, a);
      StepSafe(w, a);
      Unmoved(w, a, pid);
      w, log := Step(w, a), log + [a];
    }

    /** The other processes take their turns; turns that are not possible are skipped. */
    method Await(s: Schedule)
      requires Valid()
      modifies this`w, this`log, this`awaits
      ensures Valid() && Here() == old(Here()) && old(log) <= log && Lasts(old(w).s, w.s) && awaits == old(awaits) + 1
    {
      var others := s.others(awaits);
      awaits := awaits + 1;
      var k := 0;
      while k < |others|
        invariant 0 <= k <= |others| && awaits == old(awaits) + 1
        invariant Valid() && Here() == old(Here()) && old(log) <= log && Lasts(old(w).s, w.s)
      {
        if Enabled(w, others[k]) && !Mine(others[k]) {
          PerformOther(others[k]);
        }
        k := k + 1;
      }
    }

    // ---- this process ----

    /** A statement leaves the shared state `s'` and goes on at `next`: it has to be the protocol's step. */
    method Take(a: PassAct, s': Shared, next: Pc)
      requires Valid() && PassEnabled(Here(), a) && !InHandler(next)
      requires PassMove(w.s, w.procs[pid].inst, Here(), a) == To(s', next)
      modifies this`w, this`log
      ensures Valid() && Here() == next && w.s == s' && old(log) <= log && Lasts(old(w).s, w.s)
    {
      RunSnoc(start, log, Pass(pid, a));
      StepSafe(w, Pass(pid, a));
      w, log := w.(s := s', procs := w.procs[pid := Proc(w.procs[pid].inst, next)]), log + [Pass(pid, a)];
    }

    /** An awaited call is made: it throws into the pass's catch, or it takes effect now. */
    method Reach(n: nat, next: Option<nat>, s: Schedule) returns (ok: bool)
      requires Valid() && CatchGoesTo(Here(), n, next)
      modifies this
      ensures Valid() && old(log) <= log && Lasts(old(w).s, w.s)
      ensures if ok then Here() == old(Here()) else Here() == RetryRead(n, next) && !NeverThrows(s)
    {
      Await(s);
      ok := !s.throws(awaits);
      if !ok { Take(Throw, w.s, RetryRead(n, next)); }
    }

    // ---- queue ----

    /** `findWake()`; `ifWoken` and `otherwise` are the statements after it. */
    method FindWake(t: nat, n: nat, ifWoken: Pc, otherwise: Pc, s: Schedule) returns (ok: bool, woken: bool)
      requires Valid() && BeforeLastFind(Here()) && !Here().SendUser? && CatchGoesTo(Here(), n, Some(t))
      requires !InHandler(ifWoken) && !InHandler(otherwise)
      requires forall sh :: QueueStep(sh, Here()) == To(sh, if sh.nonce then ifWoken else otherwise)
      modifies this
      ensures Valid() && old(log) <= log && Lasts(old(w).s, w.s)
      ensures if ok then Here() == (if woken then ifWoken else otherwise) else Here() == RetryRead(n, Some(t)) && !NeverThrows(s)
      ensures ok ==> woken == w.s.nonce
    {
      woken := false;
      ok := Reach(n, Some(t), s);
      if !ok { return; }
      woken := w.s.nonce;
      Take(Go, w.s, if woken then ifWoken else otherwise);
    }

    /** `found` is the row the update meets. */
    method AbandonForRoutine(t: nat, n: nat, status: Status, s: Schedule) returns (ok: bool, ghost found: Row)
      requires Valid() && CatchGoesTo(Here(), n, Some(t))
      requires (status == Received && Here().AbandonUnclaimed?) || (status == Queueing && Here().AbandonClaimed?)
      modifies this
      ensures Valid() && old(log) <= log && Lasts(old(w).s, w.s)
      ensures if ok then Here() == DeliverScan(t) else Here() == RetryRead(n, Some(t)) && !NeverThrows(s)
      ensures ok && found.status == status && (status == Queueing ==> found.runId.None?) ==>
        w.s.row == found.(status := Ignored, reason := RoutineWake, lease := None)
      ensures ok && !(found.status == status && (status == Queueing ==> found.runId.None?)) ==> w.s.row == found
    {
      ok := Reach(n, Some(t), s);
      found := w.s.row;
      if !ok { return; }
      var row := w.s.row;
      if row.status == status && (status == Queueing ==> row.runId.None?) {
        row := row.(status := Ignored, reason := RoutineWake, lease := None);
      }
      Take(Go, w.s.(row := row), DeliverScan(t));
    }

    /** `found` is the row the update meets. */
    method ClaimAgentOwnership(t: nat, n: nat, s: Schedule) returns (ok: bool, claimed: bool, ghost found: Row)
      requires Valid() && Here() == ClaimQueueing(t, n)
      modifies this
      ensures Valid() && old(log) <= log && Lasts(old(w).s, w.s)
      ensures if !ok then Here() == RetryRead(n, Some(t)) && !NeverThrows(s)
        else if claimed then Here() == FindAfterClaim(t, n) && CanLink(w.s.row) else Here() == DeliverScan(t)
      ensures ok ==> (claimed <==> found.status == Received && found.reason !in {Routing, Rearmed, AgentOwned})
      ensures ok ==> w.s.row == if claimed
        then found.(status := Queueing, reason := AgentOwned, lease := Some(w.s.now + 120_000)) else found
    {
      claimed := false;
      ok := Reach(n, Some(t), s);
      found := w.s.row;
      if ok { claimed := ClaimNow(t, n); }
    }

    method ClaimNow(t: nat, n: nat) returns (claimed: bool)
      requires Valid() && Here() == ClaimQueueing(t, n)
      modifies this`w, this`log
      ensures Valid() && old(log) <= log && Lasts(old(w).s, w.s)
      ensures Here() == if claimed then FindAfterClaim(t, n) else DeliverScan(t)
      ensures claimed <==> old(w.s.row).status == Received && old(w.s.row).reason !in {Routing, Rearmed, AgentOwned}
      ensures w.s.row == if claimed
        then old(w.s.row).(status := Queueing, reason := AgentOwned, lease := Some(w.s.now + QUEUE_RESERVATION_MS))
        else old(w.s.row)
    {
      var row := w.s.row;
      claimed := row.status == Received && row.reason !in {Routing, Rearmed, AgentOwned};
      if claimed {
        row := row.(status := Queueing, reason := AgentOwned, lease := Some(w.s.now + QUEUE_RESERVATION_MS));
      }
      Take(Go, w.s.(row := row), if claimed then FindAfterClaim(t, n) else DeliverScan(t));
    }

    /** The final pre-create barrier's read of the row. */
    method StillOwned(t: nat, n: nat, s: Schedule) returns (ok: bool, owned: bool)
      requires Valid() && Here() == Barrier(t, n)
      modifies this
      ensures Valid() && old(log) <= log && Lasts(old(w).s, w.s)
      ensures if !ok then Here() == RetryRead(n, Some(t)) && !NeverThrows(s)
        else Here() == if owned then FindAtBarrier(t, n) else AbandonClaimed(t, n, None)
      ensures ok ==> (owned <==> w.s.row.status == Queueing && w.s.row.reason == AgentOwned)
    {
      owned := false;
      ok := Reach(n, Some(t), s);
      if !ok { return; }
      owned := w.s.row.status == Queueing && w.s.row.reason == AgentOwned;
      Take(Go, w.s, if owned then FindAtBarrier(t, n) else AbandonClaimed(t, n, None));
    }

    /** `sendUserMessage`: idempotent in the client nonce, so an earlier call's run is found again. */
    method SendUserMessage(t: nat, n: nat, newId: nat, s: Schedule) returns (ok: bool, run: nat)
      requires Valid() && Here() == SendUser(t, n)
      modifies this
      ensures Valid() && old(log) <= log && Lasts(old(w).s, w.s)
      ensures if ok then Here() == FindAfterSend(t, n, run) else Here() == RetryRead(n, Some(t)) && !NeverThrows(s)
      ensures ok ==> w.s.run.Some? && w.s.run.value.id == run
    {
      run := newId;
      ok := Reach(n, Some(t), s);
      if !ok { return; }
      var shared := w.s;
      if shared.run.Some? { run := shared.run.value.id; }
      else { shared := shared.(run := Some(AgentRun(newId, Active))); }
      Take(SendCreates(newId), shared, FindAfterSend(t, n, run));
    }

    method CancelFallbackRun(t: nat, n: nat, run: nat, s: Schedule) returns (ok: bool)
      requires Valid() && Here() == CancelRun(t, n, run)
      modifies this
      ensures Valid() && old(log) <= log && Lasts(old(w).s, w.s)
      ensures if ok then Here() == AbandonClaimed(t, n, Some(run)) && RunEnded(w.s)
        else Here() == RetryRead(n, Some(t)) && !NeverThrows(s)
    {
      ok := Reach(n, Some(t), s);
      if !ok { return; }
      assert PcOk(w.s, Here());
      var shared := w.s;
      if shared.run == Some(AgentRun(run, Active)) {
        shared := shared.(run := Some(AgentRun(run, Cancelled)));
      }
      Take(Go, shared, AbandonClaimed(t, n, Some(run)));
    }

    method LinkToRun(t: nat, n: nat, run: nat, s: Schedule) returns (ok: bool, linked: bool)
      requires Valid() && Here() == LinkRun(t, n, run)
      modifies this
      ensures Valid() && old(log) <= log && Lasts(old(w).s, w.s)
      ensures if ok && linked then Here() == EnqueueRun(t, n, run) && Linked(w.s.row.status)
        else Here() == RetryRead(n, Some(t)) && (if ok then !CanLink(w.s.row) else !NeverThrows(s))
    {
      linked := false;
      ok := Reach(n, Some(t), s);
      if !ok { return; }
      var row := w.s.row;
      linked := row.status == Queueing && row.reason == AgentOwned;
      if linked { row := row.(status := Running, runId := Some(run), lease := None); }
      Take(Go, w.s.(row := row), if linked then EnqueueRun(t, n, run) else RetryRead(n, Some(t)));
    }

    method EnqueueContinue(t: nat, n: nat, run: nat, s: Schedule) returns (ok: bool)
      requires Valid() && Here() == EnqueueRun(t, n, run)
      modifies this
      ensures Valid() && old(log) <= log && Lasts(old(w).s, w.s)
      ensures if ok then Here() == DeliverScan(t) else Here() == RetryRead(n, Some(t)) && !NeverThrows(s)
    {
      ok := Reach(n, Some(t), s);
      if ok { Take(Go, w.s, DeliverScan(t)); }
    }

    /** After the claim: look for the wake, check the ownership, look again. `lost` when the row is to be
        left to its routine. */
    method CheckBarrier(t: nat, n: nat, s: Schedule) returns (ok: bool, lost: bool)
      requires Valid() && Here() == FindAfterClaim(t, n)
      modifies this
      ensures Valid() && old(log) <= log && Lasts(old(w).s, w.s)
      ensures if !ok then Here() == RetryRead(n, Some(t)) && !NeverThrows(s)
        else Here() == if lost then AbandonClaimed(t, n, None) else SendUser(t, n)
      ensures ok && !lost ==> !w.s.nonce
    {
      ok, lost := FindWake(t, n, AbandonClaimed(t, n, None), Barrier(t, n), s);
      if !ok || lost { return; }
      ok, lost := RefuseIfLost(t, n, s);
    }

    /** `latest?.status !== "queueing" || … || (await findWake())` */
    method RefuseIfLost(t: nat, n: nat, s: Schedule) returns (ok: bool, lost: bool)
      requires Valid() && Here() == Barrier(t, n)
      modifies this
      ensures Valid() && old(log) <= log && Lasts(old(w).s, w.s)
      ensures if !ok then Here() == RetryRead(n, Some(t)) && !NeverThrows(s)
        else Here() == if lost then AbandonClaimed(t, n, None) else SendUser(t, n)
      ensures ok && !lost ==> !w.s.nonce
    {
      var owned;
      ok, owned := StillOwned(t, n, s);
      if !ok || !owned { return ok, true; }
      ok, lost := FindWake(t, n, AbandonClaimed(t, n, None), SendUser(t, n), s);
    }

    /** From the claim to the point where a run may be created; `clear` when it may. */
    method ClaimAndCheck(t: nat, n: nat, s: Schedule) returns (thrown: bool, clear: bool)
      requires Valid() && Here() == ClaimQueueing(t, n)
      modifies this
      ensures Valid() && old(log) <= log && Lasts(old(w).s, w.s)
      ensures if thrown then Here() == RetryRead(n, Some(t)) && !NeverThrows(s)
        else Here() == if clear then SendUser(t, n) else DeliverScan(t)
    {
      var ok, claimed;
      ghost var found;
      ok, claimed, found := ClaimAgentOwnership(t, n, s);
      if !ok || !claimed { return !ok, false; }
      thrown, clear := CheckOrAbandon(t, n, s);
    }

    method CheckOrAbandon(t: nat, n: nat, s: Schedule) returns (thrown: bool, clear: bool)
      requires Valid() && Here() == FindAfterClaim(t, n)
      modifies this
      ensures Valid() && old(log) <= log && Lasts(old(w).s, w.s)
      ensures if thrown then Here() == RetryRead(n, Some(t)) && !NeverThrows(s)
        else Here() == if clear then SendUser(t, n) else DeliverScan(t)
    {
      var ok, lost := CheckBarrier(t, n, s);
      if !ok { return true, false; }
      if lost {
        ghost var found;
        ok, found := AbandonForRoutine(t, n, Queueing, s);
      }
      return !ok, !lost;
    }

    method CancelAndAbandon(t: nat, n: nat, run: nat, s: Schedule) returns (thrown: bool)
      requires Valid() && Here() == CancelRun(t, n, run)
      modifies this
      ensures Valid() && old(log) <= log && Lasts(old(w).s, w.s)
      ensures if thrown then Here() == RetryRead(n, Some(t)) && !NeverThrows(s) else Here() == DeliverScan(t) && RunEnded(w.s)
    {
      var ok := CancelFallbackRun(t, n, run, s);
      if ok {
        ghost var found;
        ok, found := AbandonForRoutine(t, n, Queueing, s);
      }
      return !ok;
    }

    method LinkAndEnqueue(t: nat, n: nat, run: nat, s: Schedule) returns (thrown: bool)
      requires Valid() && Here() == LinkRun(t, n, run)
      modifies this
      ensures Valid() && old(log) <= log && Lasts(old(w).s, w.s)
      ensures if thrown then Here() == RetryRead(n, Some(t)) && (NeverThrows(s) ==> !CanLink(w.s.row))
        else Here() == DeliverScan(t) && Linked(w.s.row.status)
    {
      var ok, linked := LinkToRun(t, n, run, s);
      if !ok || !linked { return true; }
      ok := EnqueueContinue(t, n, run, s);
      return !ok;
    }

    method CreateThenLook(t: nat, n: nat, newId: nat, s: Schedule) returns (ok: bool, run: nat, woken: bool)
      requires Valid() && Here() == SendUser(t, n)
      modifies this
      ensures Valid() && old(log) <= log && Lasts(old(w).s, w.s)
      ensures if ok then Here() == (if woken then CancelRun(t, n, run) else LinkRun(t, n, run))
        else Here() == RetryRead(n, Some(t)) && !NeverThrows(s)
    {
      woken := false;
      ok, run := SendUserMessage(t, n, newId, s);
      if !ok { return; }
      ok, woken := FindWake(t, n, CancelRun(t, n, run), LinkRun(t, n, run), s);
    }

    /** Create the run, look for the wake a last time, then cancel and abandon or link and enqueue. When
        it does not throw, the row is linked or the run has ended. */
    method CreateAndLink(t: nat, n: nat, newId: nat, s: Schedule) returns (thrown: bool)
      requires Valid() && Here() == SendUser(t, n)
      modifies this
      ensures Valid() && old(log) <= log && Lasts(old(w).s, w.s)
      ensures if thrown then Here() == RetryRead(n, Some(t)) && (NeverThrows(s) ==> !CanLink(w.s.row))
        else Here() == DeliverScan(t) && (Linked(w.s.row.status) || RunEnded(w.s))
    {
      var ok, run, woken := CreateThenLook(t, n, newId, s);
      if !ok { return true; }
      if woken { thrown := CancelAndAbandon(t, n, run, s); }
      else { thrown := LinkAndEnqueue(t, n, run, s); }
    }

    /** The look for a wake before the claim; `clear` when there is none. */
    method FindBefore(t: nat, n: nat, s: Schedule) returns (thrown: bool, clear: bool)
      requires Valid() && Here() == FindBeforeClaim(t, n)
      modifies this
      ensures Valid() && old(log) <= log && Lasts(old(w).s, w.s)
      ensures if thrown then Here() == RetryRead(n, Some(t)) && (NeverThrows(s) ==> !CanLink(w.s.row))
        else Here() == if clear then ClaimQueueing(t, n) else DeliverScan(t)
    {
      var ok, woken := FindWake(t, n, AbandonUnclaimed(t, n), ClaimQueueing(t, n), s);
      if !ok { return true, false; }
      if woken {
        ghost var found;
        ok, found := AbandonForRoutine(t, n, Received, s);
      }
      return !ok, !woken;
    }

    /** queue, past its checks of the snapshot. */
    method Queue(t: nat, n: nat, newId: nat, s: Schedule) returns (thrown: bool)
      requires Valid() && Here() == FindBeforeClaim(t, n)
      modifies this
      ensures Valid() && old(log) <= log && Lasts(old(w).s, w.s)
      ensures if thrown then Here() == RetryRead(n, Some(t)) && (NeverThrows(s) ==> !CanLink(w.s.row)) else Here() == DeliverScan(t)
    {
      var clear;
      thrown, clear := FindBefore(t, n, s);
      if !thrown && clear { thrown := ClaimThenCreate(t, n, newId, s); }
    }

    method ClaimThenCreate(t: nat, n: nat, newId: nat, s: Schedule) returns (thrown: bool)
      requires Valid() && Here() == ClaimQueueing(t, n)
      modifies this
      ensures Valid() && old(log) <= log && Lasts(old(w).s, w.s)
      ensures if thrown then Here() == RetryRead(n, Some(t)) && (NeverThrows(s) ==> !CanLink(w.s.row)) else Here() == DeliverScan(t)
    {
      var clear;
      thrown, clear := ClaimAndCheck(t, n, s);
      if thrown || !clear { return; }
      thrown := CreateAndLink(t, n, newId, s);
    }

    method DropSlack(t: nat, n: nat, s: Schedule) returns (thrown: bool)
      requires Valid() && Here() == QueueSlack(t, n)
      modifies this
      ensures Valid() && old(log) <= log && Lasts(old(w).s, w.s)
      ensures Here() == if thrown then RetryRead(n, Some(t)) else DeliverScan(t)
    {
      var ok := Reach(n, Some(t), s);
      if ok { Take(Go, w.s.(row := w.s.row.(status := Ignored, lease := None)), DeliverScan(t)); }
      return !ok;
    }

    /** The received row of the pass, if this pass finds it due and within its batch. */
    method ScanReceived(t: nat, inBatch: bool, s: Schedule) returns (found: Option<Row>)
      requires Valid() && Here() == QueueScan(t)
      modifies this
      ensures Valid() && old(log) <= log && Lasts(old(w).s, w.s)
      ensures found.Some? <==> inBatch && w.s.row.status == Received && (w.s.row.lease.None? || w.s.row.lease.value <= t)
      ensures found.Some? ==> found.value == w.s.row
      ensures Here() == if found.None? || (!w.s.slack && Routed(found.value.reason)) then DeliverScan(t)
        else if w.s.slack then QueueSlack(t, found.value.attempts) else FindBeforeClaim(t, found.value.attempts)
    {
      Await(s);
      var row := w.s.row;
      if !inBatch {
        Take(Skip, w.s, DeliverScan(t));
        return None;
      }
      if row.status != Received || !DueBy(row.lease, t) {
        Take(Go, w.s, DeliverScan(t));
        return None;
      }
      // queue's first two checks read only this snapshot and the conversation's provider
      Take(Go, w.s, if w.s.slack then QueueSlack(t, row.attempts)
                    else if Routed(row.reason) then DeliverScan(t) else FindBeforeClaim(t, row.attempts));
      return Some(row);
    }

    /** `queue(message).catch((error) => retry(message, error))` over the received rows. */
    method QueueReceived(t: nat, inBatch: bool, newId: nat, s: Schedule)
      requires Valid() && Here() == QueueScan(t)
      modifies this
      ensures Valid() && old(log) <= log && Here() == DeliverScan(t)
    {
      var found := ScanReceived(t, inBatch, s);
      if found.None? { return; }
      var n := found.value.attempts;
      var thrown := false;
      if w.s.slack { thrown := DropSlack(t, n, s); }
      else if !Routed(found.value.reason) { thrown := Queue(t, n, newId, s); }
      if thrown {
        var finished := Retry(n, Some(t), s);
      }
    }

    // ---- delivery ----

    method MarkDelivered(n: nat, handle: string, s: Schedule) returns (ok: bool)
      requires Valid() && (Here() == DeliverSilent(n, handle) || Here() == Finalize(n, handle))
      modifies this
      ensures Valid() && old(log) <= log && Lasts(old(w).s, w.s)
      ensures if ok then Here() == Done && w.s.row.status == Delivered && w.s.row.handle == Some(handle)
        else Here() == RetryRead(n, None) && !NeverThrows(s)
    {
      ok := Reach(n, None, s);
      if ok { Take(Go, w.s.(row := w.s.row.(status := Delivered, handle := Some(handle), lease := None)), Done); }
    }

    /** reserveDelivery's claim. */
    method ClaimDelivery(n: nat, s: Schedule) returns (ok: bool, claimed: bool, now: nat, ghost found: Row)
      requires Valid() && Here() == ReserveSend(n)
      modifies this
      ensures Valid() && old(log) <= log && Lasts(old(w).s, w.s)
      ensures if !ok then Here() == RetryRead(n, None) && !NeverThrows(s)
        else if claimed then Here() == ReadHandle(n) && w.s.row.status == Delivering && w.s.sends == 0
        else Here() == FindPosted(n, now)
      ensures ok ==> (claimed <==> found.status == Running && found.handle.None?)
      ensures ok ==> w.s.row == if claimed
        then found.(status := Delivering, lease := Some(now + 120_000)) else found
    {
      claimed, now := false, w.s.now;
      ok := Reach(n, None, s);
      found, now := w.s.row, w.s.now;
      if ok { claimed := ReserveNow(n); }
    }

    method ReserveNow(n: nat) returns (claimed: bool)
      requires Valid() && Here() == ReserveSend(n)
      modifies this`w, this`log
      ensures Valid() && old(log) <= log && Lasts(old(w).s, w.s) && w.s.now == old(w.s.now)
      ensures claimed <==> old(w.s.row).status == Running && old(w.s.row).handle.None?
      ensures w.s.row == if claimed
        then old(w.s.row).(status := Delivering, lease := Some(w.s.now + DELIVERY_RESERVATION_MS)) else old(w.s.row)
      ensures if claimed then Here() == ReadHandle(n) && w.s.sends == 0 else Here() == FindPosted(n, w.s.now)
    {
      var row, now := w.s.row, w.s.now;
      claimed := row.status == Running && row.handle.None?;
      if claimed { row := row.(status := Delivering, lease := Some(now + DELIVERY_RESERVATION_MS)); }
      Take(Go, w.s.(row := row), if claimed then ReadHandle(n) else FindPosted(n, now));
      assert PcOk(w.s, Here());
    }

    /** Already posted but the status flip was lost: the stored handle, if there is one. */
    method FindPostedHandle(n: nat, now: nat, s: Schedule) returns (ok: bool, posted: Option<string>, ghost found: Row)
      requires Valid() && Here() == FindPosted(n, now)
      modifies this
      ensures Valid() && old(log) <= log && Lasts(old(w).s, w.s)
      ensures if !ok then Here() == RetryRead(n, None) && !NeverThrows(s)
        else Here() == if posted.Some? then Finalize(n, posted.value) else ExpireSend(n, now)
      ensures ok ==> (posted.Some? <==> found.status == Delivering && found.handle.Some? && found.handle.value != "")
      ensures ok && posted.Some? ==> posted == found.handle
    {
      posted := None;
      ok := Reach(n, None, s);
      found := w.s.row;
      if !ok { return; }
      if w.s.row.status == Delivering && Truthy(w.s.row.handle) { posted := w.s.row.handle; }
      Take(Go, w.s, if posted.Some? then Finalize(n, posted.value) else ExpireSend(n, now));
    }

    /** Prefer a lost reply over a duplicate post once the reservation has run out. */
    method GiveUpExpired(n: nat, now: nat, s: Schedule) returns (ok: bool, ghost found: Row)
      requires Valid() && Here() == ExpireSend(n, now)
      modifies this
      ensures Valid() && old(log) <= log && Lasts(old(w).s, w.s)
      ensures if ok then Here() == Done else Here() == RetryRead(n, None) && !NeverThrows(s)
      ensures ok ==> w.s.row == if found.status == Delivering && found.handle.None? && DueBy(found.lease, now)
        then found.(status := Delivered, handle := Some(UNCONFIRMED), lease := None) else found
    {
      ok := Reach(n, None, s);
      found := w.s.row;
      if !ok { return; }
      var row := w.s.row;
      if row.status == Delivering && row.handle.None? && DueBy(row.lease, now) {
        row := row.(status := Delivered, handle := Some(UNCONFIRMED), lease := None);
      }
      Take(Go, w.s.(row := row), Done);
    }

    method FinishPosted(n: nat, now: nat, s: Schedule) returns (thrown: bool)
      requires Valid() && Here() == FindPosted(n, now)
      modifies this
      ensures Valid() && old(log) <= log && Lasts(old(w).s, w.s)
      ensures if thrown then Here() == RetryRead(n, None) && !NeverThrows(s) else Here() == Done
    {
      var ok, posted;
      ghost var met;
      ok, posted, met := FindPostedHandle(n, now, s);
      if !ok { return true; }
      if posted.Some? { ok := MarkDelivered(n, posted.value, s); }
      else {
        ghost var found;
        ok, found := GiveUpExpired(n, now, s);
      }
      return !ok;
    }

    /** True only with the reservation just won, and then nothing has been posted; otherwise the delivery
        is over for this pass, or a call threw. */
    method ReserveDelivery(n: nat, s: Schedule) returns (thrown: bool, reserved: bool)
      requires Valid() && Here() == ReserveSend(n)
      modifies this
      ensures Valid() && old(log) <= log && Lasts(old(w).s, w.s)
      ensures if thrown then Here() == RetryRead(n, None) && !NeverThrows(s)
        else if reserved then Here() == ReadHandle(n) && w.s.row.status == Delivering && w.s.sends == 0
        else Here() == Done
    {
      var ok, claimed, now;
      ghost var found;
      ok, claimed, now, found := ClaimDelivery(n, s);
      if !ok || claimed { return !ok, claimed; }
      thrown := FinishPosted(n, now, s);
      reserved := false;
    }

    /** `found` is the row the read meets. */
    method ReadStoredHandle(n: nat, s: Schedule) returns (ok: bool, existing: Option<string>, ghost found: Row)
      requires Valid() && Here() == ReadHandle(n)
      modifies this
      ensures Valid() && old(log) <= log && Lasts(old(w).s, w.s)
      ensures if !ok then Here() == RetryRead(n, None) && !NeverThrows(s)
        else Here() == if existing.Some? then Finalize(n, existing.value) else Post(n)
      ensures ok ==> existing == if found.handle.Some? && found.handle.value != "" then found.handle else None
    {
      existing := None;
      ok := Reach(n, None, s);
      found := w.s.row;
      if !ok { return; }
      if Truthy(w.s.row.handle) { existing := w.s.row.handle; }
      Take(Go, w.s, if existing.Some? then Finalize(n, existing.value) else Post(n));
    }

    /** The provider is asked to post: this can only be the first time. */
    method Send(n: nat, handle: string, s: Schedule) returns (ok: bool)
      requires Valid() && Here() == Post(n)
      modifies this
      ensures Valid() && old(log) <= log && Lasts(old(w).s, w.s)
      ensures if ok then Here() == SaveHandle(n, handle) && w.s.sends == 1 else Here() == RetryRead(n, None) && !NeverThrows(s)
    {
      ok := Reach(n, None, s);
      if !ok { return; }
      assert PcOk(w.s, Here());
      Take(Reply(handle), w.s.(sends := w.s.sends + 1), SaveHandle(n, handle));
    }

    method StoreReplyHandle(n: nat, handle: string, s: Schedule) returns (ok: bool)
      requires Valid() && Here() == SaveHandle(n, handle)
      modifies this
      ensures Valid() && old(log) <= log && Lasts(old(w).s, w.s)
      ensures if ok then Here() == Finalize(n, handle) else Here() == RetryRead(n, None) && !NeverThrows(s)
    {
      ok := Reach(n, None, s);
      if ok { Take(Go, w.s.(row := w.s.row.(handle := Some(handle))), Finalize(n, handle)); }
    }

    /** The handle is stored before the status flips. */
    method PostAndStore(n: nat, handle: string, s: Schedule) returns (ok: bool)
      requires Valid() && Here() == Post(n)
      modifies this
      ensures Valid() && old(log) <= log && Lasts(old(w).s, w.s)
      ensures if ok then Here() == Finalize(n, handle) && w.s.sends == 1 else Here() == RetryRead(n, None) && !NeverThrows(s)
    {
      ok := Send(n, handle, s);
      if ok { ok := StoreReplyHandle(n, handle, s); }
    }

    /** It ends with the row delivered unless a call threw: with the handle already stored, or else after
        the one post, with the handle the provider returned. */
    method SendOnce(n: nat, handle: string, s: Schedule) returns (thrown: bool, ghost found: Row)
      requires Valid() && Here() == ReadHandle(n)
      modifies this
      ensures Valid() && old(log) <= log && Lasts(old(w).s, w.s)
      ensures if thrown then Here() == RetryRead(n, None) && !NeverThrows(s) else Here() == Done && w.s.row.status == Delivered
      ensures !thrown ==> if found.handle.Some? && found.handle.value != "" then w.s.row.handle == found.handle
                          else w.s.row.handle == Some(handle) && w.s.sends == 1
    {
      var ok, existing;
      ok, existing, found := ReadStoredHandle(n, s);
      thrown := true;
      if !ok { return; }
      if existing.Some? {
        ok := MarkDelivered(n, existing.value, s);
        thrown := !ok;
      } else {
        thrown := PostAndFinish(n, handle, s);
      }
    }

    method PostAndFinish(n: nat, handle: string, s: Schedule) returns (thrown: bool)
      requires Valid() && Here() == Post(n)
      modifies this
      ensures Valid() && old(log) <= log && Lasts(old(w).s, w.s)
      ensures if thrown then Here() == RetryRead(n, None) && !NeverThrows(s) else Here() == Done && w.s.row.status == Delivered
      ensures !thrown ==> w.s.row.handle == Some(handle) && w.s.sends == 1
    {
      thrown := true;
      var ok := PostAndStore(n, handle, s);
      if !ok { return; }
      ok := MarkDelivered(n, handle, s);
      thrown := !ok;
    }

    /** The row whose run has ended, if this pass finds it due and within its batch; `silent` is the
        handle to record when there is nothing to post. */
    method ScanEnded(t: nat, inBatch: bool, empty: bool, s: Schedule) returns (found: Option<Row>, silent: Option<string>)
      requires Valid() && Here() == DeliverScan(t)
      modifies this
      ensures Valid() && old(log) <= log && Lasts(old(w).s, w.s)
      ensures found.Some? ==> found.value == w.s.row && RunEnded(w.s) && silent == SilentHandle(w.s, empty)
      ensures Here() == if found.None? then Done
        else if silent.Some? then DeliverSilent(found.value.attempts, silent.value) else ReserveSend(found.value.attempts)
    {
      Await(s);
      found, silent := None, None;
      if !inBatch {
        Take(Skip, w.s, Done);
        return;
      }
      found, silent := LookForEnded(t, empty);
      Take(if empty then Silent else Go, w.s,
           if found.None? then Done
           else if silent.Some? then DeliverSilent(found.value.attempts, silent.value) else ReserveSend(found.value.attempts));
    }

    /** The row if it is due and its run has ended, and the handle that stands for no post, if none is made. */
    method LookForEnded(t: nat, empty: bool) returns (found: Option<Row>, silent: Option<string>)
      ensures found == if (w.s.row.status == Running || w.s.row.status == Delivering) && DueBy(w.s.row.lease, t) && RunEnded(w.s)
                       then Some(w.s.row) else None
      ensures silent == if found.Some? then SilentHandle(w.s, empty) else None
    {
      var row, run := w.s.row, w.s.run;
      found, silent := None, None;
      var due := (row.status == Running || row.status == Delivering) && DueBy(row.lease, t);
      if due && run.Some? && run.value.state != Active {
        found := Some(row);
        if row.kind == Ambient && run.value.state != Completed { silent := Some("silent-failure"); }
        else if row.kind == Ambient && empty { silent := Some("silent"); }
      }
    }

    /** `deliverCompletion` or `deliverFailure`, and `retry` if it throws; `empty` when the agent's answer
        has nothing to post, `handle` what the provider would return. */
    method DeliverEnded(t: nat, inBatch: bool, empty: bool, handle: string, s: Schedule)
      requires Valid() && Here() == DeliverScan(t)
      modifies this
      ensures Valid() && old(log) <= log && Here() == Done
    {
      var found, silent := ScanEnded(t, inBatch, empty, s);
      if found.None? { return; }
      DeliverOrRetry(found.value.attempts, silent, handle, s);
    }

    method DeliverOrRetry(n: nat, silent: Option<string>, handle: string, s: Schedule)
      requires Valid() && Here() == if silent.Some? then DeliverSilent(n, silent.value) else ReserveSend(n)
      modifies this
      ensures Valid() && old(log) <= log && Here() == Done
    {
      var thrown, reserved;
      ghost var found;
      thrown, reserved, found := DeliverOne(n, silent, handle, s);
      if thrown {
        var finished := Retry(n, None, s);
      }
    }

    /** Record that there is nothing to post, or reserve the delivery and post. */
    method DeliverOne(n: nat, silent: Option<string>, handle: string, s: Schedule)
      returns (thrown: bool, reserved: bool, ghost found: Row)
      requires Valid() && Here() == if silent.Some? then DeliverSilent(n, silent.value) else ReserveSend(n)
      modifies this
      ensures Valid() && old(log) <= log && Lasts(old(w).s, w.s)
      ensures if thrown then Here() == RetryRead(n, None) && !NeverThrows(s) else Here() == Done
      ensures !thrown && silent.Some? ==> w.s.row.status == Delivered && w.s.row.handle == silent
      ensures !thrown && silent.None? && reserved ==> w.s.row.status == Delivered
      ensures !thrown && silent.None? && reserved ==>
        if found.handle.Some? && found.handle.value != "" then w.s.row.handle == found.handle
        else w.s.row.handle == Some(handle) && w.s.sends == 1
    {
      reserved, found := false, w.s.row;
      if silent.Some? {
        var ok := MarkDelivered(n, silent.value, s);
        thrown := !ok;
      } else {
        thrown, reserved := ReserveDelivery(n, s);
        if !thrown && reserved { thrown, found := SendOnce(n, handle, s); }
      }
    }

    // ---- retry ----

    /** Re-read, then finish an acknowledged post, or put the row back if it is still what was read. */
    method Retry(n: nat, next: Option<nat>, s: Schedule) returns (finished: bool)
      requires Valid() && Here() == RetryRead(n, next)
      modifies this
      ensures Valid() && old(log) <= log && Lasts(old(w).s, w.s) && Here() == Resume(next)
      ensures finished ==> w.s.row.status == Delivered
    {
      var current := ReadCurrent(n, next, s);
      if current.status == Delivered { return true; }
      if Truthy(current.handle) {
        FinishAcknowledged(current.handle.value, next, s);
        return true;
      }
      PutBack(n + 1, current.status, next, s);
      return false;
    }

    method ReadCurrent(n: nat, next: Option<nat>, s: Schedule) returns (current: Row)
      requires Valid() && Here() == RetryRead(n, next)
      modifies this
      ensures Valid() && old(log) <= log && Lasts(old(w).s, w.s) && current == w.s.row
      ensures Here() == if current.status == Delivered then Resume(next)
        else if Truthy(current.handle) then RetryFinalize(current.handle.value, next)
        else RetryWrite(n + 1, current.status, next)
    {
      Await(s);
      current := w.s.row;
      Take(Go, w.s, if current.status == Delivered then Resume(next)
                    else if Truthy(current.handle) then RetryFinalize(current.handle.value, next)
                    else RetryWrite(n + 1, current.status, next));
    }

    method FinishAcknowledged(handle: string, next: Option<nat>, s: Schedule)
      requires Valid() && Here() == RetryFinalize(handle, next)
      modifies this
      ensures Valid() && old(log) <= log && Lasts(old(w).s, w.s) && Here() == Resume(next)
      ensures w.s.row.status == Delivered && w.s.row.handle == Some(handle)
    {
      Await(s);
      Take(Go, w.s.(row := w.s.row.(status := Delivered, handle := Some(handle), lease := None)), Resume(next));
    }

    /** The guarded write: a queueing failure goes back to received, everything else stays put, later. */
    method PutBack(attempts: nat, seen: Status, next: Option<nat>, s: Schedule)
      requires Valid() && Here() == RetryWrite(attempts, seen, next)
      modifies this
      ensures Valid() && old(log) <= log && Lasts(old(w).s, w.s) && Here() == Resume(next)
      ensures seen == Queueing ==> w.s.row.status != Queueing
    {
      Await(s);
      WriteBack(attempts, seen, next);
    }

    method WriteBack(attempts: nat, seen: Status, next: Option<nat>)
      requires Valid() && Here() == RetryWrite(attempts, seen, next)
      modifies this`w, this`log
      ensures Valid() && old(log) <= log && Lasts(old(w).s, w.s) && Here() == Resume(next)
      ensures seen == Queueing ==> w.s.row.status != Queueing
      ensures old(w.s.row.status) != seen || old(w.s.row.handle).Some? ==> w.s == old(w.s)
      ensures old(w.s.row.status) == seen && old(w.s.row.handle).None? ==>
        && w.s.row.status == (if seen == Queueing then Received else seen) && w.s.row.attempts == attempts
        && w.s.row.lease == Some(w.s.now + RetryDelay(attempts))
    {
      var row := w.s.row;
      if row.handle.None? && row.status == seen {
        row := row.(status := if seen == Queueing then Received else seen,
                    reason := if seen == Queueing then NoReason else row.reason,
                    attempts := attempts, lease := Some(w.s.now + RetryDelay(attempts)));
      }
      Take(Go, w.s.(row := row), Resume(next));
    }
  }

  /** Somebody else's step leaves this process where it stands. */
  lemma Unmoved(w: State, a: Action, p: Pid)
    requires Safe(w) && Enabled(w, a) && p in w.procs
    requires !(a.Handler? && a.pid == p) && !(a.Pass? && a.pid == p) && !(a.Crash? && a.inst == w.procs[p].inst)
    ensures p in Step(w, a).procs && Step(w, a).procs[p] == w.procs[p]
  {
  }
}
