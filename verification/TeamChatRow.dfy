/** One external chat event as the database stores it, and every guarded update
    (`updateMany` with a `where` clause) the TeamChat code performs on it.  An update
    whose guard fails leaves the row as it was; the guard is the update's `count === 1`. */
module TeamChatRow {

  import opened Wrappers

  datatype Kind = Direct | Ambient

  datatype Status =
    | Deferred | Observed | Received | Queueing
    | Running | Delivering | Delivered | Ignored

  /** `engagementReason`.  `Text` is what the ambient judge writes; it is never one of the tags. */
  datatype Reason =
    | NoReason
    | Routing      // message_routine_routing
    | Rearmed      // message_routine_routing_rearmed
    | AgentOwned   // message_teamchat_agent
    | RoutineWake  // message_routine_wake
    | Text(text: string)

  datatype Row = Row(
    kind: Kind,
    status: Status,
    reason: Reason,
    lease: Option<nat>,      // nextAttemptAt
    runId: Option<nat>,
    handle: Option<string>,  // providerReplyHandle
    attempts: nat)

  const DEFERRED_RESERVATION_MS: nat := 120_000
  const ROUTING_RESERVATION_MS: nat := 1_800_000
  const QUEUE_RESERVATION_MS: nat := 120_000
  const DELIVERY_RESERVATION_MS: nat := 120_000
  const UNCONFIRMED := "unconfirmed"

  predicate Routed(r: Reason) {
    r == Routing || r == Rearmed
  }

  /** Free of every ownership claim: null or judge text. */
  predicate Unowned(r: Reason) {
    !Routed(r) && r != AgentOwned
  }

  predicate ExpiredBy(lease: Option<nat>, t: nat) {
    lease.Some? && lease.value <= t
  }

  predicate DueBy(lease: Option<nat>, t: nat) {
    lease.None? || lease.value <= t
  }

  /** JavaScript truthiness of a stored reply handle: null and "" are both falsy. */
  predicate Truthy(h: Option<string>) {
    h.Some? && h.value != ""
  }

  function Released(kind: Kind): Status {
    if kind == Ambient then Observed else Received
  }

  /** The rows `externalMessage.upsert` creates. */
  function Created(kind: Kind, deferred: bool, now: nat): Row {
    Row(kind, if deferred then Deferred else Released(kind), NoReason,
        if deferred then Some(now + DEFERRED_RESERVATION_MS) else None, None, None, 0)
  }

  // receive: re-defer an existing row
  predicate CanDefer(r: Row, now: nat) {
    r.status == Received || r.status == Observed || (r.status == Deferred && ExpiredBy(r.lease, now))
  }
  function Defer(r: Row, now: nat): Row {
    if CanDefer(r, now) then r.(status := Deferred, lease := Some(now + DEFERRED_RESERVATION_MS)) else r
  }

  // extendDeferredReservation
  predicate CanExtend(r: Row) {
    r.status == Deferred
  }
  function Extend(r: Row, now: nat): Row {
    if CanExtend(r) then r.(reason := Routing, lease := Some(now + ROUTING_RESERVATION_MS)) else r
  }

  // wakeMessageRoutines: reassert routine ownership before delivering
  predicate CanReserveWake(r: Row) {
    && (r.status == Deferred || r.status == Received || r.status == Observed)
    && (r.reason == NoReason || Routed(r.reason))
  }
  function ReserveWake(r: Row, now: nat): Row {
    if CanReserveWake(r) then r.(reason := Routing, lease := Some(now + ROUTING_RESERVATION_MS)) else r
  }

  function WakeOwned(r: Row): Row {
    r.(status := Ignored, reason := RoutineWake, lease := None)
  }

  // resolveDeferredMessage
  predicate CanResolve(r: Row, routine: bool) {
    r.status == Deferred || (routine && (r.status == Received || r.status == Observed))
  }
  function Resolve(r: Row, routine: bool): Row {
    if !CanResolve(r, routine) then r
    else if routine then WakeOwned(r)
    else r.(status := Released(r.kind), reason := NoReason, lease := None)
  }

  // recoverInterruptedRoutineRoutes, and the ownership-clearing update of recoverExpiredDeferredMessages;
  // `t` is the time the caller read, `t` or later is written back by neither
  predicate CanClear(r: Row, t: nat) {
    r.status == Deferred && Routed(r.reason) && ExpiredBy(r.lease, t)
  }
  function Clear(r: Row, t: nat): Row {
    if CanClear(r, t) then r.(reason := NoReason, lease := Some(t)) else r
  }

  // recoverExpiredDeferredMessages: the wake nonce exists
  predicate CanIgnoreWoken(r: Row, t: nat) {
    r.status == Deferred && ExpiredBy(r.lease, t)
  }
  function IgnoreWoken(r: Row, t: nat): Row {
    if CanIgnoreWoken(r, t) then WakeOwned(r) else r
  }

  // recoverExpiredDeferredMessages: promote a row nobody owns
  predicate CanPromote(r: Row, t: nat) {
    r.status == Deferred && ExpiredBy(r.lease, t) && Unowned(r.reason)
  }
  function Promote(r: Row, t: nat): Row {
    if CanPromote(r, t) then r.(status := Released(r.kind), reason := NoReason, lease := None) else r
  }

  // reconcile: expired queueing reservations
  predicate CanReset(r: Row, t: nat) {
    r.status == Queueing && ExpiredBy(r.lease, t)
  }
  function Reset(r: Row, t: nat): Row {
    if CanReset(r, t) then r.(status := Received, reason := NoReason, lease := None) else r
  }

  // markAmbientIgnored / promoteAmbientTrigger
  predicate CanJudge(r: Row) {
    r.status == Observed
  }
  function AmbientIgnore(r: Row): Row {
    if CanJudge(r) then r.(status := Ignored) else r
  }
  function AmbientPromote(r: Row, reason: Reason): Row {
    if CanJudge(r) then r.(status := Received, reason := reason) else r
  }

  // queue, provider "slack": the one update with no status guard
  function SlackDrop(r: Row): Row {
    r.(status := Ignored, lease := None)
  }

  // queue: abandonForRoutine
  function AbandonReceived(r: Row): Row {
    if r.status == Received then WakeOwned(r) else r
  }
  function AbandonQueueing(r: Row): Row {
    if r.status == Queueing && r.runId.None? then WakeOwned(r) else r
  }

  // queue: claim queueing + agent ownership
  predicate CanClaim(r: Row) {
    r.status == Received && Unowned(r.reason)
  }
  function Claim(r: Row, now: nat): Row {
    if CanClaim(r) then
      r.(status := Queueing, reason := AgentOwned, lease := Some(now + QUEUE_RESERVATION_MS))
    else r
  }

  // queue: link the run
  predicate CanLink(r: Row) {
    r.status == Queueing && r.reason == AgentOwned
  }
  function Link(r: Row, run: nat): Row {
    if CanLink(r) then r.(status := Running, runId := Some(run), lease := None) else r
  }

  // reserveDelivery
  predicate CanReserveDelivery(r: Row) {
    r.status == Running && r.handle.None?
  }
  function ReserveDelivery(r: Row, now: nat): Row {
    if CanReserveDelivery(r) then
      r.(status := Delivering, lease := Some(now + DELIVERY_RESERVATION_MS))
    else r
  }
  predicate CanExpireDelivery(r: Row, t: nat) {
    r.status == Delivering && r.handle.None? && DueBy(r.lease, t)
  }
  function ExpireDelivery(r: Row, t: nat): Row {
    if CanExpireDelivery(r, t) then
      r.(status := Delivered, handle := Some(UNCONFIRMED), lease := None)
    else r
  }

  // sendOnce and markDelivered: `update where id`, no status guard
  function StoreHandle(r: Row, h: string): Row {
    r.(handle := Some(h))
  }
  function MarkDelivered(r: Row, h: string): Row {
    r.(status := Delivered, handle := Some(h), lease := None)
  }

  // retry
  function Pow2(n: nat): (r: nat)
    ensures r >= 1
  {
    if n == 0 then 1 else 2 * Pow2(n - 1)
  }
  function RetryDelay(attempts: nat): (d: nat)
    ensures 1_000 <= d <= 60_000
  {
    var d := 1_000 * Pow2(if attempts < 6 then attempts else 6);
    if d < 60_000 then d else 60_000
  }
  /** One second doubled per attempt, and never more than a minute. */
  lemma RetryDelays(attempts: nat)
    ensures RetryDelay(0) == 1_000 && RetryDelay(1) == 2_000 && RetryDelay(2) == 4_000
    ensures RetryDelay(3) == 8_000 && RetryDelay(4) == 16_000 && RetryDelay(5) == 32_000
    ensures attempts >= 6 ==> RetryDelay(attempts) == 60_000
  {
    assert Pow2(0) == 1 && Pow2(1) == 2 && Pow2(2) == 4;
    assert Pow2(3) == 8 && Pow2(4) == 16;
    assert Pow2(5) == 32 && Pow2(6) == 64;
  }

  predicate CanRetry(r: Row, seen: Status) {
    r.handle.None? && r.status == seen
  }
  function Retry(r: Row, seen: Status, attempts: nat, now: nat): Row {
    if !CanRetry(r, seen) then r
    else r.(status := if seen == Queueing then Received else seen,
            reason := if seen == Queueing then NoReason else r.reason,
            attempts := attempts,
            lease := Some(now + RetryDelay(attempts)))
  }

  // ---- what every update keeps ----

  predicate Linked(st: Status) {
    st == Running || st == Delivering || st == Delivered
  }

  predicate Posting(st: Status) {
    st == Delivering || st == Delivered
  }

  /** Ownership tag, run link and reply handle all agree with the status. */
  predicate RowInv(r: Row) {
    && (r.reason == AgentOwned <==> r.status == Queueing || Linked(r.status))
    && (r.runId.Some? <==> Linked(r.status))
    && (r.handle.Some? ==> Posting(r.status))
  }

  /** The order of statuses: pre-run statuses may move freely, then running, delivering,
      delivered without going back; delivered and ignored are final; a run is written once. */
  predicate Forward(r: Row, r': Row) {
    && (r.status == Running ==> Linked(r'.status))
    && (r.status == Delivering ==> Posting(r'.status))
    && (r.status == Delivered ==> r'.status == Delivered)
    && (r.status == Ignored ==> r'.status == Ignored)
    && (r.runId.Some? ==> r'.runId == r.runId)
    && (r'.status == Running && r.status != Running ==> r.status == Queueing)
    && (Posting(r'.status) ==> Linked(r.status))
    && r'.kind == r.kind
  }
}
