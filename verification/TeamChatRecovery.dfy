/** recoverExpiredDeferredMessages over the whole table: a batch of the 20 oldest expired
    deferred rows, each ignored, stripped of orphaned ownership, kept, or promoted. */
module TeamChatRecovery {
  import opened Wrappers
  import opened TeamChatRow

  const BATCH_SIZE: nat := 20

  predicate Expired(r: Row, now: nat) {
    r.status == Deferred && ExpiredBy(r.lease, now)
  }

  /** The first `limit` indices from `from` on that satisfy the query, oldest first. */
  function Oldest(rows: seq<Row>, wanted: Row -> bool, from: nat, limit: nat): (ids: seq<nat>)
    requires from <= |rows|
    ensures |ids| <= limit
    ensures forall k :: 0 <= k < |ids| ==> from <= ids[k] < |rows| && wanted(rows[ids[k]])
    ensures forall j, k :: 0 <= j < k < |ids| ==> ids[j] < ids[k]
    decreases |rows| - from
  {
    if from == |rows| || limit == 0 then []
    else if wanted(rows[from]) then [from] + Oldest(rows, wanted, from + 1, limit - 1)
    else Oldest(rows, wanted, from + 1, limit)
  }

  /** How many rows up to and including `i` satisfy the query. */
  function Rank(rows: seq<Row>, wanted: Row -> bool, from: nat, i: nat): nat
    requires from <= |rows| && i < |rows|
    decreases |rows| - from
  {
    if from > i then 0 else (if wanted(rows[from]) then 1 else 0) + Rank(rows, wanted, from + 1, i)
  }

  /** A row is in the batch exactly when it satisfies the query and is among the `limit` oldest that do. */
  lemma {:induction false} InBatch(rows: seq<Row>, wanted: Row -> bool, from: nat, limit: nat, i: nat)
    requires from <= i < |rows|
    ensures i in Oldest(rows, wanted, from, limit) <==>
              wanted(rows[i]) && Rank(rows, wanted, from, i) <= limit
    decreases |rows| - from
  {
    if limit == 0 {
      if wanted(rows[i]) { RankPositive(rows, wanted, from, i); }
    } else if from < i {
      var rest := if wanted(rows[from]) then limit - 1 else limit;
      InBatch(rows, wanted, from + 1, rest, i);
      var tail := Oldest(rows, wanted, from + 1, rest);
      if wanted(rows[from]) { assert Oldest(rows, wanted, from, limit) == [from] + tail; }
    } else {
      assert Rank(rows, wanted, from + 1, i) == 0;
    }
  }

  lemma {:induction false} RankPositive(rows: seq<Row>, wanted: Row -> bool, from: nat, i: nat)
    requires from <= i < |rows| && wanted(rows[i])
    ensures Rank(rows, wanted, from, i) >= 1
    decreases |rows| - from
  {
    if from < i { RankPositive(rows, wanted, from + 1, i); }
  }

  /** Fewer rows qualify, so a row that stays does not fall out of the batch. */
  lemma {:induction false} RankMonotone(rows: seq<Row>, p: Row -> bool, rows': seq<Row>, q: Row -> bool, from: nat, i: nat)
    requires from <= |rows| == |rows'| && i < |rows|
    requires forall j :: from <= j <= i && q(rows'[j]) ==> p(rows[j])
    ensures Rank(rows', q, from, i) <= Rank(rows, p, from, i)
    decreases |rows| - from
  {
    if from <= i { RankMonotone(rows, p, rows', q, from + 1, i); }
  }

  /** What the loop does to one expired row. */
  function RecoverOne(r: Row, now: nat, woken: bool, shielded: bool): Row {
    if woken then IgnoreWoken(r, now)
    else if Routed(r.reason) then (if shielded then r else Clear(r, now))
    else Promote(r, now)
  }

  function Batch(rows: seq<Row>, now: nat): seq<nat> {
    Oldest(rows, (r: Row) => Expired(r, now), 0, BATCH_SIZE)
  }

  /** One pass over the table; `woken` and `inFlight` name rows by their age. */
  function RecoverPass(rows: seq<Row>, now: nat, woken: set<nat>, inFlight: set<nat>): seq<Row> {
    seq(|rows|, i requires 0 <= i < |rows| =>
      if i in Batch(rows, now) then RecoverOne(rows[i], now, i in woken, i in inFlight) else rows[i])
  }

  function DeferredRank(rows: seq<Row>, i: nat): nat
    requires i < |rows|
  {
    Rank(rows, (r: Row) => r.status == Deferred, 0, i)
  }

  /** A pass never defers a row, so nothing overtakes the rows that stay. */
  lemma RankShrinks(rows: seq<Row>, now: nat, woken: set<nat>, inFlight: set<nat>, i: nat)
    requires i < |rows|
    ensures DeferredRank(RecoverPass(rows, now, woken, inFlight), i) <= DeferredRank(rows, i)
  {
    var deferred := (r: Row) => r.status == Deferred;
    RankMonotone(rows, deferred, RecoverPass(rows, now, woken, inFlight), deferred, 0, i);
  }

  predicate AmongOldest(rows: seq<Row>, now: nat, i: nat)
    requires i < |rows|
  {
    Rank(rows, (r: Row) => Expired(r, now), 0, i) <= BATCH_SIZE
  }

  /** A row among the 20 oldest deferred ones stays among the oldest expired for the next pass, whenever
      that is, unless an older row is deferred in between. */
  lemma KeepsItsPlace(rows: seq<Row>, now: nat, woken: set<nat>, inFlight: set<nat>, later: seq<Row>, now2: nat, i: nat)
    requires i < |rows| == |later| && DeferredRank(rows, i) <= 20
    requires forall j :: 0 <= j < |rows| && later[j].status == Deferred ==>
      RecoverPass(rows, now, woken, inFlight)[j].status == Deferred
    ensures AmongOldest(later, now2, i)
  {
    var deferred := (r: Row) => r.status == Deferred;
    RankShrinks(rows, now, woken, inFlight, i);
    RankMonotone(RecoverPass(rows, now, woken, inFlight), deferred, later, (r: Row) => Expired(r, now2), 0, i);
  }

  /** What one pass does to row `i`, if the row is expired and among the 20 oldest that are. */
  lemma PassTakes(rows: seq<Row>, now: nat, woken: set<nat>, inFlight: set<nat>, i: nat)
    requires i < |rows| && (Expired(rows[i], now) ==> AmongOldest(rows, now, i))
    ensures RecoverPass(rows, now, woken, inFlight)[i] ==
      if Expired(rows[i], now) then RecoverOne(rows[i], now, i in woken, i in inFlight) else rows[i]
  {
    InBatch(rows, (r: Row) => Expired(r, now), 0, BATCH_SIZE, i);
  }

  /** Where two passes leave an expired row, from its owner and from who was awake at either pass. */
  function SettledBy(r: Row, woken1: bool, shielded1: bool, woken2: bool): Option<Row> {
    if woken1 then Some(WakeOwned(r))
    else if Unowned(r.reason) then Some(r.(status := Released(r.kind), reason := NoReason, lease := None))
    else if woken2 then Some(WakeOwned(r))
    else if Routed(r.reason) && !shielded1 then Some(r.(status := Released(r.kind), reason := NoReason, lease := None))
    else None
  }

  /** Progress: whatever happens to the other rows, to the wakes and to the clock between two passes, a
      row that nothing else touches and that each pass finds expired among the 20 oldest leaves
      `deferred` by the second exactly when its wake happened, or nobody owned it, or its routing
      claim had no wake in this process; and it leaves to where its nonce said. */
  lemma TwoPassesSettle(
    rows1: seq<Row>, rows2: seq<Row>, i: nat, now1: nat, now2: nat,
    woken1: set<nat>, inFlight1: set<nat>, woken2: set<nat>, inFlight2: set<nat>)
    requires i < |rows1| && i < |rows2| && now1 <= now2
    requires Expired(rows1[i], now1) && AmongOldest(rows1, now1, i)
    requires rows2[i] == RecoverPass(rows1, now1, woken1, inFlight1)[i]
    requires Expired(rows2[i], now2) ==> AmongOldest(rows2, now2, i)
    ensures var last := RecoverPass(rows2, now2, woken2, inFlight2)[i];
      var settled := SettledBy(rows1[i], i in woken1, i in inFlight1, i in woken2);
      && (last.status != Deferred <==> settled.Some?)
      && (settled.Some? ==> last == settled.value)
  {
    PassTakes(rows1, now1, woken1, inFlight1, i);
    PassTakes(rows2, now2, woken2, inFlight2, i);
  }

  /** With the ownership invariant and no wake of this process on the row at the first pass, two
      passes always settle it: to ignored if its nonce was there when it left, else released with
      ownership cleared. */
  lemma OrphanSettles(
    rows1: seq<Row>, rows2: seq<Row>, i: nat, now1: nat, now2: nat,
    woken1: set<nat>, inFlight1: set<nat>, woken2: set<nat>, inFlight2: set<nat>)
    requires i < |rows1| && i < |rows2| && now1 <= now2 && RowInv(rows1[i]) && i !in inFlight1
    requires Expired(rows1[i], now1) && AmongOldest(rows1, now1, i)
    requires rows2[i] == RecoverPass(rows1, now1, woken1, inFlight1)[i]
    requires Expired(rows2[i], now2) ==> AmongOldest(rows2, now2, i)
    ensures var last := RecoverPass(rows2, now2, woken2, inFlight2)[i];
      var woken := i in woken1 || (i in woken2 && Routed(rows1[i].reason));
      && last.status == (if woken then Ignored else Released(rows1[i].kind))
      && last.reason == (if woken then RoutineWake else NoReason)
      && last.lease.None?
  {
    TwoPassesSettle(rows1, rows2, i, now1, now2, woken1, inFlight1, woken2, inFlight2);
  }
}
