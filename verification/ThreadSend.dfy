/** Sending into a thread: the rows one send reads and writes, what a committed send leaves
    behind, and the receipt a replay of the same client nonce rebuilds. */
module ThreadSend {
  import opened Wrappers

  datatype Status =
    | Queued | Leased | Running | WaitingInput | WaitingTakeover
    | Completed | Failed | Cancelled

  datatype Trigger = User | Reaction | BotMessage | FollowUp | OtherTrigger

  /** `answerable`: the run's pending ask is a question that composer text may answer.
      `fromUser`: the run's source message was written by the user. */
  datatype Run = Run(
    task: nat, bot: nat, status: Status, trigger: Trigger,
    source: Option<nat>, fromUser: bool, answerable: bool)

  datatype Message = Message(seqNo: nat, nonce: Option<string>, run: Option<nat>)

  /** One thread's rows. `receipts` maps a message to the `runIds` of its created event, `[]` when
      the payload has none; `steering` maps (message, bot) to the run it steers, if any. */
  datatype Rows = Rows(
    runs: map<nat, Run>, messages: map<nat, Message>,
    receipts: map<nat, seq<nat>>, steering: map<(nat, nat), Option<nat>>)

  /** Ids the database would generate for one run and its task. */
  datatype New = New(run: nat, task: nat)

  /** One call of sendThreadMessage. `found` is the order in which the active-run query answers;
      a direct thread has one target, a group the resolved mentions. */
  datatype Send = Send(
    message: nat, seqNo: nat, nonce: Option<string>, hasText: bool,
    targets: seq<nat>, found: seq<nat>, news: seq<New>, group: bool)

  datatype Receipt = Receipt(seqNo: nat, runId: nat, taskId: nat, runIds: seq<nat>)

  datatype Error = NonceTaken | AnswerPendingAsk | NoTarget

  datatype Outcome = Sent(receipt: Receipt) | Refused(error: Error)

  predicate Active(status: Status) {
    status == Queued || status == Leased || status == Running || status == WaitingInput || status == WaitingTakeover
  }

  predicate Steerable(status: Status) {
    status == Queued || status == Leased || status == Running || status == WaitingTakeover
  }

  /** A direct send does not look at runs other bots triggered. */
  predicate Counts(run: Run, group: bool) {
    Active(run.status) && (group || run.trigger != BotMessage)
  }

  predicate Taken(messages: map<nat, Message>, nonce: Option<string>) {
    nonce.Some? && exists m :: m in messages && messages[m].nonce == nonce
  }

  predicate Distinct(s: seq<nat>) {
    forall i, j :: 0 <= i < j < |s| ==> s[i] != s[j]
  }

  /** Nonces are unique, and every source and every steering message is stored. */
  ghost predicate Sound(rows: Rows) {
    && (forall m, n | m in rows.messages && n in rows.messages && rows.messages[m].nonce.Some?
          :: rows.messages[m].nonce == rows.messages[n].nonce ==> m == n)
    && (forall r :: r in rows.runs && rows.runs[r].source.Some? ==> rows.runs[r].source.value in rows.messages)
    && (forall key :: key in rows.steering ==> key.0 in rows.messages)
  }

  /** The generated ids are new, and `found` lists exactly the runs the query asks for. */
  ghost predicate Fits(rows: Rows, q: Send) {
    && q.message !in rows.messages
    && Distinct(q.targets) && |q.news| == |q.targets| && (!q.group ==> |q.targets| == 1)
    && (forall k :: 0 <= k < |q.news| ==> q.news[k].run !in rows.runs)
    && (forall k, l :: 0 <= k < l < |q.news| ==> q.news[k].run != q.news[l].run)
    && Distinct(q.found)
    && (forall r :: r in q.found <==> r in rows.runs && rows.runs[r].bot in q.targets && Counts(rows.runs[r], q.group))
  }

  // ---- what a send does, target by target ----

  /** The found runs of one bot that wait for input, or those that do not, in query order. */
  function Pick(runs: map<nat, Run>, found: seq<nat>, bot: nat, waiting: bool): seq<nat>
    requires forall r :: r in found ==> r in runs
  {
    if found == [] then []
    else
      var last := found[|found| - 1];
      Pick(runs, found[..|found| - 1], bot, waiting)
      + (if runs[last].bot == bot && (runs[last].status == WaitingInput <==> waiting) then [last] else [])
  }

  lemma {:induction false} PickMembers(runs: map<nat, Run>, found: seq<nat>, bot: nat, waiting: bool)
    requires forall r :: r in found ==> r in runs
    ensures forall r :: r in Pick(runs, found, bot, waiting) <==>
      r in found && runs[r].bot == bot && (runs[r].status == WaitingInput <==> waiting)
  {
    if found != [] {
      var n := |found| - 1;
      PickMembers(runs, found[..n], bot, waiting);
      assert found == found[..n] + [found[n]];
    }
  }

  lemma {:induction false} PickDistinct(runs: map<nat, Run>, found: seq<nat>, bot: nat, waiting: bool)
    requires Distinct(found) && forall r :: r in found ==> r in runs
    ensures Distinct(Pick(runs, found, bot, waiting))
  {
    if found != [] {
      var n := |found| - 1;
      PickDistinct(runs, found[..n], bot, waiting);
      PickMembers(runs, found[..n], bot, waiting);
      assert found[n] !in found[..n];
    }
  }

  datatype Way = Answer(runs: seq<nat>) | Steer(run: nat) | Create(made: New)

  /** What the queries and the id generator promise, as far as the definitions below need it. */
  predicate Shaped(rows: Rows, q: Send) {
    |q.news| == |q.targets| && forall r :: r in q.found ==> r in rows.runs
  }

  /** A target is answered if it waits for input, else steered if it is active, else started. */
  function WayFor(rows: Rows, q: Send, k: nat): Way
    requires Shaped(rows, q) && k < |q.targets|
  {
    var waiting := Pick(rows.runs, q.found, q.targets[k], true);
    var active := Pick(rows.runs, q.found, q.targets[k], false);
    if waiting != [] then Answer(waiting) else if active != [] then Steer(active[0]) else Create(q.news[k])
  }

  function Listed(way: Way): seq<nat> {
    match way
    case Answer(runs) => runs
    case Steer(run) => [run]
    case Create(made) => [made.run]
  }

  /** The receipt's runs for the first `n` targets, in target order. */
  function Listing(rows: Rows, q: Send, n: nat): (ids: seq<nat>)
    requires Shaped(rows, q) && n <= |q.targets|
    ensures n > 0 ==> ids != []
  {
    if n == 0 then [] else Listing(rows, q, n - 1) + Listed(WayFor(rows, q, n - 1))
  }

  function NewRun(bot: nat, made: New, message: nat): Run {
    Run(made.task, bot, Queued, User, Some(message), true, false)
  }

  /** Answered runs are queued again. */
  function Answered(runs: map<nat, Run>, done: seq<nat>): map<nat, Run> {
    map r | r in runs :: if r in done && runs[r].status == WaitingInput then runs[r].(status := Queued) else runs[r]
  }

  /** The runs created for the first `n` targets. */
  function Created(rows: Rows, q: Send, n: nat): map<nat, Run>
    requires Shaped(rows, q) && n <= |q.targets|
  {
    if n == 0 then map[]
    else
      var before := Created(rows, q, n - 1);
      if WayFor(rows, q, n - 1).Create?
      then before[q.news[n - 1].run := NewRun(q.targets[n - 1], q.news[n - 1], q.message)] else before
  }

  /** The steering rows written for the first `n` targets. */
  function Steered(rows: Rows, q: Send, n: nat): map<(nat, nat), Option<nat>>
    requires Shaped(rows, q) && n <= |q.targets|
  {
    if n == 0 then map[]
    else
      var before := Steered(rows, q, n - 1);
      var way := WayFor(rows, q, n - 1);
      if way.Steer? then before[(q.message, q.targets[n - 1]) := Some(way.run)] else before
  }

  function SendResult(seqNo: nat, ids: seq<nat>, runs: map<nat, Run>): Receipt
    requires ids != [] && ids[0] in runs
  {
    Receipt(seqNo, ids[0], runs[ids[0]].task, ids)
  }

  /** A waiting run the send cannot answer: no text, or an ask that takes no text. */
  predicate Blocked(rows: Rows, q: Send)
    requires Shaped(rows, q)
  {
    exists r :: r in q.found && rows.runs[r].status == WaitingInput && !(q.hasText && rows.runs[r].answerable)
  }

  /** The direct send that steers: its event carries no run ids. */
  predicate SteersAlone(rows: Rows, q: Send)
    requires Shaped(rows, q) && q.targets != []
  {
    !q.group && WayFor(rows, q, 0).Steer?
  }

  /** The rows a committed send leaves. */
  function AfterSend(rows: Rows, q: Send): Rows
    requires Shaped(rows, q) && q.targets != []
  {
    var ids := Listing(rows, q, |q.targets|);
    Rows(
      Answered(rows.runs, q.found) + Created(rows, q, |q.targets|),
      rows.messages[q.message := Message(q.seqNo, q.nonce, Some(ids[0]))],
      rows.receipts[q.message := if SteersAlone(rows, q) then [] else ids],
      rows.steering + Steered(rows, q, |q.targets|))
  }

  // ---- reading the definitions back ----

  lemma {:induction false} CreatedAt(rows: Rows, q: Send, n: nat, k: nat)
    requires Fits(rows, q) && k < n <= |q.targets|
    ensures if WayFor(rows, q, k).Create?
      then q.news[k].run in Created(rows, q, n) && Created(rows, q, n)[q.news[k].run] == NewRun(q.targets[k], q.news[k], q.message)
      else q.news[k].run !in Created(rows, q, n)
  {
    if k < n - 1 {
      CreatedAt(rows, q, n - 1, k);
    } else {
      CreatedBy(rows, q, n - 1);
    }
  }

  lemma {:induction false} CreatedBy(rows: Rows, q: Send, n: nat)
    requires Fits(rows, q) && n <= |q.targets|
    ensures forall r :: r in Created(rows, q, n) ==> r in (set k | 0 <= k < n && WayFor(rows, q, k).Create? :: q.news[k].run)
  {
    if n > 0 { CreatedBy(rows, q, n - 1); }
  }

  lemma {:induction false} SteeredAt(rows: Rows, q: Send, n: nat, k: nat)
    requires Fits(rows, q) && k < n <= |q.targets|
    ensures var key := (q.message, q.targets[k]);
      if WayFor(rows, q, k).Steer? then key in Steered(rows, q, n) && Steered(rows, q, n)[key] == Some(WayFor(rows, q, k).run)
      else key !in Steered(rows, q, n)
  {
    if k < n - 1 {
      SteeredAt(rows, q, n - 1, k);
    } else {
      SteeredBy(rows, q, n - 1);
    }
  }

  lemma {:induction false} SteeredBy(rows: Rows, q: Send, n: nat)
    requires Shaped(rows, q) && n <= |q.targets|
    ensures forall key :: key in Steered(rows, q, n) ==> key.0 == q.message && key.1 in q.targets[..n]
  {
    if n > 0 { SteeredBy(rows, q, n - 1); }
  }

  // ---- who gets what ----

  /** The runs a send treats as active for one bot. */
  function Live(runs: map<nat, Run>, bot: nat, group: bool): set<nat> {
    set r | r in runs && runs[r].bot == bot && Counts(runs[r], group)
  }

  function WaitingRuns(runs: map<nat, Run>, bot: nat, group: bool): set<nat> {
    set r | r in runs && runs[r].bot == bot && Counts(runs[r], group) && runs[r].status == WaitingInput
  }

  lemma WayMeans(rows: Rows, q: Send, k: nat)
    requires Fits(rows, q) && k < |q.targets|
    ensures var live, waiting := Live(rows.runs, q.targets[k], q.group), WaitingRuns(rows.runs, q.targets[k], q.group);
      match WayFor(rows, q, k)
      case Answer(runs) => waiting != {} && forall r :: r in runs <==> r in waiting
      case Steer(run) => waiting == {} && run in live
      case Create(made) => live == {} && made == q.news[k]
  {
    PickMeans(rows, q, k, true);
    PickMeans(rows, q, k, false);
    var live, waiting := Live(rows.runs, q.targets[k], q.group), WaitingRuns(rows.runs, q.targets[k], q.group);
    assert forall r :: r in waiting <==> r in live && rows.runs[r].status == WaitingInput;
    if WayFor(rows, q, k).Answer? { assert WayFor(rows, q, k).runs[0] in waiting; }
  }

  lemma PickMeans(rows: Rows, q: Send, k: nat, waiting: bool)
    requires Fits(rows, q) && k < |q.targets|
    ensures var picked := Pick(rows.runs, q.found, q.targets[k], waiting);
      && (picked != [] ==> picked[0] in picked)
      && forall r :: r in picked <==>
           r in Live(rows.runs, q.targets[k], q.group) && (rows.runs[r].status == WaitingInput <==> waiting)
  {
    PickMembers(rows.runs, q.found, q.targets[k], waiting);
  }

  /** The runs a committed send leaves, one by one. */
  ghost predicate RunsLeft(rows: Rows, q: Send, after: map<nat, Run>)
    requires Shaped(rows, q)
  {
    && (forall r :: r in rows.runs ==> r in after && after[r] == Requeued(rows, q, r))
    && (forall k :: 0 <= k < |q.targets| ==> CreatedRight(rows, q, after, k))
    && (forall r :: r in after ==> r in rows.runs || r in NewIds(q))
  }

  function NewIds(q: Send): set<nat> {
    set k | 0 <= k < |q.news| :: q.news[k].run
  }

  /** A run that was there keeps everything; a found one that waited is queued. */
  function Requeued(rows: Rows, q: Send, r: nat): Run
    requires r in rows.runs
  {
    if r in q.found && rows.runs[r].status == WaitingInput then rows.runs[r].(status := Queued) else rows.runs[r]
  }

  lemma RunsAfterSend(rows: Rows, q: Send)
    requires Fits(rows, q) && q.targets != []
    ensures RunsLeft(rows, q, AfterSend(rows, q).runs)
  {
    var created := Created(rows, q, |q.targets|);
    CreatedBy(rows, q, |q.targets|);
    forall k | 0 <= k < |q.targets|
      ensures CreatedRight(rows, q, created, k)
    {
      CreatedAt(rows, q, |q.targets|, k);
    }
    MergedRuns(rows, q, created);
  }

  ghost predicate CreatedRight(rows: Rows, q: Send, created: map<nat, Run>, k: nat)
    requires Shaped(rows, q) && k < |q.targets|
  {
    if WayFor(rows, q, k).Create?
    then q.news[k].run in created && created[q.news[k].run] == NewRun(q.targets[k], q.news[k], q.message)
    else q.news[k].run !in created
  }

  lemma MergedRuns(rows: Rows, q: Send, created: map<nat, Run>)
    requires Fits(rows, q)
    requires forall k :: 0 <= k < |q.targets| ==> CreatedRight(rows, q, created, k)
    requires forall r :: r in created ==> r in NewIds(q)
    ensures RunsLeft(rows, q, Answered(rows.runs, q.found) + created)
  {
    var after := Answered(rows.runs, q.found) + created;
    assert forall r :: r in created ==> r !in rows.runs;
    forall k | 0 <= k < |q.targets| ensures CreatedRight(rows, q, after, k) {
      assert CreatedRight(rows, q, created, k);
    }
  }

  /** A listed run belongs to the target it is listed for. */
  ghost predicate Owned(rows: Rows, q: Send, after: map<nat, Run>, k: nat)
    requires Shaped(rows, q) && k < |q.targets|
  {
    forall r :: r in Listed(WayFor(rows, q, k)) ==> r in after && after[r].bot == q.targets[k]
  }

  lemma ListedOwned(rows: Rows, q: Send, after: map<nat, Run>, k: nat)
    requires Fits(rows, q) && k < |q.targets| && RunsLeft(rows, q, after)
    ensures Owned(rows, q, after, k)
  {
    WayMeans(rows, q, k);
    assert CreatedRight(rows, q, after, k);
  }

  ghost predicate AllOwned(rows: Rows, q: Send, after: map<nat, Run>)
    requires Shaped(rows, q)
  {
    Distinct(q.targets) && forall k :: 0 <= k < |q.targets| ==> Owned(rows, q, after, k)
  }

  lemma AfterOwned(rows: Rows, q: Send)
    requires Fits(rows, q) && q.targets != []
    ensures AllOwned(rows, q, AfterSend(rows, q).runs)
  {
    RunsAfterSend(rows, q);
    forall k | 0 <= k < |q.targets| ensures Owned(rows, q, AfterSend(rows, q).runs, k) {
      ListedOwned(rows, q, AfterSend(rows, q).runs, k);
    }
  }

  lemma ListingOwned(rows: Rows, q: Send, after: map<nat, Run>, n: nat)
    requires Shaped(rows, q) && n <= |q.targets| && AllOwned(rows, q, after)
    ensures forall r :: r in Listing(rows, q, n) ==> r in after && after[r].bot in q.targets[..n]
  {
    ListingIsFlat(rows, q, n);
    WaysOwned(rows, q, after);
    FlatOwned(Ways(rows, q), after, q.targets, n);
  }

  /** The runs listed for one bot are the ones its own branch lists. */
  lemma ListingFor(rows: Rows, q: Send, after: map<nat, Run>, n: nat, k: nat)
    requires Shaped(rows, q) && k < n <= |q.targets| && AllOwned(rows, q, after)
    ensures forall r :: r in after && after[r].bot == q.targets[k] ==>
      (r in Listing(rows, q, n) <==> r in Listed(WayFor(rows, q, k)))
  {
    forall r | r in after && after[r].bot == q.targets[k]
      ensures r in Listing(rows, q, n) <==> r in Listed(WayFor(rows, q, k))
    {
      ListedFor(rows, q, after, n, k, r);
    }
  }

  lemma ListedFor(rows: Rows, q: Send, after: map<nat, Run>, n: nat, k: nat, r: nat)
    requires Shaped(rows, q) && k < n <= |q.targets| && AllOwned(rows, q, after)
    requires r in after && after[r].bot == q.targets[k]
    ensures r in Listing(rows, q, n) <==> r in Listed(WayFor(rows, q, k))
  {
    ListingIsFlat(rows, q, n);
    WaysOwned(rows, q, after);
    FlatFor(Ways(rows, q), after, q.targets, n, k, r);
  }

  // the same about any list of ways, whatever decided them

  ghost function Ways(rows: Rows, q: Send): (ways: seq<Way>)
    requires Shaped(rows, q)
    ensures |ways| == |q.targets| && forall k :: 0 <= k < |ways| ==> ways[k] == WayFor(rows, q, k)
  {
    seq(|q.targets|, k requires 0 <= k < |q.targets| => WayFor(rows, q, k))
  }

  function Flat(ways: seq<Way>, n: nat): seq<nat>
    requires n <= |ways|
  {
    if n == 0 then [] else Flat(ways, n - 1) + Listed(ways[n - 1])
  }

  ghost predicate WayOwned(ways: seq<Way>, runs: map<nat, Run>, targets: seq<nat>, k: nat)
    requires k < |ways| == |targets|
  {
    forall r :: r in Listed(ways[k]) ==> r in runs && runs[r].bot == targets[k]
  }

  ghost predicate AllWaysOwned(ways: seq<Way>, runs: map<nat, Run>, targets: seq<nat>) {
    |ways| == |targets| && Distinct(targets) && forall k :: 0 <= k < |ways| ==> WayOwned(ways, runs, targets, k)
  }

  lemma {:induction false} ListingIsFlat(rows: Rows, q: Send, n: nat)
    requires Shaped(rows, q) && n <= |q.targets|
    ensures Listing(rows, q, n) == Flat(Ways(rows, q), n)
  {
    if n > 0 { ListingIsFlat(rows, q, n - 1); }
  }

  lemma WaysOwned(rows: Rows, q: Send, after: map<nat, Run>)
    requires Shaped(rows, q) && AllOwned(rows, q, after)
    ensures AllWaysOwned(Ways(rows, q), after, q.targets)
  {
    forall k | 0 <= k < |q.targets| ensures WayOwned(Ways(rows, q), after, q.targets, k) {
      assert Owned(rows, q, after, k);
    }
  }

  lemma {:induction false} FlatFor(ways: seq<Way>, runs: map<nat, Run>, targets: seq<nat>, n: nat, k: nat, r: nat)
    requires AllWaysOwned(ways, runs, targets) && k < n <= |ways| && r in runs && runs[r].bot == targets[k]
    ensures r in Flat(ways, n) <==> r in Listed(ways[k])
  {
    assert WayOwned(ways, runs, targets, n - 1);
    if k < n - 1 { FlatFor(ways, runs, targets, n - 1, k, r); } else { FlatOwned(ways, runs, targets, k); }
  }

  lemma {:induction false} FlatOwned(ways: seq<Way>, runs: map<nat, Run>, targets: seq<nat>, n: nat)
    requires AllWaysOwned(ways, runs, targets) && n <= |ways|
    ensures forall r :: r in Flat(ways, n) ==> r in runs && runs[r].bot in targets[..n]
  {
    if n > 0 {
      FlatOwned(ways, runs, targets, n - 1);
      assert WayOwned(ways, runs, targets, n - 1);
      assert targets[..n] == targets[..n - 1] + [targets[n - 1]];
    }
  }

  /** Receipts list the runs in target order. */
  ghost predicate InTargetOrder(ids: seq<nat>, runs: map<nat, Run>, targets: seq<nat>)
    requires forall r :: r in ids ==> r in runs
  {
    forall i, j, a, b | 0 <= i < j < |ids| && 0 <= a < |targets| && 0 <= b < |targets|
      :: runs[ids[i]].bot == targets[a] && runs[ids[j]].bot == targets[b] ==> a <= b
  }

  lemma ListingInOrder(rows: Rows, q: Send, after: map<nat, Run>, n: nat)
    requires Shaped(rows, q) && n <= |q.targets| && AllOwned(rows, q, after)
    ensures forall r :: r in Listing(rows, q, n) ==> r in after
    ensures InTargetOrder(Listing(rows, q, n), after, q.targets)
  {
    ListingIsFlat(rows, q, n);
    WaysOwned(rows, q, after);
    FlatInOrder(Ways(rows, q), after, q.targets, n);
  }

  lemma {:induction false} FlatInOrder(ways: seq<Way>, runs: map<nat, Run>, targets: seq<nat>, n: nat)
    requires AllWaysOwned(ways, runs, targets) && n <= |ways|
    ensures (forall r :: r in Flat(ways, n) ==> r in runs) && InTargetOrder(Flat(ways, n), runs, targets)
  {
    if n > 0 {
      FlatInOrder(ways, runs, targets, n - 1);
      FlatOwned(ways, runs, targets, n - 1);
      assert WayOwned(ways, runs, targets, n - 1);
      AppendInOrder(Flat(ways, n - 1), Listed(ways[n - 1]), runs, targets, n - 1);
    }
  }

  lemma AppendInOrder(before: seq<nat>, last: seq<nat>, runs: map<nat, Run>, targets: seq<nat>, n: nat)
    requires Distinct(targets) && n < |targets|
    requires forall r :: r in before ==> r in runs && runs[r].bot in targets[..n]
    requires forall r :: r in last ==> r in runs && runs[r].bot == targets[n]
    requires InTargetOrder(before, runs, targets)
    ensures (forall r :: r in before + last ==> r in runs) && InTargetOrder(before + last, runs, targets)
  {
    var ids := before + last;
    forall i, j, a, b | 0 <= i < j < |ids| && 0 <= a < |targets| && 0 <= b < |targets|
        && runs[ids[i]].bot == targets[a] && runs[ids[j]].bot == targets[b]
      ensures a <= b
    {
      if j >= |before| {
        assert ids[j] in last;
        if i < |before| { assert ids[i] in before; } else { assert ids[i] in last; }
      }
    }
  }

  // ---- the promises of one send ----

  /** Every target is served in exactly one of three ways, decided by its own runs alone, and the
      receipt lists for it exactly the runs it was answered on, steered into, or given. */
  ghost predicate Served(rows: Rows, q: Send, k: nat, ids: seq<nat>, after: map<nat, Run>, steering: map<(nat, nat), Option<nat>>)
    requires k < |q.targets| == |q.news|
  {
    var bot, key := q.targets[k], (q.message, q.targets[k]);
    var live, waiting := Live(rows.runs, bot, q.group), WaitingRuns(rows.runs, bot, q.group);
    var listed := set r | r in ids && r in after && after[r].bot == bot;
    if waiting != {} then
      && listed == waiting && (forall r :: r in waiting ==> r in after && after[r] == rows.runs[r].(status := Queued))
      && key !in steering && q.news[k].run !in after
    else if live != {} then
      && key in steering && steering[key].Some?
      && steering[key].value in live && listed == {steering[key].value}
      && (forall r :: r in live ==> r in after && after[r] == rows.runs[r])
      && q.news[k].run !in after
    else
      && listed == {q.news[k].run}
      && after[q.news[k].run] == Run(q.news[k].task, bot, Queued, User, Some(q.message), true, false)
      && key !in steering
  }

  lemma TargetServed(rows: Rows, q: Send, k: nat)
    requires Sound(rows) && Fits(rows, q) && k < |q.targets|
    ensures Served(rows, q, k, Listing(rows, q, |q.targets|), AfterSend(rows, q).runs, AfterSend(rows, q).steering)
  {
    var after := AfterSend(rows, q).runs;
    RunsAfterSend(rows, q);
    AfterOwned(rows, q);
    ListingFor(rows, q, after, |q.targets|, k);
    SteeredAt(rows, q, |q.targets|, k);
    ServedFrom(rows, q, k, Listing(rows, q, |q.targets|), after, AfterSend(rows, q).steering);
  }

  lemma ServedFrom(rows: Rows, q: Send, k: nat, ids: seq<nat>, after: map<nat, Run>, steering: map<(nat, nat), Option<nat>>)
    requires Fits(rows, q) && k < |q.targets| && RunsLeft(rows, q, after) && Owned(rows, q, after, k)
    requires forall r :: r in after && after[r].bot == q.targets[k] ==> (r in ids <==> r in Listed(WayFor(rows, q, k)))
    requires var key := (q.message, q.targets[k]);
      if WayFor(rows, q, k).Steer? then key in steering && steering[key] == Some(WayFor(rows, q, k).run) else key !in steering
    ensures Served(rows, q, k, ids, after, steering)
  {
    WayMeans(rows, q, k);
    assert CreatedRight(rows, q, after, k);
    var listed := set r | r in ids && r in after && after[r].bot == q.targets[k];
    assert forall r :: r in listed <==> r in Listed(WayFor(rows, q, k));
    match WayFor(rows, q, k)
    case Answer(runs) =>
      assert listed == WaitingRuns(rows.runs, q.targets[k], q.group);
    case Steer(run) =>
      assert listed == {run};
    case Create(made) =>
      assert listed == {made.run};
  }

  /** A send leaves every bot's live runs as they were, and gives a target that had none exactly one. */
  lemma LiveKept(rows: Rows, q: Send, bot: nat)
    requires Fits(rows, q) && q.targets != []
    ensures var before, after := Live(rows.runs, bot, q.group), Live(AfterSend(rows, q).runs, bot, q.group);
      && (bot !in q.targets || before != {} ==> after == before)
      && (forall k :: 0 <= k < |q.targets| && q.targets[k] == bot && before == {} ==> after == {q.news[k].run})
  {
    var after := AfterSend(rows, q).runs;
    RunsAfterSend(rows, q);
    OldLiveKept(rows, q, after, bot);
    forall k | 0 <= k < |q.targets| ensures NewLive(rows, q, after, k) {
      WayMeans(rows, q, k);
      assert CreatedRight(rows, q, after, k);
    }
    LiveFrom(rows, q, after, bot);
  }

  lemma OldLiveKept(rows: Rows, q: Send, after: map<nat, Run>, bot: nat)
    requires Shaped(rows, q) && RunsLeft(rows, q, after)
    ensures forall r :: r in rows.runs ==> (r in Live(after, bot, q.group) <==> r in Live(rows.runs, bot, q.group))
  {
  }

  /** The `k`-th id is used exactly when its target had no live run, and then for that target. */
  ghost predicate NewLive(rows: Rows, q: Send, after: map<nat, Run>, k: nat)
    requires k < |q.targets| == |q.news|
  {
    var r := q.news[k].run;
    if Live(rows.runs, q.targets[k], q.group) == {} then r in after && after[r] == NewRun(q.targets[k], q.news[k], q.message)
    else r !in after
  }

  lemma LiveFrom(rows: Rows, q: Send, after: map<nat, Run>, bot: nat)
    requires |q.targets| == |q.news| && Distinct(q.targets)
    requires forall r :: r in rows.runs ==> (r in Live(after, bot, q.group) <==> r in Live(rows.runs, bot, q.group))
    requires forall k :: 0 <= k < |q.targets| ==> NewLive(rows, q, after, k)
    requires forall r :: r in after ==> r in rows.runs || r in NewIds(q)
    ensures var before, live := Live(rows.runs, bot, q.group), Live(after, bot, q.group);
      && (bot !in q.targets || before != {} ==> live == before)
      && (forall k :: 0 <= k < |q.targets| && q.targets[k] == bot && before == {} ==> live == {q.news[k].run})
  {
    var before, live := Live(rows.runs, bot, q.group), Live(after, bot, q.group);
    forall r | r in live && r !in before
      ensures bot in q.targets && before == {}
      ensures forall k :: 0 <= k < |q.targets| && q.targets[k] == bot ==> r == q.news[k].run
    {
      assert r !in rows.runs;
      var k :| 0 <= k < |q.news| && r == q.news[k].run;
      assert NewLive(rows, q, after, k);
    }
    forall k | 0 <= k < |q.targets| && q.targets[k] == bot && before == {}
      ensures live == {q.news[k].run}
    {
      assert NewLive(rows, q, after, k);
    }
  }

  /** At most one live run per bot: kept by every send. */
  lemma AtMostOneLive(rows: Rows, q: Send, bot: nat)
    requires Fits(rows, q) && q.targets != [] && |Live(rows.runs, bot, q.group)| <= 1
    ensures |Live(AfterSend(rows, q).runs, bot, q.group)| <= 1
  {
    LiveKept(rows, q, bot);
    if bot in q.targets {
      var k :| 0 <= k < |q.targets| && q.targets[k] == bot;
    }
  }

  // ---- runs a newer send supersedes ----

  /** A queued run no one has picked up, started by the user or a reaction. */
  predicate Superseded(run: Run, bots: set<nat>) {
    run.bot in bots && run.status == Queued && ((run.trigger == User && run.fromUser) || run.trigger == Reaction)
  }

  function WithoutSuperseded(runs: map<nat, Run>, bots: set<nat>, keep: set<nat>): map<nat, Run> {
    map r | r in runs :: if r !in keep && Superseded(runs[r], bots) then runs[r].(status := Cancelled) else runs[r]
  }

  /** Superseding cancels exactly the queued runs of these bots that are not kept and that a user's message
      or a reaction asked for. */
  lemma SupersedesExactly(runs: map<nat, Run>, bots: set<nat>, keep: set<nat>)
    ensures var left := WithoutSuperseded(runs, bots, keep);
      && left.Keys == runs.Keys
      && forall r :: r in runs ==>
           left[r] == if r !in keep && runs[r].bot in bots && runs[r].status == Queued
                         && (runs[r].trigger == Reaction || (runs[r].trigger == User && runs[r].fromUser))
                      then runs[r].(status := Cancelled) else runs[r]
  {
  }

  /** A run is active until it has completed, failed or been cancelled, and can be steered unless it waits
      for an answer; a direct send does not see those other bots triggered. */
  lemma ActiveMeans(run: Run, group: bool)
    ensures Counts(run, group) <==>
      (run.status !in {Completed, Failed, Cancelled} && (group || run.trigger != BotMessage))
    ensures Steerable(run.status) <==> Active(run.status) && run.status != WaitingInput
  {
  }

  /** Under serial transactions a send that creates runs finds nothing to supersede: a queued run
      would have been live, and so steered. */
  lemma NothingSuperseded(rows: Rows, q: Send, bots: set<nat>, keep: set<nat>)
    requires Fits(rows, q) && q.targets != []
    requires forall b :: b in bots ==> b in q.targets && Live(rows.runs, b, q.group) == {}
    requires forall k :: 0 <= k < |q.targets| && q.targets[k] in bots ==> q.news[k].run in keep
    ensures WithoutSuperseded(AfterSend(rows, q).runs, bots, keep) == AfterSend(rows, q).runs
  {
    var after := AfterSend(rows, q).runs;
    forall r | r in after && Superseded(after[r], bots) ensures r in keep {
      var bot := after[r].bot;
      var k :| 0 <= k < |q.targets| && q.targets[k] == bot;
      LiveKept(rows, q, bot);
      assert r in Live(after, bot, q.group);
    }
  }

  // ---- replaying a nonce ----

  function Existing(ids: seq<nat>, runs: map<nat, Run>): (kept: seq<nat>)
    ensures forall r :: r in kept <==> r in runs && r in ids
    ensures (forall r :: r in ids ==> r in runs) ==> kept == ids
  {
    if ids == [] then []
    else Existing(ids[..|ids| - 1], runs) + (if ids[|ids| - 1] in runs then [ids[|ids| - 1]] else [])
  }

  /** The runs sourced at a message, in the order of `byAge`. */
  function SourceRuns(runs: map<nat, Run>, byAge: seq<nat>, message: nat): (sourced: seq<nat>)
    requires forall r :: r in byAge ==> r in runs
    ensures forall r :: r in sourced <==> r in byAge && runs[r].source == Some(message)
  {
    if byAge == [] then []
    else
      var last := byAge[|byAge| - 1];
      SourceRuns(runs, byAge[..|byAge| - 1], message) + (if runs[last].source == Some(message) then [last] else [])
  }

  /** replayExistingSend: the event's run ids, else the runs sourced at the message, else the run it
      is linked to. */
  function ReplayOf(rows: Rows, message: nat, byAge: seq<nat>): Option<Receipt>
    requires message in rows.messages && forall r :: r in byAge ==> r in rows.runs
  {
    var listed := Existing(if message in rows.receipts then rows.receipts[message] else [], rows.runs);
    var sourced := SourceRuns(rows.runs, byAge, message);
    var linked := rows.messages[message].run;
    var ids :=
      if listed != [] then listed
      else if sourced != [] then sourced
      else if linked.Some? && linked.value in rows.runs then [linked.value]
      else [];
    if ids == [] then None else Some(SendResult(rows.messages[message].seqNo, ids, rows.runs))
  }

  /** What time may change: runs come, go and change status; messages, receipts and where a run
      came from do not. */
  ghost predicate Later(a: Rows, b: Rows) {
    && (forall m :: m in a.messages ==> m in b.messages && b.messages[m] == a.messages[m])
    && (forall m :: m in a.receipts ==> m in b.receipts && b.receipts[m] == a.receipts[m])
    && (forall r :: r in a.runs && r in b.runs ==> b.runs[r].task == a.runs[r].task && b.runs[r].source == a.runs[r].source)
  }

  /** The receipt of a committed send. */
  function ReceiptOf(rows: Rows, q: Send): Receipt
    requires Fits(rows, q) && q.targets != []
  {
    AfterOwned(rows, q);
    ListingOwned(rows, q, AfterSend(rows, q).runs, |q.targets|);
    SendResult(q.seqNo, Listing(rows, q, |q.targets|), AfterSend(rows, q).runs)
  }

  /** What a receipt says: the message's number, its first run and that run's task, and for every target,
      in target order and without repeats, exactly the runs it was answered on, steered into or given. */
  ghost predicate Lists(rows: Rows, q: Send, r: Receipt)
    requires Fits(rows, q) && q.targets != []
  {
    var after := AfterSend(rows, q);
    && r.seqNo == q.seqNo
    && r.runIds != [] && r.runId == r.runIds[0] && r.runId in after.runs && r.taskId == after.runs[r.runId].task
    && Distinct(r.runIds)
    && (forall id :: id in r.runIds ==> id in after.runs && after.runs[id].bot in q.targets)
    && InTargetOrder(r.runIds, after.runs, q.targets)
    && forall k :: 0 <= k < |q.targets| ==> Served(rows, q, k, r.runIds, after.runs, after.steering)
  }

  lemma ReceiptLists(rows: Rows, q: Send)
    requires Sound(rows) && Fits(rows, q) && q.targets != []
    ensures Lists(rows, q, ReceiptOf(rows, q))
  {
    var after := AfterSend(rows, q).runs;
    AfterOwned(rows, q);
    ListingOwned(rows, q, after, |q.targets|);
    ListingInOrder(rows, q, after, |q.targets|);
    ListingDistinct(rows, q, after, |q.targets|);
    forall k | 0 <= k < |q.targets|
      ensures Served(rows, q, k, Listing(rows, q, |q.targets|), after, AfterSend(rows, q).steering)
    {
      TargetServed(rows, q, k);
    }
  }

  lemma ListingDistinct(rows: Rows, q: Send, after: map<nat, Run>, n: nat)
    requires Fits(rows, q) && n <= |q.targets| && AllOwned(rows, q, after)
    ensures Distinct(Listing(rows, q, n))
  {
    ListingIsFlat(rows, q, n);
    WaysOwned(rows, q, after);
    forall k | 0 <= k < |q.targets| ensures Distinct(Listed(Ways(rows, q)[k])) {
      PickDistinct(rows.runs, q.found, q.targets[k], true);
    }
    FlatDistinct(Ways(rows, q), after, q.targets, n);
  }

  lemma {:induction false} FlatDistinct(ways: seq<Way>, runs: map<nat, Run>, targets: seq<nat>, n: nat)
    requires AllWaysOwned(ways, runs, targets) && n <= |ways|
    requires forall k :: 0 <= k < |ways| ==> Distinct(Listed(ways[k]))
    ensures Distinct(Flat(ways, n))
  {
    if n > 0 {
      FlatDistinct(ways, runs, targets, n - 1);
      FlatOwned(ways, runs, targets, n - 1);
      assert WayOwned(ways, runs, targets, n - 1);
      assert targets[n - 1] !in targets[..n - 1];
      DistinctConcat(Flat(ways, n - 1), Listed(ways[n - 1]));
    }
  }

  lemma DistinctConcat(a: seq<nat>, b: seq<nat>)
    requires Distinct(a) && Distinct(b) && forall r :: r in a ==> r !in b
    ensures Distinct(a + b)
  {
    forall i, j | 0 <= i < j < |a + b| ensures (a + b)[i] != (a + b)[j] {
      if i < |a| <= j { assert a[i] in a && b[j - |a|] in b; }
    }
  }

  /** While the runs of a receipt exist, replaying its nonce rebuilds it: same seq, same runs in the
      same order, same first run and task. The one exception is a direct send that steered, once a
      later run is sourced at its message. */
  lemma ReplayRebuildsReceipt(rows: Rows, q: Send, b: Rows, byAge: seq<nat>)
    requires Sound(rows) && Fits(rows, q) && q.targets != [] && Later(AfterSend(rows, q), b)
    requires forall r :: r in Listing(rows, q, |q.targets|) ==> r in b.runs
    requires forall r :: r in byAge <==> r in b.runs
    ensures q.message in b.messages
    ensures ReplayOf(b, q.message, byAge) == Some(ReceiptOf(rows, q)) <==>
      !(SteersAlone(rows, q) && exists r :: r in b.runs && b.runs[r].source == Some(q.message))
  {
    var ids := Listing(rows, q, |q.targets|);
    MessageKept(rows, q, b);
    if !SteersAlone(rows, q) {
      ReplayListed(b, q.message, byAge, ids);
    } else {
      SteeredListing(rows, q);
      var sourced := SourceRuns(b.runs, byAge, q.message);
      if sourced == [] {
        assert forall r :: r in b.runs ==> r in byAge;
        ReplayLinked(b, q.message, byAge, ids[0]);
        assert ids == [ids[0]];
      } else {
        assert sourced[0] in sourced && sourced[0] in b.runs;
        ReplaySourced(b, q.message, byAge);
      }
    }
  }

  /** And so does the replayed receipt, whenever it is not the exception. */
  lemma ReplayLists(rows: Rows, q: Send, b: Rows, byAge: seq<nat>)
    requires Sound(rows) && Fits(rows, q) && q.targets != [] && Later(AfterSend(rows, q), b)
    requires forall r :: r in Listing(rows, q, |q.targets|) ==> r in b.runs
    requires forall r :: r in byAge <==> r in b.runs
    requires !SteersAlone(rows, q) || forall r :: r in b.runs ==> b.runs[r].source != Some(q.message)
    ensures q.message in b.messages
    ensures ReplayOf(b, q.message, byAge).Some? && Lists(rows, q, ReplayOf(b, q.message, byAge).value)
  {
    ReplayRebuildsReceipt(rows, q, b, byAge);
    ReceiptLists(rows, q);
  }

  /** What the send wrote about its message is still there, and its first run has the same task. */
  lemma MessageKept(rows: Rows, q: Send, b: Rows)
    requires Fits(rows, q) && q.targets != [] && Later(AfterSend(rows, q), b)
    ensures var ids := Listing(rows, q, |q.targets|);
      && q.message in b.messages && b.messages[q.message] == Message(q.seqNo, q.nonce, Some(ids[0]))
      && q.message in b.receipts && b.receipts[q.message] == (if SteersAlone(rows, q) then [] else ids)
      && ids[0] in AfterSend(rows, q).runs
      && (ids[0] in b.runs ==> ReceiptOf(rows, q) == SendResult(q.seqNo, ids, b.runs)
                               && b.runs[ids[0]].source == AfterSend(rows, q).runs[ids[0]].source)
  {
    AfterOwned(rows, q);
    ListingOwned(rows, q, AfterSend(rows, q).runs, |q.targets|);
    assert q.message in AfterSend(rows, q).messages && q.message in AfterSend(rows, q).receipts;
  }

  lemma ReplayListed(b: Rows, m: nat, byAge: seq<nat>, ids: seq<nat>)
    requires m in b.messages && (forall r :: r in byAge ==> r in b.runs)
    requires m in b.receipts && b.receipts[m] == ids != [] && forall r :: r in ids ==> r in b.runs
    ensures ReplayOf(b, m, byAge) == Some(SendResult(b.messages[m].seqNo, ids, b.runs))
  {
  }

  lemma ReplaySourced(b: Rows, m: nat, byAge: seq<nat>)
    requires m in b.messages && (forall r :: r in byAge ==> r in b.runs)
    requires m in b.receipts && b.receipts[m] == [] && SourceRuns(b.runs, byAge, m) != []
    ensures ReplayOf(b, m, byAge) == Some(SendResult(b.messages[m].seqNo, SourceRuns(b.runs, byAge, m), b.runs))
  {
  }

  lemma ReplayLinked(b: Rows, m: nat, byAge: seq<nat>, r: nat)
    requires m in b.messages && (forall r :: r in byAge ==> r in b.runs)
    requires m in b.receipts && b.receipts[m] == [] && SourceRuns(b.runs, byAge, m) == []
    requires b.messages[m].run == Some(r) && r in b.runs
    ensures ReplayOf(b, m, byAge) == Some(SendResult(b.messages[m].seqNo, [r], b.runs))
  {
  }

  /** A steering direct send lists one run, which was there before the message. */
  lemma SteeredListing(rows: Rows, q: Send)
    requires Sound(rows) && Fits(rows, q) && q.targets != [] && SteersAlone(rows, q)
    ensures var ids := Listing(rows, q, |q.targets|);
      && |ids| == 1 && ids[0] in rows.runs && ids[0] == WayFor(rows, q, 0).run
      && AfterSend(rows, q).runs[ids[0]].source == rows.runs[ids[0]].source != Some(q.message)
  {
    assert Listing(rows, q, 1) == Listing(rows, q, 0) + Listed(WayFor(rows, q, 0));
    WayMeans(rows, q, 0);
    RunsAfterSend(rows, q);
  }

  // ---- the continuation that breaks the exception ----

  /** Finalizing a completed run: steering it never read is released. */
  function Complete(rows: Rows, r: nat, claimed: set<nat>): Rows
    requires r in rows.runs
  {
    rows.(
      runs := rows.runs[r := rows.runs[r].(status := Completed)],
      steering := map key | key in rows.steering && !(rows.steering[key] == Some(r) && key.0 in claimed)
        :: if rows.steering[key] == Some(r) then None else rows.steering[key])
  }

  /** Steering written after the run's own source message; all of it when the run has none. */
  predicate NewerThanSource(rows: Rows, r: nat, message: nat)
    requires r in rows.runs
  {
    var source := rows.runs[r].source;
    source.Some? && source.value in rows.messages ==>
      message in rows.messages && rows.messages[message].seqNo > rows.messages[source.value].seqNo
  }

  /** Finalizing a failed run: steering newer than its source is released, read or not. */
  function Fail(rows: Rows, r: nat): Rows
    requires r in rows.runs
  {
    rows.(
      runs := rows.runs[r := rows.runs[r].(status := Failed)],
      steering := map key | key in rows.steering
        :: if rows.steering[key] == Some(r) && NewerThanSource(rows, r, key.0) then None else rows.steering[key])
  }

  /** createSteeringContinuation starts a run for released steering, sourced at its newest message. */
  predicate CanContinue(rows: Rows, bot: nat, message: nat) {
    && Live(rows.runs, bot, true) == {}
    && message in rows.messages && (message, bot) in rows.steering && rows.steering[(message, bot)] == None
    && forall key :: key in rows.steering && key.1 == bot && rows.steering[key] == None ==>
         key.0 in rows.messages && rows.messages[key.0].seqNo <= rows.messages[message].seqNo
  }

  function Continue(rows: Rows, bot: nat, message: nat, made: New): Rows {
    rows.(
      runs := rows.runs[made.run := Run(made.task, bot, Queued, FollowUp, Some(message), true, false)],
      steering := map key | key in rows.steering
        :: if key.1 == bot && rows.steering[key] == None then Some(made.run) else rows.steering[key])
  }

  /** Whenever a direct send steers a run that completes without reading it, replaying its nonce
      afterwards answers with the continuation's run and task, not the original ones. */
  lemma UnreadSteerChangesReceipt(rows: Rows, q: Send, claimed: set<nat>, made: New, byAge: seq<nat>)
    requires Sound(rows) && Fits(rows, q) && q.targets != [] && SteersAlone(rows, q)
    requires var steered := WayFor(rows, q, 0).run; steered in AfterSend(rows, q).runs
    requires var done := Complete(AfterSend(rows, q), WayFor(rows, q, 0).run, claimed);
      CanContinue(done, q.targets[0], q.message) && made.run !in done.runs
    requires var b := Continue(Complete(AfterSend(rows, q), WayFor(rows, q, 0).run, claimed), q.targets[0], q.message, made);
      Distinct(byAge) && forall r :: r in byAge <==> r in b.runs
    ensures var b := Continue(Complete(AfterSend(rows, q), WayFor(rows, q, 0).run, claimed), q.targets[0], q.message, made);
      && q.message in b.messages
      && ReplayOf(b, q.message, byAge) == Some(Receipt(q.seqNo, made.run, made.task, [made.run])) != Some(ReceiptOf(rows, q))
  {
    var after := AfterSend(rows, q);
    NoneSourced(rows, q);
    SteeredListing(rows, q);
    ContinuationReplayed(Complete(after, WayFor(rows, q, 0).run, claimed), q.targets[0], q.message, made, byAge);
  }

  /** And whenever it steers a run that fails, even if the run had read it: a new message is newer than
      the source of any run. */
  lemma FailedSteerChangesReceipt(rows: Rows, q: Send, made: New, byAge: seq<nat>)
    requires Sound(rows) && Fits(rows, q) && q.targets != [] && SteersAlone(rows, q)
    requires forall m :: m in rows.messages ==> rows.messages[m].seqNo < q.seqNo
    requires var steered := WayFor(rows, q, 0).run; steered in AfterSend(rows, q).runs
    requires var failed := Fail(AfterSend(rows, q), WayFor(rows, q, 0).run);
      Live(failed.runs, q.targets[0], true) == {} && made.run !in failed.runs
    requires var b := Continue(Fail(AfterSend(rows, q), WayFor(rows, q, 0).run), q.targets[0], q.message, made);
      Distinct(byAge) && forall r :: r in byAge <==> r in b.runs
    ensures var failed := Fail(AfterSend(rows, q), WayFor(rows, q, 0).run);
      CanContinue(failed, q.targets[0], q.message)
    ensures var b := Continue(Fail(AfterSend(rows, q), WayFor(rows, q, 0).run), q.targets[0], q.message, made);
      && q.message in b.messages
      && ReplayOf(b, q.message, byAge) == Some(Receipt(q.seqNo, made.run, made.task, [made.run])) != Some(ReceiptOf(rows, q))
  {
    var after := AfterSend(rows, q);
    NoneSourced(rows, q);
    SteeredListing(rows, q);
    FailedReleases(rows, q);
    ContinuationReplayed(Fail(after, WayFor(rows, q, 0).run), q.targets[0], q.message, made, byAge);
  }

  lemma FailedReleases(rows: Rows, q: Send)
    requires Sound(rows) && Fits(rows, q) && q.targets != [] && SteersAlone(rows, q)
    requires forall m :: m in rows.messages ==> rows.messages[m].seqNo < q.seqNo
    requires WayFor(rows, q, 0).run in AfterSend(rows, q).runs
    requires Live(Fail(AfterSend(rows, q), WayFor(rows, q, 0).run).runs, q.targets[0], true) == {}
    ensures CanContinue(Fail(AfterSend(rows, q), WayFor(rows, q, 0).run), q.targets[0], q.message)
  {
    var after, run := AfterSend(rows, q), WayFor(rows, q, 0).run;
    var key := (q.message, q.targets[0]);
    SteeredAt(rows, q, 1, 0);
    assert key in after.steering && after.steering[key] == Some(run);
    SteeredListing(rows, q);
    SteeringStored(rows, q);
  }

  /** After a send every steering row belongs to a stored message, none newer than the one just sent. */
  lemma SteeringStored(rows: Rows, q: Send)
    requires Sound(rows) && Fits(rows, q) && q.targets != []
    requires forall m :: m in rows.messages ==> rows.messages[m].seqNo < q.seqNo
    ensures var after := AfterSend(rows, q);
      forall key :: key in after.steering ==> key.0 in after.messages && after.messages[key.0].seqNo <= q.seqNo
  {
    SteeredBy(rows, q, |q.targets|);
  }

  lemma ContinuationReplayed(after: Rows, bot: nat, m: nat, made: New, byAge: seq<nat>)
    requires made.run !in after.runs
    requires forall o :: o in after.runs ==> after.runs[o].source != Some(m)
    requires m in after.messages && m in after.receipts && after.receipts[m] == []
    requires var b := Continue(after, bot, m, made);
      Distinct(byAge) && forall o :: o in byAge <==> o in b.runs
    ensures var b := Continue(after, bot, m, made);
      ReplayOf(b, m, byAge) == Some(Receipt(after.messages[m].seqNo, made.run, made.task, [made.run]))
  {
    var b := Continue(after, bot, m, made);
    assert b.runs[made.run].source == Some(m);
    OnlySource(b.runs, byAge, m, made.run);
    ReplaySourced(b, m, byAge);
  }

  /** A steering direct send leaves no run sourced at its message. */
  lemma NoneSourced(rows: Rows, q: Send)
    requires Sound(rows) && Fits(rows, q) && q.targets != [] && SteersAlone(rows, q)
    ensures forall r :: r in AfterSend(rows, q).runs ==> AfterSend(rows, q).runs[r].source != Some(q.message)
    ensures q.message in AfterSend(rows, q).receipts && AfterSend(rows, q).receipts[q.message] == []
    ensures q.message in AfterSend(rows, q).messages && AfterSend(rows, q).messages[q.message].seqNo == q.seqNo
  {
    RunsAfterSend(rows, q);
    NoneSourcedIn(rows, q, AfterSend(rows, q).runs);
  }

  lemma NoneSourcedIn(rows: Rows, q: Send, after: map<nat, Run>)
    requires Sound(rows) && Fits(rows, q) && q.targets != [] && SteersAlone(rows, q) && RunsLeft(rows, q, after)
    ensures forall r :: r in after ==> after[r].source != Some(q.message)
  {
    assert CreatedRight(rows, q, after, 0);
    forall r | r in after ensures after[r].source != Some(q.message) {
      assert r in rows.runs;
      assert after[r] == Requeued(rows, q, r);
    }
  }

  lemma {:induction false} OnlySource(runs: map<nat, Run>, byAge: seq<nat>, message: nat, only: nat)
    requires Distinct(byAge) && forall r :: r in byAge ==> r in runs
    requires forall r :: r in byAge ==> (runs[r].source == Some(message) <==> r == only)
    ensures SourceRuns(runs, byAge, message) == if only in byAge then [only] else []
  {
    if byAge != [] {
      var n := |byAge| - 1;
      OnlySource(runs, byAge[..n], message, only);
      assert byAge == byAge[..n] + [byAge[n]];
    }
  }

  // ---- what happens to a thread after a send ----

  /** What changes a thread's rows: another send commits, a run moves on, a run is finalized as completed
      or failed, the steering that releases is continued. */
  datatype Change =
    | Sends(q: Send)
    | Moves(run: nat, status: Status)
    | Finalizes(run: nat, claimed: set<nat>)
    | Fails(run: nat)
    | Continues(bot: nat, message: nat, made: New)

  ghost predicate CanHappen(rows: Rows, c: Change) {
    match c
    case Sends(q) => Fits(rows, q) && q.targets != []
    case Moves(run, _) => run in rows.runs
    case Finalizes(run, _) => run in rows.runs
    case Fails(run) => run in rows.runs
    case Continues(bot, message, made) => CanContinue(rows, bot, message) && made.run !in rows.runs
  }

  ghost function Apply(rows: Rows, c: Change): Rows
    requires CanHappen(rows, c)
  {
    match c
    case Sends(q) => AfterSend(rows, q)
    case Moves(run, status) => rows.(runs := rows.runs[run := rows.runs[run].(status := status)])
    case Finalizes(run, claimed) => Complete(rows, run, claimed)
    case Fails(run) => Fail(rows, run)
    case Continues(bot, message, made) => Continue(rows, bot, message, made)
  }

  ghost predicate IsHistory(rows: Rows, changes: seq<Change>)
    decreases |changes|
  {
    changes == [] || (CanHappen(rows, changes[0]) && IsHistory(Apply(rows, changes[0]), changes[1..]))
  }

  ghost function AfterAll(rows: Rows, changes: seq<Change>): Rows
    requires IsHistory(rows, changes)
    decreases |changes|
  {
    if changes == [] then rows else AfterAll(Apply(rows, changes[0]), changes[1..])
  }

  /** Created events belong to stored messages. */
  ghost predicate Receipted(rows: Rows) {
    forall m :: m in rows.receipts ==> m in rows.messages
  }

  /** A continuation was started at this message. */
  ghost predicate ContinuedAt(changes: seq<Change>, message: nat) {
    exists k :: 0 <= k < |changes| && IsContinuation(changes[k], message)
  }

  predicate IsContinuation(c: Change, message: nat) {
    c.Continues? && c.message == message
  }

  ghost predicate HasSource(runs: map<nat, Run>, message: nat) {
    exists r :: r in runs && runs[r].source == Some(message)
  }

  /** Only a continuation gives a stored message a run it did not have. */
  lemma CommitKeeps(rows: Rows, q: Send, message: nat)
    requires Fits(rows, q) && q.targets != [] && message in rows.messages && Receipted(rows)
    ensures Later(rows, AfterSend(rows, q))
    ensures forall r :: r in rows.runs ==> r in AfterSend(rows, q).runs
    ensures HasSource(AfterSend(rows, q).runs, message) <==> HasSource(rows.runs, message)
  {
    var after := AfterSend(rows, q).runs;
    RunsAfterSend(rows, q);
    forall r | r in after && r !in rows.runs ensures after[r].source == Some(q.message) {
      var k :| 0 <= k < |q.targets| && q.news[k].run == r;
      assert CreatedRight(rows, q, after, k);
    }
    forall r | r in rows.runs
      ensures r in after && after[r].source == rows.runs[r].source && after[r].task == rows.runs[r].task
    {
      assert after[r] == Requeued(rows, q, r);
    }
  }

  lemma ApplyKeeps(rows: Rows, c: Change, message: nat)
    requires CanHappen(rows, c) && message in rows.messages && Receipted(rows)
    ensures var b := Apply(rows, c);
      && Later(rows, b) && Receipted(b) && message in b.messages && (forall r :: r in rows.runs ==> r in b.runs)
      && (HasSource(b.runs, message) <==> HasSource(rows.runs, message) || IsContinuation(c, message))
  {
    match c
    case Sends(q) => CommitKeeps(rows, q, message);
    case Moves(run, status) => SameSources(rows.runs, Apply(rows, c).runs, message);
    case Finalizes(run, claimed) => SameSources(rows.runs, Apply(rows, c).runs, message);
    case Fails(run) => SameSources(rows.runs, Apply(rows, c).runs, message);
    case Continues(bot, at, made) =>
      var after := Apply(rows, c).runs;
      assert after[made.run].source == Some(at);
      assert forall r :: r in rows.runs ==> r in after && after[r] == rows.runs[r];
  }

  lemma SameSources(a: map<nat, Run>, b: map<nat, Run>, message: nat)
    requires a.Keys == b.Keys && forall r :: r in a ==> b[r].source == a[r].source
    ensures HasSource(b, message) <==> HasSource(a, message)
  {
    assert forall r :: r in a <==> r in b;
  }

  /** Whatever happens keeps messages, receipts, runs and where the runs came from. */
  lemma {:induction false} HistoryKeeps(rows: Rows, changes: seq<Change>, message: nat)
    requires IsHistory(rows, changes) && message in rows.messages && Receipted(rows)
    ensures var b := AfterAll(rows, changes);
      && Later(rows, b) && (forall r :: r in rows.runs ==> r in b.runs)
      && (HasSource(b.runs, message) <==> HasSource(rows.runs, message) || ContinuedAt(changes, message))
    decreases |changes|
  {
    if changes != [] {
      var next := Apply(rows, changes[0]);
      ApplyKeeps(rows, changes[0], message);
      HistoryKeeps(next, changes[1..], message);
      LaterTrans(rows, next, AfterAll(rows, changes));
      ContinuedLater(changes, message);
    }
  }

  lemma ContinuedLater(changes: seq<Change>, message: nat)
    requires changes != []
    ensures ContinuedAt(changes, message) <==> IsContinuation(changes[0], message) || ContinuedAt(changes[1..], message)
  {
    var rest := changes[1..];
    if ContinuedAt(rest, message) {
      var k :| 0 <= k < |rest| && IsContinuation(rest[k], message);
      assert IsContinuation(changes[k + 1], message);
    }
    if k :| 0 <= k < |changes| && IsContinuation(changes[k], message) {
      assert k == 0 || rest[k - 1] == changes[k];
    }
  }

  lemma LaterTrans(a: Rows, b: Rows, c: Rows)
    requires Later(a, b) && Later(b, c) && forall r :: r in a.runs ==> r in b.runs
    ensures Later(a, c)
  {
  }

  /** Whatever happens to the thread after a send, replaying its nonce rebuilds its receipt, unless it
      was a direct send that steered and its message has been continued since. */
  lemma ReplayAfterHistory(rows: Rows, q: Send, changes: seq<Change>, byAge: seq<nat>)
    requires Sound(rows) && Receipted(rows) && Fits(rows, q) && q.targets != [] && IsHistory(AfterSend(rows, q), changes)
    requires forall r :: r in byAge <==> r in AfterAll(AfterSend(rows, q), changes).runs
    ensures var b := AfterAll(AfterSend(rows, q), changes);
      && q.message in b.messages
      && (ReplayOf(b, q.message, byAge) == Some(ReceiptOf(rows, q)) <==>
            !(SteersAlone(rows, q) && ContinuedAt(changes, q.message)))
  {
    var after := AfterSend(rows, q);
    var b := AfterAll(after, changes);
    HistoryKeeps(after, changes, q.message);
    AfterOwned(rows, q);
    ListingOwned(rows, q, after.runs, |q.targets|);
    ReplayRebuildsReceipt(rows, q, b, byAge);
    if SteersAlone(rows, q) { NoneSourced(rows, q); }
  }

  // a concrete case: bot 7 is running run 1 when message 100 steers it

  const STEERED_RUN := Run(11, 7, Running, User, None, true, false)
  const BUSY := Rows(map[1 := STEERED_RUN], map[], map[], map[])
  const STEERING_SEND := Send(100, 5, Some("nonce"), true, [7], [1], [New(2, 12)], false)
  const AFTER_STEERING :=
    Rows(map[1 := STEERED_RUN], map[100 := Message(5, Some("nonce"), Some(1))], map[100 := []], map[(100, 7) := Some(1)])

  lemma SteeringSendFits()
    ensures Sound(BUSY) && Fits(BUSY, STEERING_SEND) && WayFor(BUSY, STEERING_SEND, 0) == Steer(1)
  {
    var q := STEERING_SEND;
    assert q.found == [1] && q.found[..0] == [] && q.found[0] == 1 && BUSY.runs[1] == STEERED_RUN;
    assert Pick(BUSY.runs, q.found[..0], 7, true) == [] && Pick(BUSY.runs, q.found[..0], 7, false) == [];
  }

  lemma SteeringSendDone()
    requires Fits(BUSY, STEERING_SEND) && WayFor(BUSY, STEERING_SEND, 0) == Steer(1)
    ensures AfterSend(BUSY, STEERING_SEND) == AFTER_STEERING
    ensures ReceiptOf(BUSY, STEERING_SEND) == Receipt(5, 1, 11, [1])
  {
    var q := STEERING_SEND;
    assert Listing(BUSY, q, 0) == [] && Listing(BUSY, q, 1) == [1];
    assert Created(BUSY, q, 0) == map[] && Created(BUSY, q, 1) == map[];
    assert Steered(BUSY, q, 0) == map[] && Steered(BUSY, q, 1) == map[(100, 7) := Some(1)];
    assert Answered(BUSY.runs, q.found) == BUSY.runs;
  }

  lemma SteerCompletes()
    ensures var done := Complete(AFTER_STEERING, 1, {}); 1 in done.runs && CanContinue(done, 7, 100)
    ensures Continue(Complete(AFTER_STEERING, 1, {}), 7, 100, New(3, 13)).runs.Keys == {1, 3}
  {
    var done := Complete(AFTER_STEERING, 1, {});
    assert done.runs.Keys == {1} && done.steering == map[(100, 7) := None];
  }

  lemma SteerContinues()
    ensures var b := Continue(Complete(AFTER_STEERING, 1, {}), 7, 100, New(3, 13));
      b.runs.Keys == {1, 3} && 100 in b.messages && ReplayOf(b, 100, [1, 3]) == Some(Receipt(5, 3, 13, [3]))
  {
    SteerCompletes();
    ContinuationReplayed(Complete(AFTER_STEERING, 1, {}), 7, 100, New(3, 13), [1, 3]);
  }

  /** It happens: run 1 completes without reading message 100, continuation 3 starts, and the replay
      names run 3 instead of run 1. */
  lemma SteerReplayDiffers()
    ensures Sound(BUSY) && Fits(BUSY, STEERING_SEND) && SteersAlone(BUSY, STEERING_SEND)
    ensures var after := AfterSend(BUSY, STEERING_SEND);
      && 1 in after.runs && CanContinue(Complete(after, 1, {}), 7, 100)
      && var b := Continue(Complete(after, 1, {}), 7, 100, New(3, 13));
      && b.runs.Keys == {1, 3} && 100 in b.messages
      && ReceiptOf(BUSY, STEERING_SEND) == Receipt(5, 1, 11, [1])
      && ReplayOf(b, 100, [1, 3]) == Some(Receipt(5, 3, 13, [3]))
  {
    SteeringSendFits();
    SteeringSendDone();
    SteerCompletes();
    SteerContinues();
  }
}
