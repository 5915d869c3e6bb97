/** sendThreadMessage itself: the transaction bodies that update the thread's rows step by step,
    and the replay that answers a nonce already used. */
module ThreadSendCalls {
  import opened Wrappers
  import opened ThreadSend

  /** What the transaction answers: refused without a trace, or committed. */
  ghost function Committed(rows: Rows, q: Send): Outcome
    requires Fits(rows, q)
  {
    if Taken(rows.messages, q.nonce) then Refused(NonceTaken)
    else if Blocked(rows, q) then Refused(AnswerPendingAsk)
    else if q.targets == [] then Refused(NoTarget)
    else Sent(ReceiptOf(rows, q))
  }

  predicate AllAnswerable(runs: map<nat, Run>, waiting: seq<nat>)
    requires forall r :: r in waiting ==> r in runs
  {
    forall r :: r in waiting ==> runs[r].answerable
  }

  class Thread {
    var runs: map<nat, Run>
    var messages: map<nat, Message>
    var receipts: map<nat, seq<nat>>
    var steering: map<(nat, nat), Option<nat>>

    function View(): Rows
      reads this
    {
      Rows(runs, messages, receipts, steering)
    }

    constructor (rows: Rows)
      ensures View() == rows
    {
      runs, messages, receipts, steering := rows.runs, rows.messages, rows.receipts, rows.steering;
    }

    /** A transaction that throws leaves the rows it started from; `saved` may also be what other
        transactions have committed meanwhile. */
    method Restore(saved: Rows)
      modifies this
      ensures View() == saved
    {
      runs, messages, receipts, steering := saved.runs, saved.messages, saved.receipts, saved.steering;
    }

    method CancelSupersededQueuedRuns(bots: set<nat>, keep: set<nat>)
      modifies this`runs
      ensures runs == WithoutSuperseded(old(runs), bots, keep)
    {
      runs := map r | r in runs :: if r !in keep && Superseded(runs[r], bots) then runs[r].(status := Cancelled) else runs[r];
    }

    /** Answers waiting runs in query order; false when one cannot be answered with the text. */
    method AnswerAll(q: Send, waiting: seq<nat>) returns (answered: bool)
      requires forall r :: r in waiting ==> r in runs && runs[r].status == WaitingInput
      requires Distinct(waiting)
      modifies this`runs
      ensures answered <==> q.hasText && AllAnswerable(old(runs), waiting)
      ensures answered ==> runs == Answered(old(runs), waiting)
    {
      if !q.hasText { return false; }
      ghost var before := runs;
      assert Answered(before, waiting[..0]) == before;
      for i := 0 to |waiting|
        invariant runs == Answered(before, waiting[..i])
        invariant forall j :: 0 <= j < i ==> before[waiting[j]].answerable
      {
        if !runs[waiting[i]].answerable {
          assert waiting[i] in waiting && !before[waiting[i]].answerable;
          return false;
        }
        runs := runs[waiting[i] := runs[waiting[i]].(status := Queued)];
        assert waiting[..i + 1] == waiting[..i] + [waiting[i]];
      }
      assert waiting[..|waiting|] == waiting;
      return true;
    }

    /** The tail every branch shares: link the message to its first run and record the receipt. */
    method Record(q: Send, first: nat, ids: seq<nat>)
      requires q.message in messages && messages[q.message] == Message(q.seqNo, q.nonce, None)
      modifies this`messages, this`receipts
      ensures messages == old(messages)[q.message := Message(q.seqNo, q.nonce, Some(first))]
      ensures receipts == old(receipts)[q.message := ids]
    {
      messages := messages[q.message := messages[q.message].(run := Some(first))];
      receipts := receipts[q.message := ids];
    }

    /** The transaction has only inserted its message. */
    ghost predicate Started(saved: Rows, q: Send)
      reads this
    {
      && runs == saved.runs && receipts == saved.receipts && steering == saved.steering
      && messages == saved.messages[q.message := Message(q.seqNo, q.nonce, None)]
    }

    method AnswerDirect(q: Send, saved: Rows, waitingRuns: seq<nat>) returns (o: Outcome)
      requires Started(saved, q) && waitingRuns != [] && Distinct(waitingRuns)
      requires forall r :: r in waitingRuns ==> r in runs && runs[r].status == WaitingInput
      modifies this
      ensures o.Sent? <==> q.hasText && AllAnswerable(saved.runs, waitingRuns)
      ensures o.Sent? ==>
        && View() == Rows(Answered(saved.runs, waitingRuns),
                          saved.messages[q.message := Message(q.seqNo, q.nonce, Some(waitingRuns[0]))],
                          saved.receipts[q.message := waitingRuns], saved.steering)
        && waitingRuns[0] in runs && o.receipt == SendResult(q.seqNo, waitingRuns, runs)
      ensures o.Refused? ==> o.error == AnswerPendingAsk && View() == saved
    {
      var answered := AnswerAll(q, waitingRuns);
      if !answered {
        Restore(saved);
        return Refused(AnswerPendingAsk);
      }
      Record(q, waitingRuns[0], waitingRuns);
      assert waitingRuns[0] in waitingRuns;
      return Sent(SendResult(q.seqNo, waitingRuns, runs));
    }

    /** A direct send to a bot that waits for input. */
    method AnswerWaiting(q: Send, saved: Rows, waitingRuns: seq<nat>) returns (o: Outcome)
      requires Fits(saved, q) && !q.group && Started(saved, q)
      requires waitingRuns == Pick(saved.runs, q.found, q.targets[0], true) != []
      modifies this
      ensures o == if Blocked(saved, q) then Refused(AnswerPendingAsk) else Sent(ReceiptOf(saved, q))
      ensures View() == if o.Sent? then AfterSend(saved, q) else saved
    {
      WaitingPicked(saved, q);
      DirectAnswer(saved, q);
      o := AnswerDirect(q, saved, waitingRuns);
    }

    method SteerDirect(q: Send, saved: Rows) returns (o: Outcome)
      requires Fits(saved, q) && !q.group && Started(saved, q)
      requires Pick(saved.runs, q.found, q.targets[0], true) == [] && q.found != []
      modifies this
      ensures o == Sent(ReceiptOf(saved, q)) && View() == AfterSend(saved, q)
    {
      var active := q.found[0];
      steering := steering[(q.message, q.targets[0]) := Some(active)];
      Record(q, active, []);
      DirectSteer(saved, q);
      return Sent(SendResult(q.seqNo, [active], runs));
    }

    method CreateDirect(q: Send, saved: Rows) returns (o: Outcome)
      requires Fits(saved, q) && !q.group && Started(saved, q) && q.found == []
      modifies this
      ensures o == Sent(ReceiptOf(saved, q)) && View() == AfterSend(saved, q)
    {
      var bot, made := q.targets[0], q.news[0];
      runs := runs[made.run := NewRun(bot, made, q.message)];
      DirectCreate(saved, q);
      CancelSupersededQueuedRuns({bot}, {made.run});
      Record(q, made.run, [made.run]);
      return Sent(SendResult(q.seqNo, [made.run], runs));
    }

    method SendToBot(q: Send) returns (o: Outcome)
      requires Fits(View(), q) && !q.group
      modifies this
      ensures o == Committed(old(View()), q)
      ensures View() == if o.Sent? then AfterSend(old(View()), q) else old(View())
    {
      var saved := View();
      if Taken(messages, q.nonce) { return Refused(NonceTaken); }
      messages := messages[q.message := Message(q.seqNo, q.nonce, None)];
      var waitingRuns := Pick(runs, q.found, q.targets[0], true);
      if waitingRuns != [] {
        o := AnswerWaiting(q, saved, waitingRuns);
        return;
      }
      o := SteerOrCreate(q, saved);
    }

    /** What is left when no run waits for input. */
    method SteerOrCreate(q: Send, saved: Rows) returns (o: Outcome)
      requires Fits(saved, q) && !q.group && Started(saved, q)
      requires Pick(saved.runs, q.found, q.targets[0], true) == []
      modifies this
      ensures o == Sent(ReceiptOf(saved, q)) && View() == AfterSend(saved, q) && !Blocked(saved, q)
    {
      // no other active status is left, so the source's guard that refuses the rest never fires
      RestSteerable(saved, q);
      if q.found != [] {
        o := SteerDirect(q, saved);
      } else {
        o := CreateDirect(q, saved);
      }
    }
  
    /** One pass over the active runs: answer those that wait, remember one run to steer per bot. */
    method AnswerGroup(q: Send, saved: Rows)
      returns (answered: bool, answeredByBot: map<nat, seq<nat>>, activeByBot: map<nat, nat>)
      requires Started(saved, q) && Shaped(saved, q) && Distinct(q.found)
      modifies this`runs
      ensures answered <==> !Blocked(saved, q)
      ensures answered ==> runs == Answered(saved.runs, q.found) && Grouped(saved.runs, q.found, answeredByBot, activeByBot)
    {
      answeredByBot, activeByBot := map[], map[];
      NoneAnswered(saved.runs, []);
      for i := 0 to |q.found|
        invariant runs == Answered(saved.runs, q.found[..i])
        invariant Grouped(saved.runs, q.found[..i], answeredByBot, activeByBot)
        invariant forall j :: 0 <= j < i ==>
          saved.runs[q.found[j]].status == WaitingInput ==> q.hasText && saved.runs[q.found[j]].answerable
      {
        var r := q.found[i];
        var run := runs[r];
        GroupedOneMore(saved.runs, q.found[..i], r, answeredByBot, activeByBot);
        assert run == saved.runs[r] by { assert r !in q.found[..i]; }
        assert q.found[..i + 1] == q.found[..i] + [r];
        if run.status == WaitingInput {
          if !(q.hasText && run.answerable) {
            assert r in q.found;
            return false, answeredByBot, activeByBot;
          }
          runs := runs[r := run.(status := Queued)];
          answeredByBot :=
            answeredByBot[run.bot := (if run.bot in answeredByBot then answeredByBot[run.bot] else []) + [r]];
        } else if run.bot !in activeByBot {
          activeByBot := activeByBot[run.bot := r];
        }
      }
      assert q.found[..|q.found|] == q.found;
      return true, answeredByBot, activeByBot;
    }

    /** Serve one target: the runs to list for it. */
    method ServeTarget(q: Send, k: nat, answeredByBot: map<nat, seq<nat>>, activeByBot: map<nat, nat>, ghost saved: Rows)
      returns (ids: seq<nat>)
      requires Shaped(saved, q) && k < |q.targets|
      requires GroupedFor(saved.runs, q.found, answeredByBot, activeByBot, q.targets[k])
      modifies this`runs, this`steering
      ensures var way := WayFor(saved, q, k);
        && ids == Listed(way)
        && runs == (if way.Create? then old(runs)[q.news[k].run := NewRun(q.targets[k], q.news[k], q.message)] else old(runs))
        && steering == (if way.Steer? then old(steering)[(q.message, q.targets[k]) := Some(way.run)] else old(steering))
    {
      var bot, made := q.targets[k], q.news[k];
      if bot in answeredByBot { return answeredByBot[bot]; }
      if bot in activeByBot {
        steering := steering[(q.message, bot) := Some(activeByBot[bot])];
        return [activeByBot[bot]];
      }
      runs := runs[made.run := NewRun(bot, made, q.message)];
      return [made.run];
    }

    /** One pass over the targets, in order. */
    method ServeTargets(q: Send, answeredByBot: map<nat, seq<nat>>, activeByBot: map<nat, nat>, ghost saved: Rows)
      returns (listed: seq<nat>)
      requires Shaped(saved, q) && Grouped(saved.runs, q.found, answeredByBot, activeByBot)
      modifies this`runs, this`steering
      ensures listed == Listing(saved, q, |q.targets|)
      ensures runs == old(runs) + Created(saved, q, |q.targets|)
      ensures steering == old(steering) + Steered(saved, q, |q.targets|)
    {
      listed := [];
      assert Created(saved, q, 0) == map[] && Steered(saved, q, 0) == map[];
      for k := 0 to |q.targets|
        invariant listed == Listing(saved, q, k)
        invariant runs == old(runs) + Created(saved, q, k)
        invariant steering == old(steering) + Steered(saved, q, k)
      {
        GroupedAt(saved.runs, q.found, answeredByBot, activeByBot, q.targets[k]);
        ghost var way := WayFor(saved, q, k);
        if way.Create? {
          MergeUpdate(old(runs), Created(saved, q, k), q.news[k].run, NewRun(q.targets[k], q.news[k], q.message));
        } else if way.Steer? {
          MergeUpdate(old(steering), Steered(saved, q, k), (q.message, q.targets[k]), Some(way.run));
        }
        var ids := ServeTarget(q, k, answeredByBot, activeByBot, saved);
        listed := listed + ids;
        OneMoreTarget(saved, q, k);
      }
    }

    /** Supersede, link and record once every target is served. */
    method FinishGroup(
      q: Send, listed: seq<nat>, answeredByBot: map<nat, seq<nat>>, activeByBot: map<nat, nat>,
      ghost after: Rows, ghost receipt: Receipt) returns (o: Outcome)
      requires listed != [] && listed[0] in runs && receipt == SendResult(q.seqNo, listed, runs)
      requires q.message in messages && messages[q.message] == Message(q.seqNo, q.nonce, None)
      requires var created := CreatedAmong(listed, runs, answeredByBot, activeByBot);
        WithoutSuperseded(runs, BotsOf(created, runs), created) == runs
      requires after.runs == runs && after.steering == steering
      requires after.messages == messages[q.message := Message(q.seqNo, q.nonce, Some(listed[0]))]
      requires after.receipts == receipts[q.message := listed]
      modifies this
      ensures o == Sent(receipt) && View() == after
    {
      var createdRuns := CreatedAmong(listed, runs, answeredByBot, activeByBot);
      CancelSupersededQueuedRuns(BotsOf(createdRuns, runs), createdRuns);
      Record(q, listed[0], listed);
      return Sent(SendResult(q.seqNo, listed, runs));
    }

    /** What follows once the waiting runs are answered. */
    method ServeGroup(q: Send, saved: Rows, answeredByBot: map<nat, seq<nat>>, activeByBot: map<nat, nat>) returns (o: Outcome)
      requires Fits(saved, q) && q.group && Grouped(saved.runs, q.found, answeredByBot, activeByBot)
      requires runs == Answered(saved.runs, q.found) && receipts == saved.receipts && steering == saved.steering
      requires messages == saved.messages[q.message := Message(q.seqNo, q.nonce, None)]
      modifies this
      ensures o == if q.targets == [] then Refused(NoTarget) else Sent(ReceiptOf(saved, q))
      ensures View() == if q.targets == [] then saved else AfterSend(saved, q)
    {
      var listed := ServeTargets(q, answeredByBot, activeByBot, saved);
      if listed == [] {
        Restore(saved);
        return Refused(NoTarget);
      }
      GroupDone(saved, q, answeredByBot, activeByBot);
      o := FinishGroup(q, listed, answeredByBot, activeByBot, AfterSend(saved, q), ReceiptOf(saved, q));
    }

    method SendToGroup(q: Send) returns (o: Outcome)
      requires Fits(View(), q) && q.group
      modifies this
      ensures o == Committed(old(View()), q)
      ensures View() == if o.Sent? then AfterSend(old(View()), q) else old(View())
    {
      var saved := View();
      if Taken(messages, q.nonce) { return Refused(NonceTaken); }
      messages := messages[q.message := Message(q.seqNo, q.nonce, None)];
      var answered, answeredByBot, activeByBot := AnswerGroup(q, saved);
      if !answered {
        Restore(saved);
        return Refused(AnswerPendingAsk);
      }
      o := ServeGroup(q, saved, answeredByBot, activeByBot);
    }

    /** The receipt stored under a nonce, if its send can be rebuilt. */
    method ReplayExistingSend(nonce: Option<string>, byAge: seq<nat>) returns (receipt: Option<Receipt>)
      requires Sound(View()) && forall r :: r in byAge ==> r in runs
      ensures receipt == Replayed(View(), nonce, byAge)
    {
      if !Taken(messages, nonce) { return None; }
      var m :| m in messages && messages[m].nonce == nonce;
      return ReplayOf(View(), m, byAge);
    }

    /** The whole call. `raced` is what other transactions have made of the rows between the first
        replay and this call's own transaction, and `q` is phrased for those rows. */
    method SendThreadMessage(q: Send, byAge: seq<nat>, raced: Rows, racedByAge: seq<nat>) returns (o: Outcome)
      requires Sound(View()) && forall r :: r in byAge ==> r in runs
      requires Sound(raced) && Fits(raced, q) && forall r :: r in racedByAge ==> r in raced.runs
      modifies this
      ensures var existing := Replayed(old(View()), q.nonce, byAge);
        existing.Some? ==> o == Sent(existing.value) && View() == old(View())
      ensures Replayed(old(View()), q.nonce, byAge).None? ==>
        if Committed(raced, q).Sent? then o == Committed(raced, q) && View() == AfterSend(raced, q)
        else
          && View() == raced
          && o == (if Replayed(raced, q.nonce, racedByAge).Some? then Sent(Replayed(raced, q.nonce, racedByAge).value)
                   else Committed(raced, q))
    {
      var existing := ReplayExistingSend(q.nonce, byAge);
      if existing.Some? { return Sent(existing.value); }
      Restore(raced);
      if q.group { o := SendToGroup(q); } else { o := SendToBot(q); }
      if o.Refused? {
        var winner := ReplayExistingSend(q.nonce, racedByAge);
        if winner.Some? { o := Sent(winner.value); }
      }
    }
  }

  ghost function Replayed(rows: Rows, nonce: Option<string>, byAge: seq<nat>): Option<Receipt>
    requires forall r :: r in byAge ==> r in rows.runs
  {
    if Taken(rows.messages, nonce) then
      var m :| m in rows.messages && rows.messages[m].nonce == nonce;
      ReplayOf(rows, m, byAge)
    else None
  }

  /** Whatever happens after a send commits, a second send under its nonce changes nothing and, while
      the first one's runs exist, answers with its receipt; direct steering keeps that promise until
      a later run is sourced at its message. */
  lemma SameNonceSameReceipt(rows: Rows, q: Send, b: Rows, again: Send, byAge: seq<nat>)
    requires Sound(rows) && Fits(rows, q) && q.targets != [] && q.nonce.Some? && Later(AfterSend(rows, q), b)
    requires Sound(b) && Fits(b, again) && again.nonce == q.nonce
    requires forall r :: r in Listing(rows, q, |q.targets|) ==> r in b.runs
    requires forall r :: r in byAge <==> r in b.runs
    ensures Committed(b, again) == Refused(NonceTaken)
    ensures Replayed(b, again.nonce, byAge) == Some(ReceiptOf(rows, q)) <==>
      !(SteersAlone(rows, q) && exists r :: r in b.runs && b.runs[r].source == Some(q.message))
  {
    MessageKept(rows, q, b);
    ReplayRebuildsReceipt(rows, q, b, byAge);
  }

  /** Nonces stay unique and references stay intact. */
  lemma SendStaysSound(rows: Rows, q: Send)
    requires Sound(rows) && Fits(rows, q) && Committed(rows, q).Sent?
    ensures Sound(AfterSend(rows, q))
  {
    NoncesStayUnique(rows, q);
    SourcesStayStored(rows, q);
    SteeredBy(rows, q, |q.targets|);
  }

  lemma NoncesStayUnique(rows: Rows, q: Send)
    requires Sound(rows) && Fits(rows, q) && Committed(rows, q).Sent?
    ensures var messages := AfterSend(rows, q).messages;
      forall m, n | m in messages && n in messages && messages[m].nonce.Some? :: messages[m].nonce == messages[n].nonce ==> m == n
  {
  }

  lemma SourcesStayStored(rows: Rows, q: Send)
    requires Sound(rows) && Fits(rows, q) && Committed(rows, q).Sent?
    ensures var after := AfterSend(rows, q);
      forall r :: r in after.runs && after.runs[r].source.Some? ==> after.runs[r].source.value in after.messages
  {
    var after := AfterSend(rows, q);
    RunsAfterSend(rows, q);
    SourcesIn(rows, q, after.runs, after.messages);
  }

  lemma SourcesIn(rows: Rows, q: Send, runs: map<nat, Run>, messages: map<nat, Message>)
    requires Sound(rows) && Shaped(rows, q) && RunsLeft(rows, q, runs)
    requires q.message in messages && forall m :: m in rows.messages ==> m in messages
    ensures forall r :: r in runs && runs[r].source.Some? ==> runs[r].source.value in messages
  {
    forall r | r in runs && runs[r].source.Some? ensures runs[r].source.value in messages {
      if r in rows.runs { assert runs[r] == Requeued(rows, q, r); } else { NewSource(rows, q, runs, r); }
    }
  }

  lemma NewSource(rows: Rows, q: Send, runs: map<nat, Run>, r: nat)
    requires Shaped(rows, q) && RunsLeft(rows, q, runs) && r in runs && r !in rows.runs
    ensures runs[r].source == Some(q.message)
  {
    var k :| 0 <= k < |q.news| && r == q.news[k].run;
    assert CreatedRight(rows, q, runs, k);
  }

  /** A send that commits answers with a receipt that lists every target's runs. */
  lemma SentLists(rows: Rows, q: Send)
    requires Sound(rows) && Fits(rows, q)
    ensures Committed(rows, q).Sent? <==> !Taken(rows.messages, q.nonce) && !Blocked(rows, q) && q.targets != []
    ensures Committed(rows, q).Sent? ==> Lists(rows, q, Committed(rows, q).receipt)
  {
    if q.targets != [] { ReceiptLists(rows, q); }
  }

  /** The two per-bot maps hold each bot's waiting runs and its first other run. */
  ghost predicate Grouped(runs: map<nat, Run>, found: seq<nat>, answeredByBot: map<nat, seq<nat>>, activeByBot: map<nat, nat>)
    requires forall r :: r in found ==> r in runs
  {
    forall bot :: GroupedFor(runs, found, answeredByBot, activeByBot, bot)
  }

  ghost predicate GroupedFor(
    runs: map<nat, Run>, found: seq<nat>, answeredByBot: map<nat, seq<nat>>, activeByBot: map<nat, nat>, bot: nat)
    requires forall r :: r in found ==> r in runs
  {
    var waiting, active := Pick(runs, found, bot, true), Pick(runs, found, bot, false);
    && (bot in answeredByBot <==> waiting != []) && (bot in answeredByBot ==> answeredByBot[bot] == waiting)
    && (bot in activeByBot <==> active != []) && (bot in activeByBot ==> activeByBot[bot] == active[0])
  }

  lemma GroupedAt(
    runs: map<nat, Run>, found: seq<nat>, answeredByBot: map<nat, seq<nat>>, activeByBot: map<nat, nat>, bot: nat)
    requires forall r :: r in found ==> r in runs
    requires Grouped(runs, found, answeredByBot, activeByBot)
    ensures GroupedFor(runs, found, answeredByBot, activeByBot, bot)
  {
  }

  lemma PickOneMore(runs: map<nat, Run>, found: seq<nat>, r: nat, bot: nat, waiting: bool)
    requires r in runs && forall o :: o in found ==> o in runs
    ensures var more := if runs[r].bot == bot && (runs[r].status == WaitingInput <==> waiting) then [r] else [];
      Pick(runs, found + [r], bot, waiting) == Pick(runs, found, bot, waiting) + more
  {
    assert (found + [r])[..|found|] == found;
  }

  lemma GroupedOneMore(runs: map<nat, Run>, found: seq<nat>, r: nat, answeredByBot: map<nat, seq<nat>>, activeByBot: map<nat, nat>)
    requires r in runs && forall o :: o in found ==> o in runs
    requires Grouped(runs, found, answeredByBot, activeByBot)
    ensures var bot := runs[r].bot;
      if runs[r].status == WaitingInput then
        Grouped(runs, found + [r], answeredByBot[bot := (if bot in answeredByBot then answeredByBot[bot] else []) + [r]], activeByBot)
      else
        Grouped(runs, found + [r], answeredByBot, if bot in activeByBot then activeByBot else activeByBot[bot := r])
  {
    var mine := runs[r].bot;
    var answered' := if runs[r].status == WaitingInput
      then answeredByBot[mine := (if mine in answeredByBot then answeredByBot[mine] else []) + [r]] else answeredByBot;
    var active' := if runs[r].status == WaitingInput || mine in activeByBot then activeByBot else activeByBot[mine := r];
    forall bot: nat ensures GroupedFor(runs, found + [r], answered', active', bot) {
      PickOneMore(runs, found, r, bot, true);
      PickOneMore(runs, found, r, bot, false);
      GroupedAt(runs, found, answeredByBot, activeByBot, bot);
    }
  }

  lemma MergeUpdate<K, V>(a: map<K, V>, b: map<K, V>, k: K, v: V)
    ensures (a + b)[k := v] == a + b[k := v]
  {
  }

  lemma OneMoreTarget(rows: Rows, q: Send, k: nat)
    requires Shaped(rows, q) && k < |q.targets|
    ensures var way := WayFor(rows, q, k);
      && Listing(rows, q, k + 1) == Listing(rows, q, k) + Listed(way)
      && Created(rows, q, k + 1) == (if way.Create?
           then Created(rows, q, k)[q.news[k].run := NewRun(q.targets[k], q.news[k], q.message)] else Created(rows, q, k))
      && Steered(rows, q, k + 1) == (if way.Steer?
           then Steered(rows, q, k)[(q.message, q.targets[k]) := Some(way.run)] else Steered(rows, q, k))
  {
  }

  /** The listed runs of bots that were neither answered nor steered. */
  function CreatedAmong(listed: seq<nat>, runs: map<nat, Run>, answeredByBot: map<nat, seq<nat>>, activeByBot: map<nat, nat>): set<nat> {
    set r | r in listed && r in runs && runs[r].bot !in activeByBot && runs[r].bot !in answeredByBot
  }

  function BotsOf(ids: set<nat>, runs: map<nat, Run>): set<nat> {
    set r | r in ids && r in runs :: runs[r].bot
  }

  /** The runs a group send created, and the bots it created them for, leave nothing to supersede. */
  lemma GroupSupersedes(
    rows: Rows, q: Send, answeredByBot: map<nat, seq<nat>>, activeByBot: map<nat, nat>, listed: seq<nat>, runs: map<nat, Run>)
    requires Fits(rows, q) && q.group && q.targets != [] && Grouped(rows.runs, q.found, answeredByBot, activeByBot)
    requires listed == Listing(rows, q, |q.targets|) && runs == AfterSend(rows, q).runs
    ensures var created := CreatedAmong(listed, runs, answeredByBot, activeByBot);
      WithoutSuperseded(runs, BotsOf(created, runs), created) == runs
  {
    var created := CreatedAmong(listed, runs, answeredByBot, activeByBot);
    var bots := BotsOf(created, runs);
    AfterOwned(rows, q);
    ListingOwned(rows, q, runs, |q.targets|);
    assert forall b :: b in bots ==> b in q.targets && b !in activeByBot && b !in answeredByBot;
    forall k | 0 <= k < |q.targets| && q.targets[k] in bots
      ensures q.news[k].run in created && Live(rows.runs, q.targets[k], true) == {}
    {
      CreatedTarget(rows, q, answeredByBot, activeByBot, k);
    }
    NothingSuperseded(rows, q, bots, created);
  }

  lemma ReceiptListed(rows: Rows, q: Send)
    requires Fits(rows, q) && q.targets != []
    ensures var runs, listed := AfterSend(rows, q).runs, Listing(rows, q, |q.targets|);
      listed[0] in runs && ReceiptOf(rows, q) == SendResult(q.seqNo, listed, runs)
  {
    AfterOwned(rows, q);
    ListingOwned(rows, q, AfterSend(rows, q).runs, |q.targets|);
  }

  /** All that is left to do for a group once its targets are served. */
  lemma GroupDone(rows: Rows, q: Send, answeredByBot: map<nat, seq<nat>>, activeByBot: map<nat, nat>)
    requires Fits(rows, q) && q.group && q.targets != [] && Grouped(rows.runs, q.found, answeredByBot, activeByBot)
    ensures var runs, listed := AfterSend(rows, q).runs, Listing(rows, q, |q.targets|);
      var created := CreatedAmong(listed, runs, answeredByBot, activeByBot);
      && WithoutSuperseded(runs, BotsOf(created, runs), created) == runs
      && listed != [] && listed[0] in runs && ReceiptOf(rows, q) == SendResult(q.seqNo, listed, runs)
      && AfterSend(rows, q).messages == rows.messages[q.message := Message(q.seqNo, q.nonce, Some(listed[0]))]
      && AfterSend(rows, q).receipts == rows.receipts[q.message := listed]
  {
    GroupSupersedes(rows, q, answeredByBot, activeByBot, Listing(rows, q, |q.targets|), AfterSend(rows, q).runs);
    ReceiptListed(rows, q);
  }

  lemma CreatedTarget(rows: Rows, q: Send, answeredByBot: map<nat, seq<nat>>, activeByBot: map<nat, nat>, k: nat)
    requires Fits(rows, q) && q.group && k < |q.targets| && Grouped(rows.runs, q.found, answeredByBot, activeByBot)
    requires q.targets[k] !in activeByBot && q.targets[k] !in answeredByBot
    ensures var runs := AfterSend(rows, q).runs;
      && q.news[k].run in Listing(rows, q, |q.targets|) && q.news[k].run in runs && runs[q.news[k].run].bot == q.targets[k]
      && Live(rows.runs, q.targets[k], true) == {}
  {
    GroupedAt(rows.runs, q.found, answeredByBot, activeByBot, q.targets[k]);
    assert WayFor(rows, q, k).Create?;
    WayMeans(rows, q, k);
    CreatedAt(rows, q, |q.targets|, k);
    AfterOwned(rows, q);
    ListingFor(rows, q, AfterSend(rows, q).runs, |q.targets|, k);
    assert q.news[k].run in Listed(WayFor(rows, q, k));
  }

  /** The waiting runs of a direct send, and when they can all be answered. */
  lemma WaitingPicked(rows: Rows, q: Send)
    requires Fits(rows, q) && !q.group && Pick(rows.runs, q.found, q.targets[0], true) != []
    ensures forall r :: r in Pick(rows.runs, q.found, q.targets[0], true) ==> r in rows.runs && rows.runs[r].status == WaitingInput
    ensures Distinct(Pick(rows.runs, q.found, q.targets[0], true))
    ensures !Blocked(rows, q) <==>
      q.hasText && AllAnswerable(rows.runs, Pick(rows.runs, q.found, q.targets[0], true))
  {
    var waiting := Pick(rows.runs, q.found, q.targets[0], true);
    PickDistinct(rows.runs, q.found, q.targets[0], true);
    PickMembers(rows.runs, q.found, q.targets[0], true);
    assert waiting[0] in waiting;
  }

  lemma RestSteerable(rows: Rows, q: Send)
    requires Fits(rows, q) && !q.group && Pick(rows.runs, q.found, q.targets[0], true) == []
    ensures !Blocked(rows, q) && forall r :: r in q.found ==> Steerable(rows.runs[r].status)
  {
    PickMembers(rows.runs, q.found, q.targets[0], true);
  }

  lemma {:induction false} PickAll(runs: map<nat, Run>, found: seq<nat>, bot: nat)
    requires forall r :: r in found ==> r in runs && runs[r].bot == bot
    ensures Pick(runs, found, bot, true) == [] ==> Pick(runs, found, bot, false) == found
  {
    if found != [] {
      var n := |found| - 1;
      PickAll(runs, found[..n], bot);
      assert found == found[..n] + [found[n]];
    }
  }

  lemma DirectWay(rows: Rows, q: Send)
    requires Fits(rows, q) && !q.group
    ensures Listing(rows, q, 1) == Listed(WayFor(rows, q, 0))
    ensures Created(rows, q, 1) ==
      if WayFor(rows, q, 0).Create? then map[q.news[0].run := NewRun(q.targets[0], q.news[0], q.message)] else map[]
    ensures Steered(rows, q, 1) ==
      if WayFor(rows, q, 0).Steer? then map[(q.message, q.targets[0]) := Some(WayFor(rows, q, 0).run)] else map[]
  {
    assert Listing(rows, q, 0) == [] && Created(rows, q, 0) == map[] && Steered(rows, q, 0) == map[];
  }

  /** A direct send's rows, from how its one target is served and what became of the found runs. */
  lemma DirectAfter(rows: Rows, q: Send, answered: map<nat, Run>)
    requires Shaped(rows, q) && !q.group && |q.targets| == 1 && answered == Answered(rows.runs, q.found)
    requires Listing(rows, q, 1) == Listed(WayFor(rows, q, 0))
    requires Created(rows, q, 1) ==
      if WayFor(rows, q, 0).Create? then map[q.news[0].run := NewRun(q.targets[0], q.news[0], q.message)] else map[]
    requires Steered(rows, q, 1) ==
      if WayFor(rows, q, 0).Steer? then map[(q.message, q.targets[0]) := Some(WayFor(rows, q, 0).run)] else map[]
    ensures var linked := rows.messages[q.message := Message(q.seqNo, q.nonce, Some(Listing(rows, q, 1)[0]))];
      AfterSend(rows, q) ==
        match WayFor(rows, q, 0)
        case Answer(waiting) => Rows(answered, linked, rows.receipts[q.message := waiting], rows.steering)
        case Steer(run) =>
          Rows(answered, linked, rows.receipts[q.message := []], rows.steering[(q.message, q.targets[0]) := Some(run)])
        case Create(made) =>
          Rows(answered[made.run := NewRun(q.targets[0], made, q.message)], linked,
               rows.receipts[q.message := [made.run]], rows.steering)
  {
    MergeNone(answered);
    MergeNone(rows.steering);
    MergeUpdate(answered, map[], q.news[0].run, NewRun(q.targets[0], q.news[0], q.message));
  }

  lemma MergeNone<K, V>(a: map<K, V>)
    ensures a + map[] == a
  {
  }

  lemma DirectAnswer(rows: Rows, q: Send)
    requires Fits(rows, q) && !q.group
    requires Pick(rows.runs, q.found, q.targets[0], true) != []
    ensures var waiting := Pick(rows.runs, q.found, q.targets[0], true);
      var after := Rows(Answered(rows.runs, waiting), rows.messages[q.message := Message(q.seqNo, q.nonce, Some(waiting[0]))],
                        rows.receipts[q.message := waiting], rows.steering);
      AfterSend(rows, q) == after && waiting[0] in after.runs && ReceiptOf(rows, q) == SendResult(q.seqNo, waiting, after.runs)
  {
    DirectWay(rows, q);
    DirectAfter(rows, q, Answered(rows.runs, q.found));
    AnsweredPicked(rows, q);
  }

  lemma AnsweredPicked(rows: Rows, q: Send)
    requires Fits(rows, q) && !q.group
    ensures var waiting := Pick(rows.runs, q.found, q.targets[0], true);
      Answered(rows.runs, q.found) == Answered(rows.runs, waiting) && (waiting != [] ==> waiting[0] in rows.runs)
  {
    var waiting := Pick(rows.runs, q.found, q.targets[0], true);
    PickMembers(rows.runs, q.found, q.targets[0], true);
    if waiting != [] { assert waiting[0] in waiting; }
    AnsweredSame(rows.runs, q.found, waiting);
  }

  lemma AnsweredSame(runs: map<nat, Run>, a: seq<nat>, b: seq<nat>)
    requires forall r :: r in runs && runs[r].status == WaitingInput ==> (r in a <==> r in b)
    ensures Answered(runs, a) == Answered(runs, b)
  {
  }

  lemma NoneWait(rows: Rows, q: Send)
    requires Fits(rows, q) && !q.group && Pick(rows.runs, q.found, q.targets[0], true) == []
    ensures WayFor(rows, q, 0) == if q.found == [] then Create(q.news[0]) else Steer(q.found[0])
    ensures Answered(rows.runs, q.found) == rows.runs
  {
    PickAll(rows.runs, q.found, q.targets[0]);
    PickMembers(rows.runs, q.found, q.targets[0], true);
    NoneAnswered(rows.runs, q.found);
  }

  lemma NoneAnswered(runs: map<nat, Run>, found: seq<nat>)
    requires forall r :: r in found && r in runs ==> runs[r].status != WaitingInput
    ensures Answered(runs, found) == runs
  {
  }

  lemma DirectSteer(rows: Rows, q: Send)
    requires Fits(rows, q) && !q.group
    requires Pick(rows.runs, q.found, q.targets[0], true) == [] && q.found != []
    ensures var run := q.found[0];
      var after := Rows(rows.runs, rows.messages[q.message := Message(q.seqNo, q.nonce, Some(run))],
                        rows.receipts[q.message := []], rows.steering[(q.message, q.targets[0]) := Some(run)]);
      AfterSend(rows, q) == after && run in after.runs && ReceiptOf(rows, q) == SendResult(q.seqNo, [run], after.runs)
  {
    DirectWay(rows, q);
    NoneWait(rows, q);
    DirectAfter(rows, q, rows.runs);
  }

  lemma DirectCreate(rows: Rows, q: Send)
    requires Fits(rows, q) && !q.group && q.found == []
    ensures var made := q.news[0];
      var after := Rows(rows.runs[made.run := NewRun(q.targets[0], made, q.message)],
                        rows.messages[q.message := Message(q.seqNo, q.nonce, Some(made.run))],
                        rows.receipts[q.message := [made.run]], rows.steering);
      && AfterSend(rows, q) == after && ReceiptOf(rows, q) == SendResult(q.seqNo, [made.run], after.runs)
      && WithoutSuperseded(after.runs, {q.targets[0]}, {made.run}) == after.runs
  {
    DirectWay(rows, q);
    NoneWait(rows, q);
    DirectAfter(rows, q, rows.runs);
    DirectSupersedes(rows, q);
  }

  lemma DirectSupersedes(rows: Rows, q: Send)
    requires Fits(rows, q) && !q.group && WayFor(rows, q, 0).Create?
    ensures WithoutSuperseded(AfterSend(rows, q).runs, {q.targets[0]}, {q.news[0].run}) == AfterSend(rows, q).runs
  {
    WayMeans(rows, q, 0);
    NothingSuperseded(rows, q, {q.targets[0]}, {q.news[0].run});
  }
}
