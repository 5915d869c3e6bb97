/** evaluateAmbient: the observed batch, grouped by conversation, judged and acted on. */
module TeamChatAmbient {
  import opened Wrappers
  import opened TeamChatRow

  const AMBIENT_CONTEXT_MESSAGES: nat := 20

  datatype Mode = IgnoreSender | Rollup(hours: nat) | ActionSender

  /** What evaluateAmbient reads of an observed message; `row` is its place in the table. */
  datatype Message = Message(
    row: nat, conversation: nat, event: string, sender: string, senderName: string, senderIsBot: bool, createdAt: nat)

  /** `act`, the judge's reason, and the event it says asked. */
  datatype Decision = Decision(act: bool, reason: Option<string>, askedBy: Option<string>)

  /** A conversation's settings; senders without a policy are ignored when they are bots.
      `due` names the rollup senders whose last judged message is old enough. */
  datatype Conversation = Conversation(enabled: bool, policy: map<string, Mode>, due: set<string>)

  // ---- grouping ----

  datatype Group = Group(conversation: nat, messages: seq<Message>)

  function Of(batch: seq<Message>, conversation: nat): seq<Message> {
    if batch == [] then []
    else (if batch[0].conversation == conversation then [batch[0]] else []) + Of(batch[1..], conversation)
  }

  lemma {:induction false} OfSnoc(batch: seq<Message>, m: Message, conversation: nat)
    ensures Of(batch + [m], conversation)
         == Of(batch, conversation) + (if m.conversation == conversation then [m] else [])
  {
    if batch != [] {
      assert (batch + [m])[0] == batch[0] && (batch + [m])[1..] == batch[1..] + [m];
      OfSnoc(batch[1..], m, conversation);
    } else {
      assert batch + [m] == [m];
    }
  }

  predicate Seen(groups: seq<Group>, conversation: nat) {
    exists g :: 0 <= g < |groups| && groups[g].conversation == conversation
  }

  /** The groups are the batch split by conversation: one group each, in order of first
      appearance, holding exactly that conversation's messages in batch order. */
  ghost predicate Partition(groups: seq<Group>, batch: seq<Message>) {
    && (forall g :: 0 <= g < |groups| ==> groups[g].messages == Of(batch, groups[g].conversation) != [])
    && (forall g, h :: 0 <= g < h < |groups| ==> groups[g].conversation != groups[h].conversation)
    && (forall k :: 0 <= k < |batch| ==> Seen(groups, batch[k].conversation))
  }

  /** The map built so far: its keys in insertion order, each with its messages of the prefix. */
  ghost predicate Grouped(order: seq<nat>, groups: map<nat, seq<Message>>, batch: seq<Message>) {
    && (forall c :: c in order <==> c in groups)
    && (forall g, h :: 0 <= g < h < |order| ==> order[g] != order[h])
    && (forall c :: c in order ==> groups[c] == Of(batch, c) && groups[c] != [])
    && (forall c :: c !in order ==> Of(batch, c) == [])
    && (forall k :: 0 <= k < |batch| ==> batch[k].conversation in order)
  }

  lemma GroupedMore(order: seq<nat>, groups: map<nat, seq<Message>>, batch: seq<Message>, m: Message)
    requires Grouped(order, groups, batch) && m.conversation in groups
    ensures var c := m.conversation; Grouped(order, groups[c := groups[c] + [m]], batch + [m])
  {
    forall d { OfSnoc(batch, m, d); }
  }

  lemma GroupedNew(order: seq<nat>, groups: map<nat, seq<Message>>, batch: seq<Message>, m: Message)
    requires Grouped(order, groups, batch) && m.conversation !in groups
    ensures var c := m.conversation; Grouped(order + [c], groups[c := [m]], batch + [m])
  {
    var c := m.conversation;
    forall d { OfSnoc(batch, m, d); }
    assert Of(batch, c) == [];
    NewInOrder(order, c);
  }

  lemma NewInOrder(order: seq<nat>, c: nat)
    ensures forall d :: d in order + [c] <==> d in order || d == c
  {
  }

  lemma GroupedSnoc(order: seq<nat>, groups: map<nat, seq<Message>>, batch: seq<Message>, m: Message)
    requires Grouped(order, groups, batch)
    ensures var c := m.conversation;
      if c in groups then Grouped(order, groups[c := groups[c] + [m]], batch + [m])
      else Grouped(order + [c], groups[c := [m]], batch + [m])
  {
    if m.conversation in groups { GroupedMore(order, groups, batch, m); } else { GroupedNew(order, groups, batch, m); }
  }

  /** The groups in insertion order are a partition. */
  lemma GroupedPartition(order: seq<nat>, byConversation: map<nat, seq<Message>>, batch: seq<Message>, groups: seq<Group>)
    requires Grouped(order, byConversation, batch) && |groups| == |order|
    requires forall g :: 0 <= g < |order| ==> order[g] in byConversation && groups[g] == Group(order[g], byConversation[order[g]])
    ensures Partition(groups, batch)
  {
    forall j | 0 <= j < |batch| ensures Seen(groups, batch[j].conversation) {
      assert batch[j].conversation in order;
      var g :| 0 <= g < |order| && order[g] == batch[j].conversation;
      assert groups[g].conversation == batch[j].conversation;
    }
  }

  /** The loop over the batch with its map from conversation to messages. */
  method GroupByConversation(batch: seq<Message>) returns (groups: seq<Group>)
    ensures Partition(groups, batch)
  {
    var order: seq<nat> := [];
    var byConversation: map<nat, seq<Message>> := map[];
    var k := 0;
    while k < |batch|
      invariant 0 <= k <= |batch| && Grouped(order, byConversation, batch[..k])
    {
      var c := batch[k].conversation;
      GroupedSnoc(order, byConversation, batch[..k], batch[k]);
      assert batch[..k + 1] == batch[..k] + [batch[k]];
      if c in byConversation {
        byConversation := byConversation[c := byConversation[c] + [batch[k]]];
      } else {
        order := order + [c];
        byConversation := byConversation[c := [batch[k]]];
      }
      k := k + 1;
    }
    assert batch[..k] == batch;
    groups := seq(|order|, g requires 0 <= g < |order| && order[g] in byConversation =>
      Group(order[g], byConversation[order[g]]));
    GroupedPartition(order, byConversation, batch, groups);
  }

  // ---- one conversation ----

  predicate IgnoredSender(conv: Conversation, m: Message) {
    m.senderIsBot && (m.sender !in conv.policy || conv.policy[m.sender] == IgnoreSender)
  }

  predicate Immediate(conv: Conversation, m: Message) {
    !m.senderIsBot || m.sender !in conv.policy || !conv.policy[m.sender].Rollup?
  }

  function Keep(messages: seq<Message>, p: Message -> bool): (kept: seq<Message>)
    ensures forall m :: m in kept <==> m in messages && p(m)
  {
    if messages == [] then []
    else (if p(messages[0]) then [messages[0]] else []) + Keep(messages[1..], p)
  }

  /** The first message of `messages` that `p` accepts, or `otherwise`. */
  function First(messages: seq<Message>, p: Message -> bool, otherwise: Message): (m: Message)
    ensures m in messages || m == otherwise
  {
    if messages == [] then otherwise
    else if p(messages[0]) then messages[0] else First(messages[1..], p, otherwise)
  }

  function Reverse(messages: seq<Message>): (r: seq<Message>)
    ensures forall m :: m in r <==> m in messages
  {
    if messages == [] then [] else Reverse(messages[1..]) + [messages[0]]
  }

  function Tail(messages: seq<Message>, n: nat): seq<Message> {
    if |messages| <= n then messages else messages[|messages| - n..]
  }

  function RowsOf(messages: seq<Message>): set<nat> {
    set m | m in messages :: m.row
  }

  /** The table after `markAmbientIgnored` on these rows. */
  function IgnoreAll(rows: seq<Row>, ids: set<nat>): (rows': seq<Row>)
    ensures |rows'| == |rows|
    ensures forall i :: 0 <= i < |rows| ==> rows'[i] == if i in ids then AmbientIgnore(rows[i]) else rows[i]
  {
    seq(|rows|, i requires 0 <= i < |rows| => if i in ids then AmbientIgnore(rows[i]) else rows[i])
  }

  function Candidates(conv: Conversation, messages: seq<Message>): seq<Message> {
    Keep(messages, m => !IgnoredSender(conv, m))
  }

  /** Candidates at once if any of them is immediate, otherwise the due rollups. */
  function Evaluated(conv: Conversation, messages: seq<Message>): seq<Message> {
    var candidates := Candidates(conv, messages);
    if (exists m :: m in candidates && Immediate(conv, m)) then candidates
    else Keep(candidates, (m: Message) => m.sender in conv.due)
  }

  predicate Actionable(conv: Conversation, m: Message) {
    m.senderIsBot && m.sender in conv.policy && conv.policy[m.sender] == ActionSender
  }

  /** Whether the conversation is quiet long enough to be judged now. */
  predicate Quiet(evaluated: seq<Message>, cutoff: int) {
    evaluated != [] && evaluated[|evaluated| - 1].createdAt <= cutoff
  }

  /** The decision used: an actionable sender overrides the judge. */
  function Decide(conv: Conversation, judged: seq<Message>, judge: Decision): Decision {
    if exists m :: m in judged && Actionable(conv, m) then
      var m := First(Reverse(judged), m => Actionable(conv, m), judged[0]);
      Decision(true, Some(m.senderName + " is configured as actionable."), Some(m.event))
    else judge
  }

  function Trigger(judged: seq<Message>, decision: Decision, latest: Message): (t: Message)
    ensures t in judged || t == latest
  {
    First(judged, (m: Message) => Some(m.event) == decision.askedBy, latest)
  }

  function AsReason(reason: Option<string>): Reason {
    if reason.Some? then Text(reason.value) else NoReason
  }

  function DecisionOn(evaluated: seq<Message>, conv: Conversation, judge: Decision): Decision {
    Decide(conv, Tail(evaluated, AMBIENT_CONTEXT_MESSAGES), judge)
  }

  function TriggerOf(evaluated: seq<Message>, conv: Conversation, judge: Decision): (t: Message)
    requires evaluated != []
    ensures t in evaluated
  {
    var judged := Tail(evaluated, AMBIENT_CONTEXT_MESSAGES);
    assert forall m :: m in judged ==> m in evaluated;
    Trigger(judged, DecisionOn(evaluated, conv, judge), evaluated[|evaluated| - 1])
  }

  /** Who is judged: not a bot without a policy or told to be ignored; all others at once if any of them is a
      person or a bot that is not on a rollup, and otherwise those whose rollup is due. */
  lemma EvaluatedMeans(conv: Conversation, messages: seq<Message>, m: Message)
    ensures var candidate := (o: Message) =>
        o in messages && (!o.senderIsBot || (o.sender in conv.policy && conv.policy[o.sender] != IgnoreSender));
      m in Evaluated(conv, messages) <==>
        && candidate(m)
        && (m.sender in conv.due
            || exists o :: candidate(o) && (!o.senderIsBot || !conv.policy[o.sender].Rollup?))
  {
  }

  /** Keeping takes the accepted messages and no others, each once, in order. */
  lemma {:induction false} KeepSnoc(messages: seq<Message>, m: Message, p: Message -> bool)
    ensures Keep([], p) == []
    ensures Keep(messages + [m], p) == Keep(messages, p) + (if p(m) then [m] else [])
  {
    if messages == [] {
      assert [] + [m] == [m];
    } else {
      assert (messages + [m])[0] == messages[0] && (messages + [m])[1..] == messages[1..] + [m];
      KeepSnoc(messages[1..], m, p);
    }
  }

  lemma {:induction false} FirstMeans(messages: seq<Message>, p: Message -> bool, otherwise: Message)
    ensures (forall m :: m in messages ==> !p(m)) ==> First(messages, p, otherwise) == otherwise
    ensures forall k :: 0 <= k < |messages| && p(messages[k]) && (forall j :: 0 <= j < k ==> !p(messages[j])) ==>
      First(messages, p, otherwise) == messages[k]
  {
    if messages != [] {
      FirstMeans(messages[1..], p, otherwise);
      assert forall m :: m in messages[1..] ==> m in messages;
      forall k | 0 < k < |messages| && p(messages[k]) && (forall j :: 0 <= j < k ==> !p(messages[j]))
        ensures First(messages, p, otherwise) == messages[k]
      {
        assert messages[1..][k - 1] == messages[k] && !p(messages[0]);
        assert forall j :: 0 <= j < k - 1 ==> messages[1..][j] == messages[j + 1];
      }
    }
  }

  lemma {:induction false} ReverseMeans(messages: seq<Message>)
    ensures |Reverse(messages)| == |messages|
    ensures forall k :: 0 <= k < |messages| ==> Reverse(messages)[k] == messages[|messages| - 1 - k]
  {
    if messages != [] { ReverseMeans(messages[1..]); }
  }

  function ActsFor(m: Message): Decision {
    Decision(true, Some(m.senderName + " is configured as actionable."), Some(m.event))
  }

  /** The newest of the last twenty messages whose sender is set to be acted on decides, by name; without
      one the judge does. */
  lemma DecisionMeans(evaluated: seq<Message>, conv: Conversation, judge: Decision)
    ensures var judged := if |evaluated| <= 20 then evaluated else evaluated[|evaluated| - 20..];
      && ((forall m :: m in judged ==> !Actionable(conv, m)) ==> DecisionOn(evaluated, conv, judge) == judge)
      && forall k | 0 <= k < |judged| && Actionable(conv, judged[k])
                    && (forall j :: k < j < |judged| ==> !Actionable(conv, judged[j]))
           :: DecisionOn(evaluated, conv, judge) == ActsFor(judged[k])
  {
    var judged := Tail(evaluated, AMBIENT_CONTEXT_MESSAGES);
    ReverseMeans(judged);
    forall k | 0 <= k < |judged| && Actionable(conv, judged[k])
        && (forall j :: k < j < |judged| ==> !Actionable(conv, judged[j]))
      ensures DecisionOn(evaluated, conv, judge) == ActsFor(judged[k])
    {
      var back := |judged| - 1 - k;
      assert Reverse(judged)[back] == judged[k] && judged[k] in judged;
      FirstMeans(Reverse(judged), m => Actionable(conv, m), judged[0]);
    }
  }

  /** The trigger is the first judged message of the event the decision names, or else the latest. */
  lemma TriggerMeans(evaluated: seq<Message>, conv: Conversation, judge: Decision)
    requires evaluated != []
    ensures var judged := if |evaluated| <= 20 then evaluated else evaluated[|evaluated| - 20..];
      var asked, t := DecisionOn(evaluated, conv, judge).askedBy, TriggerOf(evaluated, conv, judge);
      && ((forall m :: m in judged ==> Some(m.event) != asked) ==> t == evaluated[|evaluated| - 1])
      && forall k | 0 <= k < |judged| && Some(judged[k].event) == asked
                    && (forall j :: 0 <= j < k ==> Some(judged[j].event) != asked)
           :: t == judged[k]
  {
    var asked := DecisionOn(evaluated, conv, judge).askedBy;
    FirstMeans(Tail(evaluated, AMBIENT_CONTEXT_MESSAGES), (m: Message) => Some(m.event) == asked, evaluated[|evaluated| - 1]);
  }

  /** What the pass writes for one conversation once the judge has answered; `rows` is the
      table at that moment, whatever other processes did to it while the judge was asked. */
  function Act(rows: seq<Row>, evaluated: seq<Message>, conv: Conversation, judge: Decision): (rows': seq<Row>)
    requires evaluated != [] && forall m :: m in evaluated ==> m.row < |rows|
    ensures |rows'| == |rows|
  {
    ActOn(rows, RowsOf(evaluated), TriggerOf(evaluated, conv, judge).row, DecisionOn(evaluated, conv, judge))
  }

  /** Promote the trigger `t` and ignore the rest of the batch, or ignore the whole batch. */
  function ActOn(rows: seq<Row>, ids: set<nat>, t: nat, decision: Decision): (rows': seq<Row>)
    requires t < |rows|
    ensures |rows'| == |rows|
  {
    if !decision.act then IgnoreAll(rows, ids)
    else if CanJudge(rows[t]) then IgnoreAll(rows[t := AmbientPromote(rows[t], AsReason(decision.reason))], ids - {t})
    else rows
  }

  predicate Promoted(r: Row, r': Row) {
    r'.status == Received && r.status != Received
  }

  /** These rows only move from observed to ignored, or, one of them at most, to received;
      all others stay as they are. */
  ghost predicate ActsWithin(rows: seq<Row>, rows': seq<Row>, ids: set<nat>) {
    && |rows'| == |rows|
    && (forall i :: 0 <= i < |rows| && rows'[i] != rows[i] ==>
          && i in ids && rows[i].status == Observed
          && (rows'[i].status == Ignored || rows'[i].status == Received)
          && rows'[i] == rows[i].(status := rows'[i].status, reason := rows'[i].reason))
    && (forall i, j :: (0 <= i < |rows| && 0 <= j < |rows| && Promoted(rows[i], rows'[i]) && Promoted(rows[j], rows'[j])) ==> i == j)
  }

  /** One conversation: at most one trigger is promoted, the rest of an acted-on batch is ignored
      exactly when that promotion won, and no row outside the conversation's batch is touched. */
  lemma ActPromotesOne(rows: seq<Row>, evaluated: seq<Message>, conv: Conversation, judge: Decision)
    requires evaluated != [] && forall m :: m in evaluated ==> m.row < |rows|
    ensures var rows' := Act(rows, evaluated, conv, judge);
      var decision := DecisionOn(evaluated, conv, judge);
      var t := TriggerOf(evaluated, conv, judge).row;
      && ActsWithin(rows, rows', RowsOf(evaluated))
      && (decision.act && rows[t].status == Observed ==>
            && rows'[t] == rows[t].(status := Received, reason := AsReason(decision.reason))
            && forall i :: i in RowsOf(evaluated) && i != t ==> rows'[i] == AmbientIgnore(rows[i]))
      && (decision.act && rows[t].status != Observed ==> rows' == rows)
      && (!decision.act ==> forall i :: i in RowsOf(evaluated) ==> rows'[i] == AmbientIgnore(rows[i]))
  {
    var t := TriggerOf(evaluated, conv, judge).row;
    assert t in RowsOf(evaluated);
    ActOnPromotesOne(rows, RowsOf(evaluated), t, DecisionOn(evaluated, conv, judge));
  }

  lemma ActOnPromotesOne(rows: seq<Row>, ids: set<nat>, t: nat, decision: Decision)
    requires t in ids && forall i :: i in ids ==> i < |rows|
    ensures var rows' := ActOn(rows, ids, t, decision);
      && ActsWithin(rows, rows', ids)
      && (decision.act && rows[t].status == Observed ==>
            && rows'[t] == rows[t].(status := Received, reason := AsReason(decision.reason))
            && forall i :: i in ids && i != t ==> rows'[i] == AmbientIgnore(rows[i]))
      && (decision.act && rows[t].status != Observed ==> rows' == rows)
      && (!decision.act ==> forall i :: i in ids ==> rows'[i] == AmbientIgnore(rows[i]))
  {
  }

  // ---- the whole pass ----

  function ConversationStep(rows: seq<Row>, messages: seq<Message>, conv: Conversation, cutoff: int,
                            judge: seq<Message> -> Decision): (rows': seq<Row>)
    requires forall m :: m in messages ==> m.row < |rows|
    ensures |rows'| == |rows|
  {
    if !conv.enabled then IgnoreAll(rows, RowsOf(messages))
    else
      var rows1 := IgnoreAll(rows, RowsOf(Keep(messages, m => IgnoredSender(conv, m))));
      var evaluated := Evaluated(conv, messages);
      if !Quiet(evaluated, cutoff) then rows1
      else Act(rows1, evaluated, conv, judge(Tail(evaluated, AMBIENT_CONTEXT_MESSAGES)))
  }

  lemma IgnoreWithin(rows: seq<Row>, ids: set<nat>)
    ensures ActsWithin(rows, IgnoreAll(rows, ids), ids)
  {
  }

  /** Ignoring some rows first and acting on others after stays within both. */
  lemma WithinBoth(rows: seq<Row>, ids1: set<nat>, rows2: seq<Row>, ids2: set<nat>, ids: set<nat>)
    requires ActsWithin(IgnoreAll(rows, ids1), rows2, ids2) && ids1 <= ids && ids2 <= ids
    ensures ActsWithin(rows, rows2, ids)
  {
    var rows1 := IgnoreAll(rows, ids1);
    forall i | 0 <= i < |rows| && rows2[i] != rows[i]
      ensures i in ids && rows[i].status == Observed
      ensures (rows2[i].status == Ignored || rows2[i].status == Received)
              && rows2[i] == rows[i].(status := rows2[i].status, reason := rows2[i].reason)
    {
      if rows2[i] != rows1[i] { assert rows1[i].status == Observed; }
    }
  }

  lemma ConversationActsWithin(rows: seq<Row>, messages: seq<Message>, conv: Conversation, cutoff: int,
                               judge: seq<Message> -> Decision)
    requires forall m :: m in messages ==> m.row < |rows|
    ensures ActsWithin(rows, ConversationStep(rows, messages, conv, cutoff, judge), RowsOf(messages))
  {
    var ignored := RowsOf(Keep(messages, m => IgnoredSender(conv, m)));
    var evaluated := Evaluated(conv, messages);
    IgnoreWithin(rows, ignored);
    if !conv.enabled {
      IgnoreWithin(rows, RowsOf(messages));
    } else if Quiet(evaluated, cutoff) {
      var judged := judge(Tail(evaluated, AMBIENT_CONTEXT_MESSAGES));
      var rows1 := IgnoreAll(rows, ignored);
      ActPromotesOne(rows1, evaluated, conv, judged);
      WithinBoth(rows, ignored, Act(rows1, evaluated, conv, judged), RowsOf(evaluated), RowsOf(messages));
    }
  }

  ghost predicate InTable(groups: seq<Group>, rows: seq<Row>) {
    forall g, m :: 0 <= g < |groups| && m in groups[g].messages ==> m.row < |rows|
  }

  function PassOver(rows: seq<Row>, groups: seq<Group>, convs: nat -> Conversation, cutoff: int,
                    judge: seq<Message> -> Decision): (rows': seq<Row>)
    requires InTable(groups, rows)
    ensures |rows'| == |rows|
  {
    if groups == [] then rows
    else
      var last := |groups| - 1;
      var before := PassOver(rows, groups[..last], convs, cutoff, judge);
      ConversationStep(before, groups[last].messages, convs(groups[last].conversation), cutoff, judge)
  }

  ghost predicate Disjoint(groups: seq<Group>) {
    forall g, h :: 0 <= g < h < |groups| ==> RowsOf(groups[g].messages) !! RowsOf(groups[h].messages)
  }

  function AllRows(groups: seq<Group>): set<nat> {
    set g, m | 0 <= g < |groups| && m in groups[g].messages :: m.row
  }

  /** What a whole pass may do: rows outside the batch stay as they are, rows inside only move
      from observed, and each conversation has at most one row promoted. */
  ghost predicate PassWithin(rows: seq<Row>, rows': seq<Row>, groups: seq<Group>) {
    && |rows'| == |rows|
    && (forall i :: 0 <= i < |rows| && rows'[i] != rows[i] ==>
          && i in AllRows(groups) && rows[i].status == Observed
          && (rows'[i].status == Ignored || rows'[i].status == Received))
    && (forall g :: 0 <= g < |groups| ==> OnePromoted(rows, rows', RowsOf(groups[g].messages)))
  }

  ghost predicate OnePromoted(rows: seq<Row>, rows': seq<Row>, ids: set<nat>)
    requires |rows'| == |rows|
  {
    forall i, j ::
      (0 <= i < |rows| && 0 <= j < |rows| && i in ids && j in ids
       && Promoted(rows[i], rows'[i]) && Promoted(rows[j], rows'[j])) ==> i == j
  }

  lemma {:induction false} PassActsWithin(rows: seq<Row>, groups: seq<Group>, convs: nat -> Conversation,
                                          cutoff: int, judge: seq<Message> -> Decision)
    requires InTable(groups, rows) && Disjoint(groups)
    ensures PassWithin(rows, PassOver(rows, groups, convs, cutoff, judge), groups)
    decreases |groups|
  {
    if groups == [] {
      EmptyPass(rows);
    } else {
      var last := |groups| - 1;
      Prefix(rows, groups, last);
      PassActsWithin(rows, groups[..last], convs, cutoff, judge);
      PassGoesOn(rows, groups, convs, cutoff, judge);
    }
  }

  lemma EmptyPass(rows: seq<Row>)
    ensures PassWithin(rows, rows, [])
  {
  }

  lemma Prefix(rows: seq<Row>, groups: seq<Group>, n: nat)
    requires n <= |groups| && InTable(groups, rows) && Disjoint(groups)
    ensures InTable(groups[..n], rows) && Disjoint(groups[..n])
  {
  }

  lemma PassGoesOn(rows: seq<Row>, groups: seq<Group>, convs: nat -> Conversation, cutoff: int, judge: seq<Message> -> Decision)
    requires groups != [] && InTable(groups, rows) && Disjoint(groups) && InTable(groups[..|groups| - 1], rows)
    requires PassWithin(rows, PassOver(rows, groups[..|groups| - 1], convs, cutoff, judge), groups[..|groups| - 1])
    ensures PassWithin(rows, PassOver(rows, groups, convs, cutoff, judge), groups)
  {
    var last := |groups| - 1;
    var before := PassOver(rows, groups[..last], convs, cutoff, judge);
    ConversationActsWithin(before, groups[last].messages, convs(groups[last].conversation), cutoff, judge);
    PassExtends(rows, before, PassOver(rows, groups, convs, cutoff, judge), groups);
  }

  lemma PassExtends(rows: seq<Row>, before: seq<Row>, rows': seq<Row>, groups: seq<Group>)
    requires groups != [] && Disjoint(groups)
    requires PassWithin(rows, before, groups[..|groups| - 1])
    requires ActsWithin(before, rows', RowsOf(groups[|groups| - 1].messages))
    ensures PassWithin(rows, rows', groups)
  {
    var last := |groups| - 1;
    var mine := RowsOf(groups[last].messages);
    forall i | i in AllRows(groups[..last]) ensures i !in mine && i in AllRows(groups) {
      var g, m :| 0 <= g < last && m in groups[..last][g].messages && m.row == i;
      assert i in RowsOf(groups[g].messages);
      assert m in groups[g].messages;
    }
    forall i | i in mine ensures i in AllRows(groups) {
      var m :| m in groups[last].messages && m.row == i;
    }
    forall g | 0 <= g < |groups| ensures OnePromoted(rows, rows', RowsOf(groups[g].messages)) {
      if g < last {
        assert groups[..last][g] == groups[g];
        assert OnePromoted(rows, before, RowsOf(groups[g].messages));
        assert RowsOf(groups[g].messages) !! mine;
      }
    }
  }

  lemma {:induction false} OfMembers(batch: seq<Message>, conversation: nat)
    ensures forall m :: m in Of(batch, conversation) <==> m in batch && m.conversation == conversation
  {
    if batch != [] { OfMembers(batch[1..], conversation); }
  }

  /** Messages of different conversations are different rows, so the groups of a batch are disjoint. */
  lemma PartitionDisjoint(groups: seq<Group>, batch: seq<Message>)
    requires Partition(groups, batch)
    requires forall m, n :: m in batch && n in batch && m.row == n.row ==> m == n
    ensures Disjoint(groups)
    ensures forall g, m :: 0 <= g < |groups| && m in groups[g].messages ==> m in batch
  {
    forall g | 0 <= g < |groups|
      ensures forall m :: m in groups[g].messages ==> m in batch && m.conversation == groups[g].conversation
    {
      OfMembers(batch, groups[g].conversation);
    }
  }

  // ---- with other processes writing in between ----

  /** One update of the pass: the table it met, whatever others did since the last, and the table it left. */
  datatype Update = Update(before: seq<Row>, after: seq<Row>)

  ghost predicate Sized(log: seq<Update>, n: nat) {
    forall k :: 0 <= k < |log| ==> |log[k].before| == |log[k].after| == n
  }

  /** The updates that end a conversation: the whole batch is ignored, or its trigger is promoted and, only
      if that update won, the rest is ignored. */
  ghost predicate JudgedLog(log: seq<Update>, ids: set<nat>, t: nat, decision: Decision) {
    if !decision.act then |log| == 1 && log[0].after == IgnoreAll(log[0].before, ids)
    else
      && |log| > 0 && t < |log[0].before|
      && if CanJudge(log[0].before[t]) then
           && log[0].after == log[0].before[t := AmbientPromote(log[0].before[t], AsReason(decision.reason))]
           && |log| == 2 && log[1].after == IgnoreAll(log[1].before, ids - {t})
         else |log| == 1 && log[0].after == log[0].before
  }

  ghost predicate ConversationLog(log: seq<Update>, messages: seq<Message>, conv: Conversation, cutoff: int,
                                  judge: seq<Message> -> Decision) {
    if !conv.enabled then |log| == 1 && log[0].after == IgnoreAll(log[0].before, RowsOf(messages))
    else
      var evaluated := Evaluated(conv, messages);
      && |log| > 0
      && log[0].after == IgnoreAll(log[0].before, RowsOf(Keep(messages, m => IgnoredSender(conv, m))))
      && if !Quiet(evaluated, cutoff) then |log| == 1
         else
           var judged := judge(Tail(evaluated, AMBIENT_CONTEXT_MESSAGES));
           JudgedLog(log[1..], RowsOf(evaluated), TriggerOf(evaluated, conv, judged).row, DecisionOn(evaluated, conv, judged))
  }

  ghost predicate PassLog(logs: seq<seq<Update>>, groups: seq<Group>, convs: nat -> Conversation, cutoff: int,
                          judge: seq<Message> -> Decision) {
    && |logs| == |groups|
    && forall g :: 0 <= g < |groups| ==>
         ConversationLog(logs[g], groups[g].messages, convs(groups[g].conversation), cutoff, judge)
  }

  lemma OneMoreLog(logs: seq<seq<Update>>, log: seq<Update>, groups: seq<Group>, g: nat, convs: nat -> Conversation, cutoff: int,
                   judge: seq<Message> -> Decision)
    requires g < |groups| && PassLog(logs, groups[..g], convs, cutoff, judge)
    requires ConversationLog(log, groups[g].messages, convs(groups[g].conversation), cutoff, judge)
    ensures PassLog(logs + [log], groups[..g + 1], convs, cutoff, judge)
  {
    forall h | 0 <= h <= g
      ensures ConversationLog((logs + [log])[h], groups[..g + 1][h].messages, convs(groups[..g + 1][h].conversation), cutoff, judge)
    {
      assert groups[..g + 1][h] == groups[h] && (logs + [log])[h] == if h < g then logs[h] else log;
      if h < g { LogAt(logs, groups[..g], convs, cutoff, judge, h); }
    }
  }

  lemma LogAt(logs: seq<seq<Update>>, groups: seq<Group>, convs: nat -> Conversation, cutoff: int,
              judge: seq<Message> -> Decision, h: nat)
    requires PassLog(logs, groups, convs, cutoff, judge) && h < |groups|
    ensures ConversationLog(logs[h], groups[h].messages, convs(groups[h].conversation), cutoff, judge)
  {
  }

  /** An update moves rows of `ids` only, and only from observed to ignored or received. */
  ghost predicate Moves(u: Update, ids: set<nat>) {
    && |u.after| == |u.before|
    && forall i :: 0 <= i < |u.before| && u.after[i] != u.before[i] ==>
         && i in ids && u.before[i].status == Observed
         && (u.after[i].status == Ignored || u.after[i].status == Received)
         && u.after[i] == u.before[i].(status := u.after[i].status, reason := u.after[i].reason)
  }

  ghost predicate Promotes(u: Update, i: nat) {
    i < |u.before| && i < |u.after| && Promoted(u.before[i], u.after[i])
  }

  ghost predicate NonePromoted(log: seq<Update>) {
    forall k, i :: 0 <= k < |log| ==> !Promotes(log[k], i)
  }

  /** All of a conversation's updates together promote one row at most. */
  ghost predicate PromotesOnce(log: seq<Update>) {
    forall k, l, i, j ::
      0 <= k < |log| && 0 <= l < |log| && Promotes(log[k], i) && Promotes(log[l], j) ==> k == l && i == j
  }

  /** A conversation acted on whose trigger was taken by another writer loses no row. */
  ghost predicate LosesNothing(log: seq<Update>, messages: seq<Message>, conv: Conversation, cutoff: int,
                               judge: seq<Message> -> Decision) {
    var evaluated := Evaluated(conv, messages);
    conv.enabled && Quiet(evaluated, cutoff)
    && DecisionOn(evaluated, conv, judge(Tail(evaluated, AMBIENT_CONTEXT_MESSAGES))).act
    && NonePromoted(log) ==>
      forall k, m :: 0 <= k < |log| && m in evaluated && m.row < |log[k].before| ==> Keeps(log[k], m.row)
  }

  ghost predicate Keeps(u: Update, i: nat) {
    i < |u.before| && i < |u.after| && u.after[i] == u.before[i]
  }

  ghost predicate ActsOnceOn(log: seq<Update>, messages: seq<Message>, conv: Conversation, cutoff: int,
                             judge: seq<Message> -> Decision) {
    && (forall k :: 0 <= k < |log| ==> Moves(log[k], RowsOf(messages)))
    && PromotesOnce(log) && LosesNothing(log, messages, conv, cutoff, judge)
  }

  ghost predicate ActsOnce(logs: seq<seq<Update>>, groups: seq<Group>, convs: nat -> Conversation, cutoff: int,
                           judge: seq<Message> -> Decision) {
    && |logs| == |groups|
    && forall g :: 0 <= g < |groups| ==>
         ActsOnceOn(logs[g], groups[g].messages, convs(groups[g].conversation), cutoff, judge)
  }

  lemma IgnoreMoves(u: Update, ids: set<nat>, all: set<nat>)
    requires u.after == IgnoreAll(u.before, ids) && ids <= all
    ensures Moves(u, all) && forall i :: !Promotes(u, i)
  {
  }

  lemma JudgedActs(log: seq<Update>, ids: set<nat>, t: nat, decision: Decision, all: set<nat>)
    requires JudgedLog(log, ids, t, decision) && t in ids && ids <= all
    ensures forall k :: 0 <= k < |log| ==> Moves(log[k], all)
    ensures PromotesOnce(log)
  {
    if !decision.act { IgnoreMoves(log[0], ids, all); }
    else if CanJudge(log[0].before[t]) { WonActs(log, ids, t, decision, all); }
    else { LostActs(log, all); }
  }

  lemma WonActs(log: seq<Update>, ids: set<nat>, t: nat, decision: Decision, all: set<nat>)
    requires JudgedLog(log, ids, t, decision) && decision.act && CanJudge(log[0].before[t]) && t in ids && ids <= all
    ensures (forall k :: 0 <= k < |log| ==> Moves(log[k], all)) && PromotesOnce(log)
  {
    IgnoreMoves(log[1], ids - {t}, all);
    PromotionMoves(log[0], t, AsReason(decision.reason), all);
    OnlyFirst(log, t);
  }

  lemma OnlyFirst(log: seq<Update>, t: nat)
    requires |log| == 2 && (forall i :: Promotes(log[0], i) ==> i == t) && forall i :: !Promotes(log[1], i)
    ensures PromotesOnce(log)
  {
    forall k, l, i, j | 0 <= k < |log| && 0 <= l < |log| && Promotes(log[k], i) && Promotes(log[l], j)
      ensures k == l && i == j
    {
      assert k == 0 && l == 0;
    }
  }

  lemma LostActs(log: seq<Update>, all: set<nat>)
    requires |log| == 1 && log[0].after == log[0].before
    ensures (forall k :: 0 <= k < |log| ==> Moves(log[k], all)) && PromotesOnce(log)
  {
  }

  lemma PromotionMoves(u: Update, t: nat, reason: Reason, all: set<nat>)
    requires t in all && t < |u.before| && CanJudge(u.before[t])
    requires u.after == u.before[t := AmbientPromote(u.before[t], reason)]
    ensures Moves(u, all) && forall i :: Promotes(u, i) <==> i == t
  {
  }

  /** Evaluated messages are not among the ignored senders', nor in their rows. */
  lemma EvaluatedApart(messages: seq<Message>, conv: Conversation)
    requires forall m, n :: m in messages && n in messages && m.row == n.row ==> m == n
    ensures RowsOf(Evaluated(conv, messages)) <= RowsOf(messages)
    ensures RowsOf(Evaluated(conv, messages)) !! RowsOf(Keep(messages, m => IgnoredSender(conv, m)))
  {
  }

  lemma ConversationActsOnce(log: seq<Update>, messages: seq<Message>, conv: Conversation, cutoff: int,
                             judge: seq<Message> -> Decision)
    requires ConversationLog(log, messages, conv, cutoff, judge)
    requires forall m, n :: m in messages && n in messages && m.row == n.row ==> m == n
    ensures ActsOnceOn(log, messages, conv, cutoff, judge)
  {
    if conv.enabled && Quiet(Evaluated(conv, messages), cutoff) {
      JudgedConversation(log, messages, conv, cutoff, judge);
    } else {
      OneIgnore(log, if conv.enabled then RowsOf(Keep(messages, m => IgnoredSender(conv, m))) else RowsOf(messages),
                RowsOf(messages));
    }
  }

  lemma OneIgnore(log: seq<Update>, ids: set<nat>, all: set<nat>)
    requires |log| == 1 && log[0].after == IgnoreAll(log[0].before, ids) && ids <= all
    ensures (forall k :: 0 <= k < |log| ==> Moves(log[k], all)) && PromotesOnce(log)
  {
    IgnoreMoves(log[0], ids, all);
    forall k, i | 0 <= k < |log| ensures !Promotes(log[k], i) {
      assert k == 0;
    }
  }

  lemma JudgedConversation(log: seq<Update>, messages: seq<Message>, conv: Conversation, cutoff: int,
                           judge: seq<Message> -> Decision)
    requires ConversationLog(log, messages, conv, cutoff, judge) && conv.enabled && Quiet(Evaluated(conv, messages), cutoff)
    requires forall m, n :: m in messages && n in messages && m.row == n.row ==> m == n
    ensures ActsOnceOn(log, messages, conv, cutoff, judge)
  {
    var ignored, evaluated := RowsOf(Keep(messages, m => IgnoredSender(conv, m))), Evaluated(conv, messages);
    var judged := judge(Tail(evaluated, AMBIENT_CONTEXT_MESSAGES));
    var t := TriggerOf(evaluated, conv, judged).row;
    assert t in RowsOf(evaluated);
    EvaluatedApart(messages, conv);
    ActedOnce(log, evaluated, ignored, RowsOf(messages), DecisionOn(evaluated, conv, judged), t);
  }

  lemma ActedOnce(log: seq<Update>, evaluated: seq<Message>, ignored: set<nat>, all: set<nat>, decision: Decision, t: nat)
    requires log != [] && log[0].after == IgnoreAll(log[0].before, ignored)
    requires RowsOf(evaluated) !! ignored && RowsOf(evaluated) <= all && ignored <= all && t in RowsOf(evaluated)
    requires JudgedLog(log[1..], RowsOf(evaluated), t, decision)
    ensures (forall k :: 0 <= k < |log| ==> Moves(log[k], all)) && PromotesOnce(log)
    ensures decision.act && NonePromoted(log) ==>
      forall k, m :: 0 <= k < |log| && m in evaluated && m.row < |log[k].before| ==> Keeps(log[k], m.row)
  {
    IgnoreMoves(log[0], ignored, all);
    JudgedActs(log[1..], RowsOf(evaluated), t, decision, all);
    AfterIgnoring(log, all);
    if NonePromoted(log) {
      NothingLost(log, evaluated, ignored, decision, t);
    }
  }

  lemma AfterIgnoring(log: seq<Update>, all: set<nat>)
    requires log != [] && Moves(log[0], all) && (forall i :: !Promotes(log[0], i))
    requires (forall k :: 0 <= k < |log[1..]| ==> Moves(log[1..][k], all)) && PromotesOnce(log[1..])
    ensures (forall k :: 0 <= k < |log| ==> Moves(log[k], all)) && PromotesOnce(log)
  {
    assert forall k :: 0 < k < |log| ==> log[k] == log[1..][k - 1];
  }

  lemma NothingLost(log: seq<Update>, evaluated: seq<Message>, ignored: set<nat>, decision: Decision, t: nat)
    requires log != [] && log[0].after == IgnoreAll(log[0].before, ignored) && RowsOf(evaluated) !! ignored
    requires JudgedLog(log[1..], RowsOf(evaluated), t, decision)
    requires NonePromoted(log)
    requires t in RowsOf(evaluated)
    ensures decision.act ==> forall k, m :: 0 <= k < |log| && m in evaluated && m.row < |log[k].before| ==> Keeps(log[k], m.row)
  {
    NonePromotedAfter(log);
    if decision.act {
      NoneWon(log[1..], RowsOf(evaluated), t, decision);
      assert |log| == 2 && log[1] == log[1..][0];
      forall k, m | 0 <= k < |log| && m in evaluated && m.row < |log[k].before| ensures Keeps(log[k], m.row) {
        assert m.row in RowsOf(evaluated);
      }
    }
  }

  lemma NonePromotedAfter(log: seq<Update>)
    requires log != [] && NonePromoted(log)
    ensures NonePromoted(log[1..])
  {
    assert forall k :: 0 < k < |log| ==> log[k] == log[1..][k - 1];
  }

  lemma NoneWon(log: seq<Update>, ids: set<nat>, t: nat, decision: Decision)
    requires JudgedLog(log, ids, t, decision) && decision.act && NonePromoted(log)
    ensures |log| == 1 && log[0].after == log[0].before
  {
    assert Promotes(log[0], t) <==> CanJudge(log[0].before[t]);
  }

  /** Whatever other processes write between its updates, a pass moves only rows of its batch, only from
      observed, promotes one row of a conversation at most, and ignores the others of a conversation it
      acts on only if it promoted one. */
  lemma LogsActOnce(logs: seq<seq<Update>>, groups: seq<Group>, convs: nat -> Conversation, cutoff: int,
                    judge: seq<Message> -> Decision)
    requires PassLog(logs, groups, convs, cutoff, judge)
    requires forall g, m, n ::
      0 <= g < |groups| && m in groups[g].messages && n in groups[g].messages && m.row == n.row ==> m == n
    ensures ActsOnce(logs, groups, convs, cutoff, judge)
  {
    forall g | 0 <= g < |groups|
      ensures ActsOnceOn(logs[g], groups[g].messages, convs(groups[g].conversation), cutoff, judge)
    {
      ConversationActsOnce(logs[g], groups[g].messages, convs(groups[g].conversation), cutoff, judge);
    }
  }
}
