# Verified models of message ownership, thread sends, and the desktop controllers

These Dafny modules model the parts of the product where several actors work on the same record at
once, and prove what the code is meant to guarantee there, over every run, input or chunking.
`dafny verify dfyconfig.toml` checks everything.

| files | what they model |
|---|---|
| `TeamChatRow`, `TeamChatProtocol` | one external chat event: its row, every guarded update, and the transition system of inbound handlers, routine wakes, reconcile passes, retries, crashes and restarts, with a program counter per process |
| `TeamChatSafety` | what holds with no assumption at all: status order, ownership tags, at-most-once posting |
| `TeamChatExclusivity`, `TeamChatDeployments` | a routine wake and a fallback agent never both own an event: the invariant, then two deployments that meet its step conditions |
| `TeamChatBarrier` | the queue attempt's last look at the wake nonce |
| `TeamChatDelivery`, `TeamChatProgress` | what a stored reply handle stands for, the judge before every ambient event, and what an undisturbed handler or pass achieves |
| `TeamChatScenarios` | concrete runs in which exclusivity, or the cancel of a fallback run, fails: one for each condition exclusivity is claimed under |
| `TeamChatRecovery`, `TeamChatAmbient`, `TeamChatOrigin` | recovery progress, the ambient pass, the delegation walk |
| `TeamChatBridge` | the bridge's own code as classes: batch loops over a table others write to in between, and queue, delivery and retry with their own reads, guards and writes, each shown to be the protocol's step while other processes interleave |
| `ThreadPages` | thread paging against the plain history |
| `ThreadSend`, `ThreadSendCalls` | sending into a thread, and replaying a client nonce |
| `LocalStack` | `start()` and `stop()` of the local stack controller |
| `Routines` | routine rows against the wakeup queue, with create, update, remove, archive and the wakeup cut at their awaits |
| `Handshake`, `LineSplitter` | the two streaming splitters |
| `AutoUpdate` | the desktop updater's reducer, throttle and controller |

## How the code is modelled

* A database row is a value, a `where`-guarded `updateMany` is one atomic step, and a crash may fall
  between any two steps. A call that throws is a step of its own.
* The clock is a natural number that only moves forward; leases expire when it passes them. Generated
  ids, the judge's answer, cron dates and query orders without `orderBy` are parameters.
* TeamChat rows do not influence one another, so the protocol follows one row and one wake nonce.
  `sendUserMessage` is idempotent in its client nonce. Judge text is a reason of its own kind and
  never equals an ownership tag. `inFlightRoutineWakes` is a set, as in the source, not a counter.
  An empty reply handle counts as no handle, as it does in JavaScript.
* Code that updates fields, rows or buffers is a class or a loop proved against a specification
  function; the promises are then proved about that function.

Exclusivity is claimed under stated conditions only, and each of them has a run below in which it alone
is broken and exclusivity fails. Both deployments assume that no renewal throws before its wake has
committed. `OneInstanceExcludes` adds that every process runs on one instance, that no second delivery of
the event wins the deferral while a handler is at work, and that no wake reserves a row recovery has
meanwhile given to the ambient judge (which takes an ambient event whose lease ran out before its wake was
marked in flight); leases may otherwise expire at any time, calls may fail, and the instance may crash and
restart. `ManyInstancesExclude` allows any number of instances and deliveries, provided routing and queue
leases outlive their holders, no two deliveries fall on one instant, and no other instance's retry resets
a row during a queue attempt; that then only one handler is engaged at a time is not assumed but follows:
`LeaseAdmitsOneHandler`. At-most-once posting, the status order, the ownership tags and the barrier need
none of this.

## What the code does not do

* A heartbeat renewal that throws (apps/api/src/app.ts:681-684) releases the row while the wake is
  still running, so a wake and an agent run can own one event: `RenewalErrorBreaksExclusivity`.
* Across instances, a routing lease that expires under its wake has the same effect,
  `ExpiredLeaseBreaksExclusivity`; so do two deliveries at one instant, `SameInstantBreaksExclusivity`, a
  queue reservation that runs out under its attempt, `ExpiredClaimBreaksExclusivity`, and a retry that
  resets the row under another instance's attempt, `StaleRetryBreaksExclusivity`.
* On one instance, an ambient event whose lease runs out before its wake is marked in flight is released to
  the judge, whose update guards the status only (apps/api/src/team-chat-bridge.ts:906-915) and overwrites
  the wake's later reservation: `ObservedReservationBreaksExclusivity`.
* On one instance, a second delivery of the event that arrives after the first handler's lease ran out
  lets the agent take the row while the first handler's wake still commits
  (apps/api/src/team-chat-bridge.ts:281-293): `SecondDeliveryBreaksExclusivity`.
* A fallback run created beside a wake is not always cancelled (apps/api/src/team-chat-bridge.ts:1087-1118).
  `CancelledUnlessDropped` says exactly when: apart from ending by itself, and with no other attempt
  creating meanwhile, it ends if and only if its attempt neither throws nor loses its instance between
  creating the run and cancelling it; nobody cancels it any more after that.
  `FailedCancelLeavesRun` is an instance.
* A direct send that steers records no run ids in its event. Once a later run is sourced at its
  message, as the continuation of steering that a completed run never read or a failed run was given, replaying
  the nonce answers with that run:
  `ReplayAfterHistory` gives the exact condition over anything that may happen to the thread,
  `UnreadSteerChangesReceipt` and `FailedSteerChangesReceipt` the general cases and `SteerReplayDiffers` an
  instance.
* `cancelSupersededQueuedRuns` never cancels anything when sends run one after another:
  `NothingSuperseded`. Likewise the guard for active runs that are neither waiting nor steerable
  never fires; `RestSteerable` says so.
* A start queued behind a stop that rejects never runs: `RejectedStopLosesTheStart`.
* Routine rows and wakeups can part for good when operations on one routine overlap: a worker that re-arms
  after the user moved the schedule (packages/adapters/src/executor.ts:1002-1078) overwrites the new
  wakeup, `RearmOvertakesEdit`; an update that read the row before the worker's claim writes the old next
  run back (apps/api/src/router.ts:2431), `StaleRenameRevertsClaim`. Overlap by itself is harmless,
  `RenameDuringStart`: `RunAgrees` needs only that each operation finds at its awaits what it left there.
  `StepGood` gives the exact condition on one step, and `LastStepLoses` says that the last operation under
  way parts the two exactly when it ends without meeting it.
* A one-shot can run twice: an update that read it before it ran and also sets it active writes its time
  back, `StaleSwitchFiresTwice`. `OneShotFiresOnce` shows that only such an update does it.
* Even without overlap two branches drop a wakeup, and `SerialStep` says they are the only ones:
  `routines.update` writes the row before it looks up the bot (apps/api/src/router.ts:2431-2466), so
  moving the next run of an archived bot's routine leaves the queue as it was, `ArchivedBotLoses`; and a
  due wakeup whose bot has no thread is dropped.
* The recovery pass never releases an expired deferred row that carries the agent tag; the ownership
  invariant excludes that row, and `TwoPassesSettle` states both directions for any change to the rest
  of the table between the passes.

## Model

| member | source | states |
|---|---|---|
| TeamChatSafety.StepSafe | apps/api/src/team-chat-bridge.ts:196-1316 | every step of every handler, pass, crash or restart keeps the ownership and delivery invariant and moves the status forward |
| TeamChatSafety.RunSafe | apps/api/src/team-chat-bridge.ts:196-1316 | the invariant holds in every state of every run from a state that has it |
| TeamChatSafety.RunForward | apps/api/src/team-chat-bridge.ts:960-1316 | over any stretch of any run linked stays linked, posting stays posting, delivered and ignored are final, and the run link is written once |
| TeamChatSafety.AtMostOneSend | apps/api/src/team-chat-bridge.ts:1142-1316 | over every interleaving of instances, crashes, lease expiries, retries and lost acknowledgements the provider is asked to post a row's reply at most once, and then the row is delivering or delivered |
| TeamChatSafety.OwnershipMatchesStatus | apps/api/src/team-chat-bridge.ts:960-1316 | in every reachable state the agent tag is set exactly from queueing on and the run link exactly from running on |
| TeamChatExclusivity.StepExcl | apps/api/src/team-chat-bridge.ts:525-1140 | a step that meets the step conditions keeps the exclusivity invariant of handlers, recovery, queue attempts and retries |
| TeamChatExclusivity.RunExcl | apps/api/src/team-chat-bridge.ts:960-1140 | every run whose steps meet the conditions ends without a committed wake beside a linked row |
| TeamChatExclusivity.WakeAndAgentExclude | apps/api/src/team-chat-bridge.ts:960-1140 | from any first delivery, a protected run never has a committed wake nonce together with running, delivering or delivered, for either provider branch |
| TeamChatDeployments.OneInstanceExcludes | apps/api/src/team-chat-bridge.ts:525-690 | exclusivity for one bridge instance whose passes are serialised and whose live wakes are shielded, through lease expiry at any time, failures, crashes and restarts |
| TeamChatDeployments.ManyInstancesExclude | apps/api/src/messaging-inbound.ts:207-230 | exclusivity for any number of instances and deliveries whose routing and queue leases outlive their holders |
| TeamChatDeployments.LeaseAdmitsOneHandler | apps/api/src/team-chat-bridge.ts:266-300 | over every run in which leases outlive their holders and no two deliveries fall on one instant, at most one handler is engaged with the event at any time, however many deliveries arrive |
| TeamChatBarrier.AttemptNeverLinks | apps/api/src/team-chat-bridge.ts:1021-1135 | a queue attempt that still has its last look ahead when the nonce is there never links the row, whatever else happens |
| TeamChatBarrier.BarrierHolds | apps/api/src/team-chat-bridge.ts:1021-1135 | the same from every reachable state, with no assumption on time, instances or failures |
| TeamChatBarrier.RunIsCancelled | apps/api/src/team-chat-bridge.ts:1021-1120 | whatever run an attempt is given after its last look was still ahead of the nonce has ended once the attempt has moved on, unless the attempt itself throws or its own instance crashes before the cancel |
| TeamChatBarrier.DroppedRunStays | apps/api/src/team-chat-bridge.ts:1087-1120 | a run its attempt dropped that way is cancelled by nobody in any continuation: it stays active until it ends by itself |
| TeamChatBarrier.CancelledUnlessDropped | apps/api/src/team-chat-bridge.ts:1021-1120 | from every reachable state with the nonce there before the attempt's last look: the run it is given ends if and only if the attempt does not drop it |
| TeamChatBarrier.RunStaysOver | apps/api/src/team-chat-bridge.ts:1092-1105 | a finished or cancelled fallback run is never revived |
| TeamChatDelivery.DeliveredMeansPosted | apps/api/src/team-chat-bridge.ts:1142-1274 | over every run a delivered row has a handle: the one the provider returned for the one post, unless it says that an ambient answer was empty, that an ambient event's run failed, or that a reservation ran out unconfirmed, and that did happen; a direct event without a post is unconfirmed |
| TeamChatDelivery.AmbientWaitsForJudge | apps/api/src/team-chat-bridge.ts:779-923 | over every run in which no judge chooses it an ambient event is never received, queued, answered or posted |
| TeamChatProgress.RoutineTakes | apps/api/src/app.ts:631-699 | an undisturbed handler whose routine takes the event commits the wake and leaves the row ignored, owned by it |
| TeamChatProgress.NoRoutineReleases | apps/api/src/team-chat-bridge.ts:386-414 | one whose event no routine wants releases a direct event to the agent and an ambient one to the judge, ownership cleared |
| TeamChatProgress.RedeliveryDefers | apps/api/src/team-chat-bridge.ts:276-291 | another delivery takes a received, observed or expired row for two minutes and is turned away from any other |
| TeamChatProgress.HeartbeatHolds | apps/api/src/team-chat-bridge.ts:311-376 | a renewal extends a deferred row by half an hour and claims it for the wake, and one that finds it gone ends the race |
| TeamChatProgress.PassRecovers | apps/api/src/team-chat-bridge.ts:525-623 | an undisturbed pass leaves an expired deferred row with its wake if that committed, else stripped of a claim nobody here stands behind, else released |
| TeamChatProgress.JudgeHandsOver | apps/api/src/team-chat-bridge.ts:906-915 | a judge that acts makes the observed event received, with its reason |
| TeamChatProgress.AgentIsAsked | apps/api/src/team-chat-bridge.ts:1019-1140 | an undisturbed pass links a due received event nobody owns to a new agent run |
| TeamChatProgress.LateWakeWins | apps/api/src/team-chat-bridge.ts:1091-1122 | an attempt that finds the wake after creating its run cancels the run and leaves the row to the routine |
| TeamChatProgress.BarrierRefuses | apps/api/src/team-chat-bridge.ts:1055-1072 | one that finds it before creates no run and leaves the row to the routine |
| TeamChatProgress.ReplyIsPosted | apps/api/src/team-chat-bridge.ts:1142-1219 | an undisturbed pass posts the answer of an ended run exactly once and stores the handle the provider returned |
| TeamChatProgress.InterruptedDeliveryEnds | apps/api/src/team-chat-bridge.ts:1233-1260 | a stored handle is finalized, an expired reservation without one closed as unconfirmed, without another post |
| TeamChatScenarios.RenewalErrorBreaksExclusivity | apps/api/src/app.ts:681-684 | a run in which the only mishap is a throwing renewal ends with a wake and an agent run owning one event |
| TeamChatScenarios.ExpiredLeaseBreaksExclusivity | apps/api/src/team-chat-bridge.ts:570-593 | a run in which nothing fails but a routing lease expires under its wake on other instances breaks exclusivity |
| TeamChatScenarios.SecondDeliveryBreaksExclusivity | apps/api/src/team-chat-bridge.ts:281-293 | a run on one instance in which nothing fails but a second delivery arrives after the lease ran out breaks exclusivity |
| TeamChatScenarios.SameInstantBreaksExclusivity | apps/api/src/team-chat-bridge.ts:277-291 | a run in which no time passes and nothing fails but two deliveries defer the row at one instant breaks exclusivity |
| TeamChatScenarios.ObservedReservationBreaksExclusivity | apps/api/src/team-chat-bridge.ts:906-915 | a run on one instance with one delivery in which nothing happens but that time passes: the judge overwrites a wake's reservation of an observed row, and exclusivity breaks |
| TeamChatScenarios.ExpiredClaimBreaksExclusivity | apps/api/src/team-chat-bridge.ts:638-648 | a run in which a queue reservation runs out under its attempt and another pass resets the row breaks exclusivity |
| TeamChatScenarios.StaleRetryBreaksExclusivity | apps/api/src/team-chat-bridge.ts:1297-1316 | a run of four seconds, so with no reservation running out, in which a retry resets the row under another attempt breaks exclusivity |
| TeamChatScenarios.FailedCancelLeavesRun | apps/api/src/team-chat-bridge.ts:1087-1118 | a run in which the cancel throws leaves an active agent run beside a committed wake with nobody left to cancel it |
| TeamChatRecovery.InBatch | apps/api/src/team-chat-bridge.ts:525-545 | a row is in the batch exactly when it qualifies and at most nineteen older rows do |
| TeamChatRecovery.RankShrinks | apps/api/src/team-chat-bridge.ts:525-623 | a pass never lets other rows overtake a waiting one |
| TeamChatRecovery.KeepsItsPlace | apps/api/src/team-chat-bridge.ts:525-623 | a row among the twenty oldest deferred ones is among the twenty oldest expired ones at any later pass, unless an older row is deferred in between |
| TeamChatRecovery.TwoPassesSettle | apps/api/src/team-chat-bridge.ts:525-623 | whatever happens to other rows, wakes and clock between two passes, a row nothing else touches that each finds expired among the twenty oldest leaves deferred exactly when a wake happened, or nobody owned it, or its routing claim was not shielded, and goes where its nonce says |
| TeamChatRecovery.OrphanSettles | apps/api/src/team-chat-bridge.ts:525-623 | with the ownership invariant and no wake of this process at the first pass, two passes always settle the row, ownership cleared, whatever happens to the rest in between |
| TeamChatAmbient.GroupByConversation | apps/api/src/team-chat-bridge.ts:809-814 | the groups partition the batch by conversation, in order of first appearance, keeping batch order |
| TeamChatAmbient.ActPromotesOne | apps/api/src/team-chat-bridge.ts:867-923 | a conversation acted on promotes its trigger and ignores the rest exactly when the trigger's update won, else changes nothing; one not acted on is ignored |
| TeamChatAmbient.EvaluatedMeans | apps/api/src/team-chat-bridge.ts:828-850 | who is judged: no bot told to be ignored; everybody else at once if any is a person or a bot not on a rollup, otherwise those whose rollup is due |
| TeamChatAmbient.DecisionMeans | apps/api/src/team-chat-bridge.ts:853-883 | the newest of the last twenty messages whose sender is to be acted on decides, by name, else the judge |
| TeamChatAmbient.TriggerMeans | apps/api/src/team-chat-bridge.ts:884-886 | the trigger is the first judged message of the event the decision names, else the latest |
| TeamChatAmbient.PassActsWithin | apps/api/src/team-chat-bridge.ts:779-904 | a whole pass touches only rows of the batch, only from observed, and promotes at most one row per conversation |
| TeamChatAmbient.LogsActOnce | apps/api/src/team-chat-bridge.ts:779-923 | whatever others write between a pass's updates: it moves only rows of its batch, only from observed, promotes one row of a conversation at most, and changes no row of a conversation it acts on whose trigger another writer took |
| TeamChatAmbient.PartitionDisjoint | apps/api/src/team-chat-bridge.ts:809-816 | the groups of a batch share no row |
| TeamChatOrigin.Delegations.FindExternalOrigin | apps/api/src/team-chat-bridge.ts:744-770 | the loop with its visited set answers what the plain bounded walk answers, cycles included |
| TeamChatOrigin.Delegations.WalkFindsNearest | apps/api/src/team-chat-bridge.ts:744-770 | the bounded walk answers with the nearest delegation ancestor that has an external message, and with nothing exactly when none is within the bound |
| TeamChatOrigin.Delegations.ChainIsWalked | apps/api/src/team-chat-bridge.ts:744-770 | a chain of at most the bounded number of delegations, only the last of which has an external message, leads to that message |
| TeamChatOrigin.Delegations.TrappedWalk | apps/api/src/team-chat-bridge.ts:753-754 | a walk that comes back to a run it has visited finds nothing however far it goes |
| TeamChatBridge.Table.RecoverExpiredDeferredMessages | apps/api/src/team-chat-bridge.ts:525-623 | with other processes writing between its statements, every row nobody else touches ends as the recovery pass says, and each update moves one row of the batch, only while it is still deferred and expired |
| TeamChatBridge.Table.PromoteAmbientTrigger | apps/api/src/team-chat-bridge.ts:906-915 | wins exactly if the row is still observed when the update meets it, and changes that row alone |
| TeamChatBridge.Table.ActOnJudgement | apps/api/src/team-chat-bridge.ts:867-903 | the trigger, the compare-and-set and, only if that won on the table it met, the ignoring of the rest; undisturbed, the rows specified for one conversation |
| TeamChatBridge.Table.EvaluateConversation | apps/api/src/team-chat-bridge.ts:817-904 | a switched-off conversation is ignored whole; else ignored senders first, then, once it is quiet, the judgement on the rest |
| TeamChatBridge.Table.EvaluateAmbient | apps/api/src/team-chat-bridge.ts:779-904 | nothing for an archived bot; otherwise the pass partitions its batch and acts once on each conversation under any writes in between; undisturbed, it leaves the rows of the sequential pass |
| TeamChatBridge.Connection.FindWake | apps/api/src/team-chat-bridge.ts:995-1024 | a look at the nonce reads it at the moment it is made and takes the branch the protocol takes, or throws into retry |
| TeamChatBridge.Connection.AbandonForRoutine | apps/api/src/team-chat-bridge.ts:1005-1018 | the guarded write to ignored is the protocol's step both before and after the claim |
| TeamChatBridge.Connection.ClaimAgentOwnership | apps/api/src/team-chat-bridge.ts:1029-1054 | the claim's where and data are the protocol's step: it wins exactly on a received row without an ownership tag, and otherwise leaves the row it met |
| TeamChatBridge.Connection.SendUserMessage | apps/api/src/team-chat-bridge.ts:1076-1087 | the idempotent creation is the protocol's step and hands back the run that is stored |
| TeamChatBridge.Connection.CancelFallbackRun | apps/api/src/team-chat-bridge.ts:1091-1118 | the conditional cancel is the protocol's step, and afterwards the run has ended |
| TeamChatBridge.Connection.LinkToRun | apps/api/src/team-chat-bridge.ts:1125-1138 | the guarded link is the protocol's step: when it counts no row the row can no longer be linked, and retry follows |
| TeamChatBridge.Connection.Queue | apps/api/src/team-chat-bridge.ts:1019-1140 | the code from the first look on refines the protocol under any interleaving and ends at the delivery scan or in retry; without a thrown call it ends in retry only on a row that cannot be linked any more |
| TeamChatBridge.Connection.CheckBarrier | apps/api/src/team-chat-bridge.ts:1055-1072 | look, ownership read, short-circuited second look: the code goes on to create a run exactly when all three pass |
| TeamChatBridge.Connection.CreateAndLink | apps/api/src/team-chat-bridge.ts:1073-1140 | creation, last look, then cancel and abandon or link and enqueue: when nothing throws the row is linked or the run it created has ended |
| TeamChatBridge.Connection.ClaimDelivery | apps/api/src/team-chat-bridge.ts:1221-1231 | the claim is the protocol's step: it wins exactly on a running row without a handle, nothing has been posted then, and otherwise it leaves the row it met |
| TeamChatBridge.Connection.GiveUpExpired | apps/api/src/team-chat-bridge.ts:1243-1260 | a delivering row without a handle whose reservation ran out becomes delivered and unconfirmed, any other row is left as it was, and the delivery is over |
| TeamChatBridge.Connection.ReserveDelivery | apps/api/src/team-chat-bridge.ts:1221-1261 | true only with the reservation just won on a row for which nothing was posted; otherwise this pass is done with the row, or a call threw |
| TeamChatBridge.Connection.Send | apps/api/src/team-chat-bridge.ts:1213 | the provider is asked to post, and this is the first time for the row under any interleaving |
| TeamChatBridge.Connection.SendOnce | apps/api/src/team-chat-bridge.ts:1196-1219 | with the handle already stored, or else after the one post with the handle the provider returned, the row ends delivered unless a call threw |
| TeamChatBridge.Connection.DeliverOne | apps/api/src/team-chat-bridge.ts:1142-1194 | a silent answer or silent failure is recorded without posting; a reserved reply ends delivered with the handle found stored or that of the one post; it hands over to retry only if a call threw |
| TeamChatBridge.Connection.DeliverEnded | apps/api/src/team-chat-bridge.ts:668-687 | the loop body over ended runs, retry included, refines the protocol and always ends the pass for the row |
| TeamChatBridge.Connection.FinishAcknowledged | apps/api/src/team-chat-bridge.ts:1286-1291 | a post whose handle is stored is finalized as delivered with that handle |
| TeamChatBridge.Connection.WriteBack | apps/api/src/team-chat-bridge.ts:1293-1316 | the conditional write is the protocol's step: a row that changed since it was read, or has a handle, is left alone; else a queueing row goes back to received, any other status stays, with the attempt counted and the backoff set |
| TeamChatBridge.Connection.Retry | apps/api/src/team-chat-bridge.ts:1276-1316 | re-read, then finish an acknowledged post or write conditionally, then resume the pass; what it reports finished is delivered |
| ThreadPages.LoadMessagePage | apps/api/src/thread-message-pages.ts:50-79 | the cursor loop ends for every page size from 1; a page holds at most that many messages, and exactly the newest rows below the cursor, with a cursor if there are older ones, when they are wanted whole |
| ThreadPages.PageShows | apps/api/src/thread-message-pages.ts:50-79 | for every view, the page is what is visible of one window of the page size, after skipping whole pages that had only receipts to show, and its cursor is the start of that window exactly if there are older rows |
| ThreadPages.PagingAgreesWithHistory | apps/api/src/thread-message-pages.ts:50-79 | following olderCursor to the end yields the visible rows in order without repeats, losing nothing but receipts, and not even those when receipts or peer runs are included |
| ThreadPages.CursorDescends | apps/api/src/thread-message-pages.ts:68-78 | each cursor lies strictly below its page, so paging ends |
| ThreadPages.PageCovers | apps/api/src/thread-message-pages.ts:50-79 | one page shows everything visible between its own end and the next page's, up to receipts |
| ThreadPages.LoadAllMessages | apps/api/src/thread-message-pages.ts:81-94 | returns exactly the stored history, for every page size from 1 |
| ThreadPages.WithoutPeerRunMessages | apps/api/src/thread-message-pages.ts:96-119 | keeps exactly the visible rows, in order |
| ThreadPages.LoadAround | apps/api/src/thread-message-pages.ts:24-48 | shows the visible rows of the window, with a cursor exactly when older rows exist |
| ThreadPages.AroundContainsTarget | apps/api/src/thread-message-pages.ts:24-33 | for every page size from 1 and any gaps the window holds the row asked for, although it may span one sequence number more than it may return |
| ThreadPages.AroundShows | apps/api/src/thread-message-pages.ts:24-33 | the window holds, in order, the oldest rows at most half a page from the target, up to the page size, all of them if they fit |
| ThreadSend.TargetServed | apps/api/src/thread-target.ts:649-890 | each target is answered on all its waiting runs, else steered into one live run, else given one new run, never two of these, and the receipt lists for it exactly those runs |
| ThreadSend.ListingInOrder | apps/api/src/thread-target.ts:852-890 | the receipt lists runs in target order |
| ThreadSend.ReceiptLists | apps/api/src/thread-target.ts:190-210 | the receipt itself: the message's number, the first run and its task, and for every target, in target order and without repeats, exactly the runs it was answered on, steered into or given |
| ThreadSend.ReplayLists | apps/api/src/thread-target.ts:145-210 | the replayed receipt lists the same, outside the steering exception |
| ThreadSend.LiveKept | apps/api/src/thread-target.ts:649-890 | every bot keeps the live runs it had, and a target without one gets exactly one |
| ThreadSend.AtMostOneLive | apps/api/src/thread-target.ts:649-890 | at most one live run per bot stays so over a send: all runs in a group, runs no other bot triggered in a direct thread |
| ThreadSend.RunsAfterSend | apps/api/src/thread-target.ts:655-890 | run by run: a found run that waited is queued, every other run is as it was, and the new ids are used for exactly the targets that had no run |
| ThreadSend.NothingSuperseded | apps/api/src/thread-target.ts:212-240 | with serial transactions superseding changes no run |
| ThreadSend.SupersedesExactly | apps/api/src/thread-target.ts:212-240 | superseding cancels exactly the queued runs of these bots, not kept, that a user's message or a reaction asked for |
| ThreadSend.ReplayRebuildsReceipt | apps/api/src/thread-target.ts:145-210 | while the runs exist, a replay returns the same seq, run order, first run and task exactly when it is not a direct steering send with a run sourced at its message |
| ThreadSend.HistoryKeeps | packages/db/src/events.ts:1115-1205 | whatever sends, status changes, completions, failures and continuations follow, messages, receipts, runs and where runs came from stay, and a message gains a run exactly when it is continued |
| ThreadSend.ReplayAfterHistory | apps/api/src/thread-target.ts:145-210 | over every such history a replay returns the original receipt if and only if the send was not a direct steering one whose message has been continued since |
| ThreadSend.UnreadSteerChangesReceipt | packages/db/src/events.ts:1125-1205 | whenever a steered run completes without reading the message, the replay answers with the continuation |
| ThreadSend.FailedSteerChangesReceipt | packages/db/src/events.ts:1134-1205 | whenever a steered run fails, even having read the message, the message can be continued and the replay answers with the continuation |
| ThreadSend.SteerReplayDiffers | packages/db/src/events.ts:1189-1200 | one concrete thread in which the replay names run 3 and task 13 instead of run 1 and task 11 |
| ThreadSendCalls.Thread.AnswerAll | apps/api/src/thread-target.ts:658-679 | answers every waiting run, or reports the first that takes no text |
| ThreadSendCalls.Thread.SendToBot | apps/api/src/thread-target.ts:627-778 | commits exactly the specified rows and receipt, or refuses and leaves no trace |
| ThreadSendCalls.Thread.AnswerGroup | apps/api/src/thread-target.ts:809-851 | one pass collects each bot's waiting runs and its first other run while answering, or stops at a run it cannot answer |
| ThreadSendCalls.Thread.ServeTargets | apps/api/src/thread-target.ts:852-890 | one pass over the targets lists, steers and creates as specified |
| ThreadSendCalls.Thread.SendToGroup | apps/api/src/thread-target.ts:780-925 | commits exactly the specified rows and receipt, or refuses for a taken nonce, a pending ask or no target and leaves no trace |
| ThreadSendCalls.SentLists | apps/api/src/thread-target.ts:627-926 | a send commits exactly if its nonce is free, nothing unanswerable waits and there is a target, and then answers with such a receipt |
| ThreadSendCalls.Thread.ReplayExistingSend | apps/api/src/thread-target.ts:145-189 | answers for the one message stored under the nonce, or not at all |
| ThreadSendCalls.Thread.SendThreadMessage | apps/api/src/thread-target.ts:595-938 | replays first; else commits in whatever the rows have become; else replays the winner of a race for the nonce |
| ThreadSendCalls.SameNonceSameReceipt | apps/api/src/thread-target.ts:927-931 | a second send under a used nonce is refused by the database and, with the one steering exception, answers with the first one's receipt |
| ThreadSendCalls.SendStaysSound | apps/api/src/thread-target.ts:627-926 | nonces stay unique and every source and steering row refers to a stored message |
| ThreadSendCalls.RestSteerable | apps/api/src/thread-target.ts:701-705 | once no run waits for input every active run can be steered, so the conflict there never occurs |
| LocalStack.StepKeeps | apps/desktop/src/local-stack.ts:355-425 | every call and every callback keeps the ticket protocol's invariant |
| LocalStack.NeverOverlap | apps/desktop/src/local-stack.ts:351-390 | for any calls and completions at most one of run() and runStop() is active |
| LocalStack.SupersededNeverRuns | apps/desktop/src/local-stack.ts:357-374 | a start voided by a later stop never runs |
| LocalStack.StopSupersedes | apps/desktop/src/local-stack.ts:373-376 | every start still waiting when stop() is called is voided for good |
| LocalStack.StopAborts | apps/desktop/src/local-stack.ts:377-378 | stop() aborts the attempt that is running unless it joins a stop already waiting for it |
| LocalStack.CallReturnsNewest | apps/desktop/src/local-stack.ts:355-390 | each call returns the newest promise, of its own kind |
| LocalStack.CallsJoinOrQueue | apps/desktop/src/local-stack.ts:355-390 | in every reachable state a call joins or queues one promise behind those in force; a stop voids every ticket so far and aborts the attempt in flight and no other |
| LocalStack.LatestIntentWins | apps/desktop/src/local-stack.ts:355-390 | at rest the body executed last is the one the last call asked for, except exactly when that is a start queued behind a rejected stop |
| LocalStack.NeverStuck | apps/desktop/src/local-stack.ts:355-390 | until everything settles some promise can proceed |
| LocalStack.RejectedStopLosesTheStart | apps/desktop/src/local-stack.ts:358-361 | a run in which the last call is a start and only the stop before it was executed |
| LocalStackController.Controller.Start | apps/desktop/src/local-stack.ts:355-365 | joins or queues as specified, keeps the invariant and returns the newest promise |
| LocalStackController.Controller.Stop | apps/desktop/src/local-stack.ts:373-390 | voids, joins or queues as specified, keeps the invariant and returns the newest promise |
| LocalStackController.Controller.OnReady | apps/desktop/src/local-stack.ts:358-360 | the queued callback skips a voided or rejected start, else begins the body |
| LocalStackController.Controller.OnBodyDone | apps/desktop/src/local-stack.ts:413-425 | the end of a body releases the abort controller it owns |
| LocalStackController.Controller.OnFinally | apps/desktop/src/local-stack.ts:360-387 | the finally callback clears the field only if it still holds this promise |
| Routines.SerialStep | packages/adapters/src/executor.ts:955-1080 | with one operation at a time on each routine, a step keeps rows sound, every idle routine in agreement with the queue and every operation finding what it left, if and only if it is not one of the two dropping branches |
| Routines.SerialRunKeeps | packages/adapters/src/executor.ts:955-1080 | the same over every run of such steps |
| Routines.IdleRoutineAgrees | apps/api/src/router.ts:2307-2477 | over every such run an idle routine has a wakeup queued exactly when it is active on a schedule, and for exactly its stored next run |
| Routines.UpdateEndToEnd | apps/api/src/router.ts:2356-2468 | an accepted update of a live bot's routine stores the edited fields and the next run due after the edit (none, a one-shot's time, the date of the new schedule, or what it was), and queues the wakeup for exactly that time |
| Routines.AcceptedExactly | apps/api/src/router.ts:2364-2430 | which updates are accepted, as one condition |
| Routines.CreateEndToEnd | apps/api/src/router.ts:2318-2353 | an accepted draft becomes the row, with its wakeup queued if it is active on a schedule |
| Routines.DraftAcceptedExactly | apps/api/src/router.ts:2307-2324 | which drafts are accepted, as one condition |
| Routines.WakeEndToEnd | packages/adapters/src/executor.ts:955-1080 | a due wakeup starts a run, moves the row to its next run or switches it off, and queues that; if the start fails everything is as before |
| Routines.WakeupsNotDue | packages/adapters/src/executor.ts:955-962 | an early wakeup goes back untouched, one that is not the row's is dropped |
| Routines.EndsWithoutWakeup | apps/api/src/router.ts:2469-2475 | removing a routine, or archiving its bot, ends with no wakeup |
| Routines.StepGood | apps/api/src/router.ts:2307-2477 | under any interleaving, a step keeps every row sound and every routine's next run queued or in the hands of an operation under way if and only if it finds the next run it carries still in the row (or nothing left to do) or another operation sees to it, and it does not mix two rows |
| Routines.LastStepLoses | packages/adapters/src/executor.ts:1002-1080 | the last operation under way on a routine leaves row and queue in agreement exactly when it ends finding that |
| Routines.RunAgrees | apps/api/src/router.ts:2307-2477 | operations on one routine may overlap at will: if each finds at its awaits what it left there, an idle routine has a wakeup queued exactly when it is active on a schedule, and for exactly its next run |
| Routines.SerialIsSafe | apps/api/src/router.ts:2307-2477 | one operation at a time on a routine is a special case of that |
| Routines.RenameDuringStart | packages/adapters/src/executor.ts:1002-1078 | a run with an update in the middle of a wakeup that is not serial and keeps agreement |
| Routines.RearmOvertakesEdit | packages/adapters/src/executor.ts:1002-1078 | a run in which a worker re-arms after the user moved the schedule: the row says 150, the queue 200 |
| Routines.StaleRenameRevertsClaim | apps/api/src/router.ts:2356-2466 | a run in which a rename writes an already fired next run back |
| Routines.ArchivedBotLoses | apps/api/src/router.ts:2431-2467 | a run without overlap in which an update stores a next run nothing is queued for |
| Routines.OneShotFiresOnce | packages/adapters/src/executor.ts:984-1060 | under any interleaving a one-shot starts at most one run for good, failed starts that are undone and tried again included, unless an update gives it a new schedule or writes it back to active with a next run after it ran |
| Routines.SpentNeverFires | apps/api/src/router.ts:2382-2393 | a one-shot that has run is never started again, whatever interleaves, under the same proviso |
| Routines.StaleSwitchFiresTwice | apps/api/src/router.ts:2356-2466 | a run in which an update that read a one-shot before it ran also sets it active, and it starts twice |
| Routines.OtherEditsLeaveSchedule | apps/api/src/router.ts:2394-2430 | an update of other fields leaves next run, activity and queue alone |
| Routines.StepElsewhere | apps/api/src/router.ts:2307-2477 | a step of an operation on one routine touches no other routine's next run, wakeup or operations |
| RoutineHandlers.Desk.CreateRoutine | apps/api/src/router.ts:2307-2350 | refuses as specified, or writes the row and leaves the wakeup to be queued |
| RoutineHandlers.Desk.PlanUpdate | apps/api/src/router.ts:2364-2430 | the checks in the source's order give the specified error, or the next run that is due after the edit |
| RoutineHandlers.Desk.ReadForUpdate | apps/api/src/router.ts:2356-2430 | reads and checks the routine and computes the next run the write will store |
| RoutineHandlers.Desk.WriteUpdate | apps/api/src/router.ts:2431-2445 | writes the given fields over whatever is stored by then, with the next run computed from what was read |
| RoutineHandlers.Desk.SyncUpdate | apps/api/src/router.ts:2446-2468 | refuses late for an archived bot, else brings the queue in line with the row just written |
| RoutineHandlers.Desk.RemoveRoutine | apps/api/src/router.ts:2469-2475 | deletes the row and leaves the wakeup to be cancelled |
| RoutineHandlers.Desk.LookAtRoutine | packages/adapters/src/executor.ts:955-1000 | drops a stale wakeup, puts an early one back, drops one without a thread, else prepares the claim |
| RoutineHandlers.Desk.ClaimRoutine | packages/adapters/src/executor.ts:1002-1035 | the guarded claim moves the row exactly when it is still active and due at the same time |
| RoutineHandlers.Desk.HandOverRun | packages/adapters/src/executor.ts:1036-1058 | queues the run, or undoes the claim if the row still shows it and lets the job be tried again |
| RoutineHandlers.Desk.RearmRoutine | packages/adapters/src/executor.ts:1071-1079 | cancels a one-shot's wakeup or queues the next one, whatever the row says by then |
| Handshake.TailSuffices | apps/web/vite.config.ts:235-239 | three kept bytes and the chunk contain a boundary exactly when everything received does |
| Handshake.Scanner.ForwardHandshake | apps/web/vite.config.ts:227-254 | the incremental scan has the outcome of rescanning everything received |
| Handshake.FiresAtFirst | apps/web/vite.config.ts:227-254 | within 64 KiB the scan ends at exactly the first chunk whose concatenation contains the boundary, with that concatenation as head |
| Handshake.WaitsWithout | apps/web/vite.config.ts:236-239 | within 64 KiB it is still waiting exactly when no boundary has arrived |
| Handshake.LimitStops | apps/web/vite.config.ts:230-234 | past 64 KiB it has stopped, and a head it found earlier is within the limit |
| Handshake.ChunkingIrrelevant | apps/web/vite.config.ts:227-254 | how the bytes were cut does not decide whether a head is found |
| LineSplitter.JoinSplit | apps/desktop/src/docker-cli.ts:171-173 | the split joined by newlines is the text, and no piece holds a newline |
| LineSplitter.SplitJoin | apps/desktop/src/docker-cli.ts:171-173 | the split is the only such list of pieces |
| LineSplitter.SplitAppend | apps/desktop/src/docker-cli.ts:171-172 | more text only continues the last piece |
| LineSplitter.Stream.OnData | apps/desktop/src/docker-cli.ts:168-174 | emitted pieces and the open one are the split of everything received |
| LineSplitter.Stream.OnClose | apps/desktop/src/docker-cli.ts:180-182 | with the final flush the emitted pieces are exactly the split |
| LineSplitter.EmitAll | apps/desktop/src/docker-cli.ts:162-182 | for any chunking the captured text is the whole text and the lines are those of its newline split |
| LineSplitter.RenderingMeans | apps/desktop/src/docker-cli.ts:162-166 | a rendering is the end of its piece after the last carriage return |
| LineSplitter.TrimMeans | apps/desktop/src/docker-cli.ts:162-166 | trimming takes off all blanks at the end and nothing else |
| AutoUpdate.ReduceShown | apps/desktop/src/auto-update.ts:94-189 | every event keeps the shown state well formed and never leaves ready |
| AutoUpdate.StepAnswers | apps/desktop/src/auto-update.ts:94-426 | what each event, call and continuation brings about, one by one: offers, progress rounded to whole percent, ready with version and 100, each class of failure, checks begun, joined or throttled, downloads and installs begun |
| AutoUpdate.CheckToInstall | apps/desktop/src/auto-update.ts:247-426 | the whole way: for every usable version a check leads to an offer, a download, a ready update and an install |
| AutoUpdate.StepKeeps | apps/desktop/src/auto-update.ts:247-426 | every operation, continuation and event keeps the display, throttle, freeze and install invariants |
| AutoUpdate.EveryRun | apps/desktop/src/auto-update.ts:94-426 | over every run ready carries a usable version and percent 100, a download shows 0 to 100, feed checks are 60 s apart unless checking was thawed in between, every thaw follows a feed found empty and after that a manual check call, and no install starts while one is under way |
| AutoUpdate.CloseChecks | apps/desktop/src/auto-update.ts:331-359 | for any two feed checks closer than 60 s it names the thaw between them, the empty feed it lifts and the manual call after that feed which asked for it, with no other thaw since |
| AutoUpdate.ReadyStays | apps/desktop/src/auto-update.ts:94-189 | once ready, always ready |
| AutoUpdate.UnsupportedStaysQuiet | apps/desktop/src/auto-update.ts:341-373 | a build that cannot update never asks the feed and never thaws, however often a check is asked for by hand |
| AutoUpdateController.DesktopUpdateController.CheckForUpdate | apps/desktop/src/auto-update.ts:331-359 | joins a check under way, is throttled, or begins one, thawing an empty feed for a manual retry |
| AutoUpdateController.DesktopUpdateController.OnCheckLoaded | apps/desktop/src/auto-update.ts:360-373 | asks the feed only if checking is still due |
| AutoUpdateController.DesktopUpdateController.OnUpdateAvailable | apps/desktop/src/auto-update.ts:289-301 | an offer with a usable version is shown and its download begun unless one is under way or done; any other is a failure |
| AutoUpdateController.DesktopUpdateController.OnUpdateDownloaded | apps/desktop/src/auto-update.ts:307-318 | a finished download with a usable version is ready with that version and percent 100 |
| AutoUpdateController.DesktopUpdateController.OnDownloadProgress | apps/desktop/src/auto-update.ts:303-306 | progress of a download is shown as the nearest whole percent |
| AutoUpdateController.DesktopUpdateController.OnUpdateNotAvailable | apps/desktop/src/auto-update.ts:302 | nothing new ends an undecided state idle, without a version |
| AutoUpdateController.DesktopUpdateController.OnDownloadLoaded | apps/desktop/src/auto-update.ts:384-397 | downloads only what is still offered |
| AutoUpdateController.DesktopUpdateController.OnInstallLoaded | apps/desktop/src/auto-update.ts:411-426 | installs only from ready and never twice at once; a throw is that install's failure |
| AutoUpdateController.DesktopUpdateController.OnError | apps/desktop/src/auto-update.ts:399-409 | an error during an install ends that install and leaves the update ready |

## Left out

* Transcript mirroring, prompt rendering, `lastError` and `deliveredAt`, and how many delegated replies are delivered: no ownership or delivery decision reads them.
* Deleting rows, runs or conversations: the protocol's row exists throughout, and replays are claimed while their runs exist.
* Liveness of TeamChat beyond recovery: a stuck provider or database may delay a row for ever.
* Sends in concurrent transactions: each send is one atomic step; the race for a nonce is modelled, other conflicts are left to the database's serialisation.
* Reactions, stopping runs, attachments, mentions and reply quotes in thread sends: they decide neither which run a bot gets nor the receipt.
* `around` by message id: it looks up the sequence number and continues as `LoadAround`; a missing message falls through to the plain page.
* A crash or a failing queue call between a routine's row and its wakeup, other than the failed start of a run, which is modelled; the reconciler that repairs such rows; and creation of routines from chat.
* The steps of the compose attempt, the stack's display reducer and layer progress: single functions without interleaving.
* Text decoding before the line splitter: a multi-byte character cut between two chunks is decoded per chunk in the source, so the model starts from decoded text. Trailing blanks are space, tab, carriage return and newline only.
* Header stripping after the handshake head is found, classification of updater error texts, and the updater's own package.
* TeamChatExclusivity.WakeAndAgentExclude: claims exclusivity only for runs whose steps meet the step conditions, because the code does not provide it without them.
* TeamChatDeployments.OneInstanceExcludes: assumes that no second delivery wins the deferral while a handler is at work, that no renewal throws before its wake committed and that no wake reserves an observed row, because exclusivity fails with each of them.
* TeamChatDeployments.ManyInstancesExclude: assumes the lease, instant, renewal and retry conditions, because exclusivity fails without each of them.
* TeamChatBridge.Connection.Retry: a call of retry itself that throws rejects the whole pass; the protocol has that step, the method does not.
* Routines.StepElsewhere: speaks of steps on one routine; archiving a bot changes all of its routines at once.
