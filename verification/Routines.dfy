/** Routine rows against the wakeup queue: create, update, remove, archiving and the wakeup itself,
    step by step, so that operations may interleave at every await; and exactly when the queued
    wakeup stands for the stored `nextRunAt`. */
module Routines {
  import opened Wrappers

  /** A schedule entry; `Once` is "@once" up to surrounding blanks, `Recurring` any other text. */
  datatype Cron = Once(blanks: string) | Recurring(text: string)

  datatype Routine = Routine(
    bot: nat, name: string, crons: seq<Cron>, timezone: string, active: bool,
    webhook: bool, github: bool, provider: Option<string>,
    lastRunAt: Option<nat>, nextRunAt: Option<nat>)

  /** The fields an update carries; `None` leaves the stored value. */
  datatype Edit = Edit(
    name: Option<string>, crons: Option<seq<Cron>>, timezone: Option<string>, active: Option<bool>,
    webhook: Option<bool>, github: Option<bool>, provider: Option<Option<string>>, runAt: Option<RunAt>)

  datatype RunAt = Blank | Unreadable | At(time: nat)

  datatype Error =
    | NotFound | NoTrigger | MixedSchedule | OneShotFromChat | AlreadyRan | BadCron
    | RunTimeMissing | RunTimePast | RunTimeUnwanted

  /** An operation on a routine between two of its awaits. */
  datatype Pending =
    | Enqueueing(at: nat)                                        // create: the row is written
    | Editing(existing: Routine, edit: Edit, now: nat, next: Option<nat>)  // update: read and checked
    | Syncing(existing: Routine, edit: Edit, row: Routine)       // update: the row is written
    | Cancelling                                                 // remove or archive: the row is written
    | Waking(at: nat)                                            // the worker has taken the wakeup
    | Claiming(at: nat, seen: Routine, again: Option<nat>)       // it has read the routine
    | Starting(at: nat, previous: Option<nat>, again: Option<nat>, oneShot: bool)  // it has claimed the row
    | Rearming(again: Option<nat>, oneShot: bool)                // the run is handed over

  /** Rows by id, wakeups by job key with the time they are queued for, the bots not archived, and the
      operations under way on each routine. */
  datatype State = State(rows: map<nat, Routine>, jobs: map<nat, nat>, live: set<nat>, pending: map<nat, seq<Pending>>)

  /** How far ahead of its time a wakeup may start, in milliseconds. */
  const EARLY_MS := 1_000

  predicate IsOneShot(crons: seq<Cron>) {
    |crons| == 1 && crons[0].Once?
  }

  predicate HasMixedOneShot(crons: seq<Cron>) {
    |crons| > 1 && exists i :: 0 <= i < |crons| && crons[i].Once?
  }

  predicate Recurs(crons: seq<Cron>) {
    crons != [] && !IsOneShot(crons)
  }

  function Or<T>(o: Option<T>, stored: T): T {
    if o.Some? then o.value else stored
  }

  predicate Truthy(provider: Option<string>) {
    provider.Some? && provider.value != ""
  }

  function PendingOf(s: State, id: nat): seq<Pending> {
    if id in s.pending then s.pending[id] else []
  }

  function JobOf(s: State, id: nat): Option<nat> {
    if id in s.jobs then Some(s.jobs[id]) else None
  }

  function NextOf(s: State, id: nat): Option<nat> {
    if id in s.rows then s.rows[id].nextRunAt else None
  }

  function Begin(s: State, id: nat, p: Pending): State {
    s.(pending := s.pending[id := PendingOf(s, id) + [p]])
  }

  function Becomes(s: State, id: nat, k: nat, p: Pending): State
    requires k < |PendingOf(s, id)|
  {
    s.(pending := s.pending[id := PendingOf(s, id)[k := p]])
  }

  function SetJob(s: State, id: nat, job: Option<nat>): State {
    s.(jobs := if job.Some? then s.jobs[id := job.value] else s.jobs - {id})
  }

  /** The operation is over and leaves this wakeup behind. */
  function End(s: State, id: nat, k: nat, job: Option<nat>): State
    requires k < |PendingOf(s, id)|
  {
    SetJob(s.(pending := s.pending[id := PendingOf(s, id)[..k] + PendingOf(s, id)[k + 1..]]), id, job)
  }

  // ---- create ----

  /** `next` is the earliest run of the schedule, `None` when it has none or does not parse. */
  function CreateRefusal(s: State, d: Routine, next: Option<nat>): Option<Error> {
    if HasMixedOneShot(d.crons) then Some(MixedSchedule)
    else if d.active && IsOneShot(d.crons) then Some(OneShotFromChat)
    else if d.bot !in s.live then Some(NotFound)
    else if Recurs(d.crons) && next.None? then Some(BadCron)
    else None
  }

  function CreateRow(s: State, id: nat, d: Routine, next: Option<nat>): State {
    if CreateRefusal(s, d, next).Some? then s
    else
      var row := d.(lastRunAt := None, nextRunAt := if d.active && Recurs(d.crons) then next else None);
      var written := s.(rows := s.rows[id := row]);
      if row.nextRunAt.Some? then Begin(written, id, Enqueueing(row.nextRunAt.value)) else written
  }

  // ---- update ----

  predicate ScheduleChanged(r: Routine, e: Edit) {
    || (!r.active && Or(e.active, r.active))
    || (e.crons.Some? && e.crons.value != r.crons)
    || (e.timezone.Some? && e.timezone.value != r.timezone)
  }

  /** Must the next run be computed from the schedule? */
  predicate Recalculates(r: Routine, e: Edit) {
    Recurs(Or(e.crons, r.crons)) && (ScheduleChanged(r, e) || (Or(e.active, r.active) && r.nextRunAt.None?))
  }

  /** Is this the update that gives a never-run one-shot its time? */
  predicate Arms(r: Routine, e: Edit) {
    Or(e.active, r.active) && IsOneShot(Or(e.crons, r.crons)) && r.nextRunAt.None? && r.lastRunAt.None?
  }

  function EditRefusal(r: Routine, e: Edit, now: nat, next: Option<nat>): Option<Error> {
    var active, crons := Or(e.active, r.active), Or(e.crons, r.crons);
    if crons == [] && !Or(e.webhook, r.webhook) && !Or(e.github, r.github) && !Truthy(Or(e.provider, r.provider)) then Some(NoTrigger)
    else if HasMixedOneShot(crons) then Some(MixedSchedule)
    else if active && IsOneShot(crons) && !IsOneShot(r.crons) then Some(OneShotFromChat)
    else if active && IsOneShot(crons) && r.nextRunAt.None? && r.lastRunAt.Some? then Some(AlreadyRan)
    else if Recalculates(r, e) && next.None? then Some(BadCron)
    else if Arms(r, e) then
      if e.runAt.None? || e.runAt.value.Blank? then Some(RunTimeMissing)
      else if e.runAt.value.Unreadable? || e.runAt.value.time <= now then Some(RunTimePast)
      else None
    else if e.runAt.Some? then Some(RunTimeUnwanted)
    else None
  }

  function EditedNextRun(r: Routine, e: Edit, next: Option<nat>): Option<nat>
    requires Arms(r, e) ==> e.runAt.Some? && e.runAt.value.At?
  {
    var active, crons := Or(e.active, r.active), Or(e.crons, r.crons);
    if !active || crons == [] then None
    else if IsOneShot(crons) then if Arms(r, e) then Some(e.runAt.value.time) else r.nextRunAt
    else if Recalculates(r, e) then next
    else r.nextRunAt
  }

  /** The write: the edited fields over the stored row, and the next run computed from the row as read. */
  function EditedRow(stored: Routine, existing: Routine, e: Edit, next: Option<nat>): Routine
    requires Arms(existing, e) ==> e.runAt.Some? && e.runAt.value.At?
  {
    stored.(name := Or(e.name, stored.name), crons := Or(e.crons, stored.crons), timezone := Or(e.timezone, stored.timezone),
       active := Or(e.active, stored.active), webhook := Or(e.webhook, stored.webhook), github := Or(e.github, stored.github),
       provider := Or(e.provider, stored.provider), nextRunAt := EditedNextRun(existing, e, next))
  }

  predicate NeedsSync(existing: Routine, e: Edit, row: Routine) {
    existing.active != row.active || ScheduleChanged(existing, e) || (existing.nextRunAt.None? && row.nextRunAt.Some?)
  }

  function ReadRow(s: State, id: nat, e: Edit, now: nat, next: Option<nat>): State {
    if id !in s.rows || EditRefusal(s.rows[id], e, now, next).Some? then s
    else Begin(s, id, Editing(s.rows[id], e, now, next))
  }

  /** The routine may be gone by now; then the update fails. */
  function WriteRow(s: State, id: nat, k: nat): State
    requires k < |PendingOf(s, id)| && PendingOf(s, id)[k].Editing? && Checked(PendingOf(s, id)[k])
  {
    var p := PendingOf(s, id)[k];
    if id !in s.rows then End(s, id, k, JobOf(s, id))
    else
      var row := EditedRow(s.rows[id], p.existing, p.edit, p.next);
      Becomes(s.(rows := s.rows[id := row]), id, k, Syncing(p.existing, p.edit, row))
  }

  predicate Checked(p: Pending) {
    p.Editing? ==> EditRefusal(p.existing, p.edit, p.now, p.next).None?
  }

  /** The wakeup an update leaves: none is touched for an archived bot, whose lookup fails, or when
      nothing that matters to the queue changed. */
  function SyncedJob(s: State, id: nat, p: Pending): Option<nat>
    requires p.Syncing?
  {
    if p.row.bot !in s.live || !NeedsSync(p.existing, p.edit, p.row) then JobOf(s, id)
    else if p.row.active then p.row.nextRunAt else None
  }

  // ---- remove, archive ----

  function DeleteRow(s: State, id: nat): State {
    if id !in s.rows then s else Begin(s.(rows := s.rows - {id}), id, Cancelling)
  }

  /** Archiving pauses every routine of the bot, and will cancel the wakeups of those that were active. */
  function Archive(s: State, bot: nat): State {
    var paused := set id | id in s.rows && s.rows[id].bot == bot && s.rows[id].active;
    s.(rows := map id | id in s.rows :: if s.rows[id].bot == bot then s.rows[id].(active := false, nextRunAt := None) else s.rows[id],
       live := s.live - {bot},
       pending := map id | id in s.pending.Keys + paused :: PendingOf(s, id) + (if id in paused then [Cancelling] else []))
  }

  // ---- the wakeup ----

  /** Is this wakeup still the row's? */
  predicate Due(s: State, id: nat, at: nat) {
    id in s.rows && s.rows[id].active && s.rows[id].nextRunAt == Some(at)
  }

  function TakeJob(s: State, id: nat): State
    requires id in s.jobs
  {
    SetJob(Begin(s, id, Waking(s.jobs[id])), id, None)
  }

  /** The worker reads the routine: a stale wakeup is dropped, an early one goes back, and without a
      thread nothing more happens. `next` is the earliest readable schedule after it. */
  function Look(s: State, id: nat, k: nat, now: nat, next: Option<nat>, threaded: bool): State
    requires k < |PendingOf(s, id)| && PendingOf(s, id)[k].Waking?
  {
    var at := PendingOf(s, id)[k].at;
    if !Due(s, id, at) then End(s, id, k, JobOf(s, id))
    else if at > now + EARLY_MS then End(s, id, k, Some(at))
    else if !threaded then End(s, id, k, JobOf(s, id))
    else Becomes(s, id, k, Claiming(at, s.rows[id], if IsOneShot(s.rows[id].crons) then None else next))
  }

  /** The guarded claim: it needs the routine still active and due at the same time. */
  function Claim(s: State, id: nat, k: nat, now: nat): State
    requires k < |PendingOf(s, id)| && PendingOf(s, id)[k].Claiming?
  {
    var p := PendingOf(s, id)[k];
    if !Due(s, id, p.at) then End(s, id, k, JobOf(s, id))
    else
      var row := s.rows[id].(lastRunAt := Some(now), nextRunAt := p.again, active := p.again.Some?);
      Becomes(s.(rows := s.rows[id := row]), id, k, Starting(p.at, p.seen.lastRunAt, p.again, IsOneShot(p.seen.crons)))
  }

  /** Is the claim still what the row says, so that a failed start may undo it? */
  predicate Restorable(s: State, id: nat, p: Pending)
    requires p.Starting?
  {
    id in s.rows && s.rows[id].nextRunAt == p.again && (p.again.None? ==> !s.rows[id].active)
  }

  /** The run is queued, or that fails: then the claim is undone and the failed job is tried again. */
  function HandOver(s: State, id: nat, k: nat, ok: bool): State
    requires k < |PendingOf(s, id)| && PendingOf(s, id)[k].Starting?
  {
    var p := PendingOf(s, id)[k];
    if ok then Becomes(s, id, k, Rearming(p.again, p.oneShot))
    else
      var rows := if Restorable(s, id, p)
        then s.rows[id := s.rows[id].(nextRunAt := Some(p.at), active := true, lastRunAt := p.previous)] else s.rows;
      End(s.(rows := rows), id, k, RetriedJob(s, id, p))
  }

  function RetriedJob(s: State, id: nat, p: Pending): Option<nat>
    requires p.Starting?
  {
    if id in s.jobs then Some(s.jobs[id]) else Some(p.at)
  }

  function RearmedJob(s: State, id: nat, p: Pending): Option<nat>
    requires p.Rearming?
  {
    if p.oneShot then None else if p.again.Some? then p.again else JobOf(s, id)
  }

  // ---- the whole system ----

  datatype Op =
    | DoCreate(id: nat, draft: Routine, next: Option<nat>)
    | DoEnqueue(id: nat, k: nat)
    | DoRead(id: nat, edit: Edit, now: nat, next: Option<nat>)
    | DoWrite(id: nat, k: nat)
    | DoSync(id: nat, k: nat)
    | DoDelete(id: nat)
    | DoCancel(id: nat, k: nat)
    | DoArchive(bot: nat)
    | DoRestore(bot: nat)
    | DoTake(id: nat)
    | DoLook(id: nat, k: nat, now: nat, next: Option<nat>, threaded: bool)
    | DoClaim(id: nat, k: nat, now: nat)
    | DoHandOver(id: nat, k: nat, ok: bool)
    | DoRearm(id: nat, k: nat)

  /** Ids are generated, only queued wakeups are taken, and a continuation runs where its operation is. */
  predicate Possible(s: State, op: Op) {
    match op
    case DoCreate(id, _, _) => id !in s.rows && id !in s.jobs && PendingOf(s, id) == []
    case DoEnqueue(id, k) => k < |PendingOf(s, id)| && PendingOf(s, id)[k].Enqueueing?
    case DoRead(_, _, _, _) => true
    case DoWrite(id, k) => k < |PendingOf(s, id)| && PendingOf(s, id)[k].Editing? && Checked(PendingOf(s, id)[k])
    case DoSync(id, k) => k < |PendingOf(s, id)| && PendingOf(s, id)[k].Syncing?
    case DoDelete(_) => true
    case DoCancel(id, k) => k < |PendingOf(s, id)| && PendingOf(s, id)[k].Cancelling?
    case DoArchive(_) => true
    case DoRestore(_) => true
    case DoTake(id) => id in s.jobs
    case DoLook(id, k, _, _, _) => k < |PendingOf(s, id)| && PendingOf(s, id)[k].Waking?
    case DoClaim(id, k, _) => k < |PendingOf(s, id)| && PendingOf(s, id)[k].Claiming?
    case DoHandOver(id, k, _) => k < |PendingOf(s, id)| && PendingOf(s, id)[k].Starting?
    case DoRearm(id, k) => k < |PendingOf(s, id)| && PendingOf(s, id)[k].Rearming?
  }

  function Step(s: State, op: Op): State
    requires Possible(s, op)
  {
    match op
    case DoCreate(id, draft, next) => CreateRow(s, id, draft, next)
    case DoEnqueue(id, k) => End(s, id, k, Some(PendingOf(s, id)[k].at))
    case DoRead(id, edit, now, next) => ReadRow(s, id, edit, now, next)
    case DoWrite(id, k) => WriteRow(s, id, k)
    case DoSync(id, k) => End(s, id, k, SyncedJob(s, id, PendingOf(s, id)[k]))
    case DoDelete(id) => DeleteRow(s, id)
    case DoCancel(id, k) => End(s, id, k, None)
    case DoArchive(bot) => Archive(s, bot)
    case DoRestore(bot) => s.(live := s.live + {bot})
    case DoTake(id) => TakeJob(s, id)
    case DoLook(id, k, now, next, threaded) => Look(s, id, k, now, next, threaded)
    case DoClaim(id, k, now) => Claim(s, id, k, now)
    case DoHandOver(id, k, ok) => HandOver(s, id, k, ok)
    case DoRearm(id, k) => End(s, id, k, RearmedJob(s, id, PendingOf(s, id)[k]))
  }

  // ---- agreement under any interleaving ----

  /** The queued wakeup is the stored next run. */
  predicate Matched(s: State, id: nat) {
    JobOf(s, id) == NextOf(s, id)
  }

  /** A next run is stored exactly for an active routine with a schedule. */
  predicate Scheduled(r: Routine) {
    r.nextRunAt.Some? <==> r.active && r.crons != []
  }

  /** The next run an operation under way has in hand: it will bring the queue there when it ends, or,
      when it is a wakeup on its way, move the row on. */
  function Carries(p: Pending): Option<Option<nat>> {
    match p
    case Enqueueing(at) => Some(Some(at))
    case Editing(_, _, _, _) => None
    case Syncing(existing, edit, row) => if NeedsSync(existing, edit, row) then Some(row.nextRunAt) else None
    case Cancelling => Some(None)
    case Waking(at) => Some(Some(at))
    case Claiming(at, _, _) => Some(Some(at))
    case Starting(_, _, again, oneShot) => if again.Some? || oneShot then Some(again) else None
    case Rearming(again, oneShot) => if again.Some? || oneShot then Some(again) else None
  }

  predicate Carried(ps: seq<Pending>, next: Option<nat>) {
    exists j :: 0 <= j < |ps| && Carries(ps[j]) == Some(next)
  }

  /** An operation other than the `k`-th carries it. */
  predicate CarriedBut(ps: seq<Pending>, k: nat, next: Option<nat>) {
    exists j :: 0 <= j < |ps| && j != k && Carries(ps[j]) == Some(next)
  }

  /** What the code between two awaits hands to the code after. */
  predicate Formed(p: Pending) {
    match p
    case Editing(existing, edit, now, next) => Scheduled(existing) && EditRefusal(existing, edit, now, next).None?
    case Syncing(_, _, row) => Scheduled(row)
    case Claiming(_, seen, again) => IsOneShot(seen.crons) ==> again.None?
    case Starting(_, _, again, oneShot) => oneShot ==> again.None?
    case Rearming(again, oneShot) => oneShot ==> again.None?
    case _ => true
  }

  predicate AllFormed(ps: seq<Pending>) {
    forall j :: 0 <= j < |ps| ==> Formed(ps[j])
  }

  predicate ScheduledHere(s: State, id: nat) {
    id in s.rows ==> Scheduled(s.rows[id])
  }

  /** The row is sound, and it agrees with the queue or some operation under way carries its next run. */
  predicate GoodHere(s: State, id: nat) {
    && ScheduledHere(s, id) && AllFormed(PendingOf(s, id))
    && (Matched(s, id) || Carried(PendingOf(s, id), NextOf(s, id)))
  }

  ghost predicate Good(s: State) {
    forall id :: GoodHere(s, id)
  }

  // what each step finds at its own await

  /** The row write puts what the update computed from one row over another: the two must be alike in
      being active on a schedule, as far as the update does not set that itself. */
  predicate Mixes(s: State, op: Op)
    requires Possible(s, op)
  {
    match op
    case DoWrite(id, k) =>
      var p := PendingOf(s, id)[k];
      id in s.rows && OnSchedule(s.rows[id], p.edit) != OnSchedule(p.existing, p.edit)
    case DoHandOver(id, k, ok) =>
      !ok && Restorable(s, id, PendingOf(s, id)[k]) && s.rows[id].crons == []
    case _ => false
  }

  predicate OnSchedule(r: Routine, e: Edit) {
    Or(e.active, r.active) && Or(e.crons, r.crons) != []
  }

  /** The queue is, or is brought, where the step leaves the row: an operation that writes the queue finds
      the next run it carries still in the row, and one that does not write it finds nothing left to do. */
  predicate Lands(s: State, op: Op)
    requires Possible(s, op)
  {
    match op
    case DoEnqueue(id, k) => NextOf(s, id) == Some(PendingOf(s, id)[k].at)
    case DoWrite(id, k) =>
      var p := PendingOf(s, id)[k];
      id in s.rows && !NeedsSync(p.existing, p.edit, EditedRow(s.rows[id], p.existing, p.edit, p.next)) ==>
        JobOf(s, id) == p.existing.nextRunAt
    case DoSync(id, k) =>
      var p := PendingOf(s, id)[k];
      if !NeedsSync(p.existing, p.edit, p.row) then true
      else if p.row.bot in s.live then NextOf(s, id) == p.row.nextRunAt
      else NextOf(s, id) == p.row.nextRunAt ==> JobOf(s, id) == p.row.nextRunAt
    case DoCancel(id, _) => NextOf(s, id) == None
    case DoLook(id, k, now, _, threaded) =>
      var at := PendingOf(s, id)[k].at;
      Due(s, id, at) && at <= now + EARLY_MS && !threaded ==> JobOf(s, id) == Some(at)
    case DoClaim(id, k, _) =>
      var p := PendingOf(s, id)[k];
      Due(s, id, p.at) && p.again.None? && !IsOneShot(p.seen.crons) ==> JobOf(s, id) == None
    case DoHandOver(id, k, ok) =>
      var p := PendingOf(s, id)[k];
      if ok then true
      else if Restorable(s, id, p) then JobOf(s, id).None? || JobOf(s, id) == Some(p.at)
      else if JobOf(s, id).None? then NextOf(s, id) == Some(p.at)
      else !(p.oneShot && NextOf(s, id).None?)
    case DoRearm(id, k) =>
      var p := PendingOf(s, id)[k];
      Carries(p).Some? ==> NextOf(s, id) == p.again
    case _ => true
  }

  /** Does the step go on with an operation under way? */
  predicate Continues(op: Op) {
    || op.DoEnqueue? || op.DoWrite? || op.DoSync? || op.DoCancel?
    || op.DoLook? || op.DoClaim? || op.DoHandOver? || op.DoRearm?
  }

  /** The next run the row has when the step is done. */
  function NextThen(s: State, op: Op): Option<nat>
    requires Possible(s, op) && Continues(op)
  {
    match op
    case DoWrite(id, k) =>
      var p := PendingOf(s, id)[k];
      if id in s.rows then EditedNextRun(p.existing, p.edit, p.next) else None
    case DoClaim(id, k, _) => if Due(s, id, PendingOf(s, id)[k].at) then PendingOf(s, id)[k].again else NextOf(s, id)
    case DoHandOver(id, k, ok) =>
      var p := PendingOf(s, id)[k];
      if !ok && Restorable(s, id, p) then Some(p.at) else NextOf(s, id)
    case DoEnqueue(id, _) => NextOf(s, id)
    case DoSync(id, _) => NextOf(s, id)
    case DoCancel(id, _) => NextOf(s, id)
    case DoLook(id, _, _, _, _) => NextOf(s, id)
    case DoRearm(id, _) => NextOf(s, id)
  }

  /** Somebody else under way on the routine has that next run in hand and will see to it. */
  predicate Relieved(s: State, op: Op)
    requires Possible(s, op)
  {
    Continues(op) && CarriedBut(PendingOf(s, op.id), op.k, NextThen(s, op))
  }

  /** A step that keeps rows sound and the queue accounted for. */
  predicate Safe(s: State, op: Op)
    requires Possible(s, op)
  {
    !Mixes(s, op) && (Lands(s, op) || Relieved(s, op))
  }

  // one step on its own routine

  predicate OnOne(op: Op) {
    !op.DoArchive? && !op.DoRestore?
  }

  /** The wakeup behind, if the step is its operation's last. */
  function Leaves(s: State, op: Op): Option<Option<nat>>
    requires Possible(s, op)
  {
    match op
    case DoEnqueue(id, k) => Some(Some(PendingOf(s, id)[k].at))
    case DoWrite(id, k) => if id in s.rows then None else Some(JobOf(s, id))
    case DoSync(id, k) => Some(SyncedJob(s, id, PendingOf(s, id)[k]))
    case DoCancel(id, k) => Some(None)
    case DoLook(id, k, now, _, threaded) =>
      var at := PendingOf(s, id)[k].at;
      if !Due(s, id, at) then Some(JobOf(s, id))
      else if at > now + EARLY_MS then Some(Some(at))
      else if !threaded then Some(JobOf(s, id)) else None
    case DoClaim(id, k, _) => if Due(s, id, PendingOf(s, id)[k].at) then None else Some(JobOf(s, id))
    case DoHandOver(id, k, ok) => if ok then None else Some(RetriedJob(s, id, PendingOf(s, id)[k]))
    case DoRearm(id, k) => Some(RearmedJob(s, id, PendingOf(s, id)[k]))
    case _ => None
  }

  function Without(ps: seq<Pending>, k: nat): seq<Pending>
    requires k < |ps|
  {
    ps[..k] + ps[k + 1..]
  }

  lemma StepEnds(s: State, op: Op)
    requires Possible(s, op) && Continues(op) && Leaves(s, op).Some?
    ensures var s' := Step(s, op);
      && PendingOf(s', op.id) == Without(PendingOf(s, op.id), op.k)
      && JobOf(s', op.id) == Leaves(s, op).value && NextOf(s', op.id) == NextThen(s, op)
  {
  }

  /** The operation as it goes on, if the step is not its last. */
  function Further(s: State, op: Op): Pending
    requires Possible(s, op) && Continues(op) && Leaves(s, op).None?
  {
    var p := PendingOf(s, op.id)[op.k];
    match op
    case DoWrite(id, _) => Syncing(p.existing, p.edit, EditedRow(s.rows[id], p.existing, p.edit, p.next))
    case DoLook(id, _, _, next, _) => Claiming(p.at, s.rows[id], if IsOneShot(s.rows[id].crons) then None else next)
    case DoClaim(_, _, _) => Starting(p.at, p.seen.lastRunAt, p.again, IsOneShot(p.seen.crons))
    case DoHandOver(_, _, _) => Rearming(p.again, p.oneShot)
    case _ => p
  }

  lemma StepGoesOn(s: State, op: Op)
    requires Possible(s, op) && Continues(op) && Leaves(s, op).None?
    ensures var s' := Step(s, op);
      && PendingOf(s', op.id) == PendingOf(s, op.id)[op.k := Further(s, op)]
      && JobOf(s', op.id) == JobOf(s, op.id) && NextOf(s', op.id) == NextThen(s, op)
  {
  }

  lemma CarriedSplit(ps: seq<Pending>, k: nat, next: Option<nat>)
    requires k < |ps|
    ensures Carried(ps, next) <==> CarriedBut(ps, k, next) || Carries(ps[k]) == Some(next)
  {
  }

  lemma CarriedWithout(ps: seq<Pending>, k: nat, next: Option<nat>)
    requires k < |ps|
    ensures Carried(Without(ps, k), next) <==> CarriedBut(ps, k, next)
    ensures AllFormed(ps) ==> AllFormed(Without(ps, k))
  {
    var rest := Without(ps, k);
    forall j | 0 <= j < |ps| && j != k ensures ps[j] == rest[if j < k then j else j - 1] {}
    forall j | 0 <= j < |rest| ensures rest[j] == ps[if j < k then j else j + 1] {}
    if j :| 0 <= j < |rest| && Carries(rest[j]) == Some(next) {
      assert Carries(ps[if j < k then j else j + 1]) == Some(next);
    }
  }

  lemma CarriedReplaced(ps: seq<Pending>, k: nat, p: Pending, next: Option<nat>)
    requires k < |ps|
    ensures Carried(ps[k := p], next) <==> CarriedBut(ps, k, next) || Carries(p) == Some(next)
    ensures AllFormed(ps) ==> (AllFormed(ps[k := p]) <==> Formed(p))
  {
    var more := ps[k := p];
    assert more[k] == p && forall j :: 0 <= j < |ps| && j != k ==> more[j] == ps[j];
  }

  lemma CarriedAppended(ps: seq<Pending>, p: Pending, next: Option<nat>)
    ensures Carried(ps + [p], next) <==> Carried(ps, next) || Carries(p) == Some(next)
    ensures AllFormed(ps) ==> (AllFormed(ps + [p]) <==> Formed(p))
  {
    var more := ps + [p];
    assert more[|ps|] == p && forall j :: 0 <= j < |ps| ==> more[j] == ps[j];
  }

  /** What an update computes from a row on schedule is on schedule, and without a sync nothing moved. */
  lemma EditedScheduled(stored: Routine, r: Routine, e: Edit, now: nat, next: Option<nat>)
    requires Scheduled(r) && EditRefusal(r, e, now, next).None?
    ensures EditedNextRun(r, e, next).Some? <==> OnSchedule(r, e)
    ensures var row := EditedRow(stored, r, e, next); !NeedsSync(r, e, row) ==> row.nextRunAt == r.nextRunAt
  {
  }

  /** The row stays sound exactly if the step does not mix two rows. */
  lemma StepScheduled(s: State, op: Op)
    requires Possible(s, op) && OnOne(op) && GoodHere(s, op.id)
    ensures ScheduledHere(Step(s, op), op.id) <==> !Mixes(s, op)
  {
    if op.DoWrite? {
      var p := PendingOf(s, op.id)[op.k];
      if op.id in s.rows { EditedScheduled(s.rows[op.id], p.existing, p.edit, p.now, p.next); }
    }
  }

  lemma EndLands(s: State, op: Op)
    requires Possible(s, op) && Continues(op) && Leaves(s, op).Some? && ScheduledHere(s, op.id) && Formed(PendingOf(s, op.id)[op.k])
    requires NextThen(s, op) != NextOf(s, op.id) || Matched(s, op.id) || Carries(PendingOf(s, op.id)[op.k]) == Some(NextOf(s, op.id))
    ensures Leaves(s, op).value == NextThen(s, op) <==> Lands(s, op)
  {
  }

  lemma FurtherFormed(s: State, op: Op)
    requires Possible(s, op) && Continues(op) && Leaves(s, op).None? && ScheduledHere(s, op.id) && Formed(PendingOf(s, op.id)[op.k])
    ensures !Mixes(s, op) ==> Formed(Further(s, op))
  {
    if op.DoWrite? {
      var p := PendingOf(s, op.id)[op.k];
      if op.id in s.rows { EditedScheduled(s.rows[op.id], p.existing, p.edit, p.now, p.next); }
    }
  }

  lemma GoesOnLands(s: State, op: Op)
    requires Possible(s, op) && Continues(op) && Leaves(s, op).None? && ScheduledHere(s, op.id) && Formed(PendingOf(s, op.id)[op.k])
    requires NextThen(s, op) != NextOf(s, op.id) || Matched(s, op.id) || Carries(PendingOf(s, op.id)[op.k]) == Some(NextOf(s, op.id))
    ensures JobOf(s, op.id) == NextThen(s, op) || Carries(Further(s, op)) == Some(NextThen(s, op)) <==> Lands(s, op)
  {
    if op.DoWrite? {
      var p := PendingOf(s, op.id)[op.k];
      if op.id in s.rows { EditedScheduled(s.rows[op.id], p.existing, p.edit, p.now, p.next); }
    }
  }

  /** A step on one routine leaves the others as they are. */
  ghost predicate Elsewhere(s: State, s': State, id: nat) {
    forall j :: j != id ==> JobOf(s', j) == JobOf(s, j) && NextOf(s', j) == NextOf(s, j) && PendingOf(s', j) == PendingOf(s, j)
  }

  lemma StepElsewhere(s: State, op: Op)
    requires Possible(s, op) && OnOne(op)
    ensures Elsewhere(s, Step(s, op), op.id)
  {
    forall j | j != op.id
      ensures var s' := Step(s, op);
        JobOf(s', j) == JobOf(s, j) && NextOf(s', j) == NextOf(s, j) && PendingOf(s', j) == PendingOf(s, j)
    {
      StepElsewhereAt(s, op, j);
    }
  }

  lemma StepElsewhereAt(s: State, op: Op, j: nat)
    requires Possible(s, op) && OnOne(op) && j != op.id
    ensures var s' := Step(s, op);
      JobOf(s', j) == JobOf(s, j) && NextOf(s', j) == NextOf(s, j) && PendingOf(s', j) == PendingOf(s, j)
  {
    if !Continues(op) { BeginElsewhere(s, op, j); }
    else if op.DoWrite? || op.DoLook? || op.DoClaim? || op.DoHandOver? { GoOnElsewhere(s, op, j); }
    else { EndElsewhere(s, op.id, op.k, Leaves(s, op).value, j); }
  }

  lemma EndElsewhere(s: State, id: nat, k: nat, job: Option<nat>, j: nat)
    requires k < |PendingOf(s, id)| && j != id
    ensures var s' := End(s, id, k, job);
      JobOf(s', j) == JobOf(s, j) && NextOf(s', j) == NextOf(s, j) && PendingOf(s', j) == PendingOf(s, j)
  {
  }

  lemma BeginElsewhere(s: State, op: Op, j: nat)
    requires Possible(s, op) && OnOne(op) && !Continues(op) && j != op.id
    ensures var s' := Step(s, op);
      JobOf(s', j) == JobOf(s, j) && NextOf(s', j) == NextOf(s, j) && PendingOf(s', j) == PendingOf(s, j)
  {
  }

  lemma GoOnElsewhere(s: State, op: Op, j: nat)
    requires Possible(s, op) && (op.DoWrite? || op.DoLook? || op.DoClaim? || op.DoHandOver?) && j != op.id
    ensures var s' := Step(s, op);
      JobOf(s', j) == JobOf(s, j) && NextOf(s', j) == NextOf(s, j) && PendingOf(s', j) == PendingOf(s, j)
  {
  }

  lemma RowElsewhere(s: State, op: Op, id: nat)
    requires Possible(s, op) && OnOne(op) && id != op.id
    ensures var s' := Step(s, op); (id in s'.rows <==> id in s.rows) && (id in s.rows ==> s'.rows[id] == s.rows[id])
  {
  }


  lemma EndGood(s: State, op: Op)
    requires Possible(s, op) && Continues(op) && Leaves(s, op).Some? && GoodHere(s, op.id)
    ensures GoodHere(Step(s, op), op.id) <==> Safe(s, op)
  {
    var ps := PendingOf(s, op.id);
    StepEnds(s, op);
    StepScheduled(s, op);
    CarriedWithout(ps, op.k, NextThen(s, op));
    CarriedSplit(ps, op.k, NextOf(s, op.id));
    assert Formed(ps[op.k]);
    if !Relieved(s, op) { EndLands(s, op); }
  }

  lemma GoOnGood(s: State, op: Op)
    requires Possible(s, op) && Continues(op) && Leaves(s, op).None? && GoodHere(s, op.id)
    ensures GoodHere(Step(s, op), op.id) <==> Safe(s, op)
  {
    var ps := PendingOf(s, op.id);
    StepGoesOn(s, op);
    StepScheduled(s, op);
    CarriedReplaced(ps, op.k, Further(s, op), NextThen(s, op));
    CarriedSplit(ps, op.k, NextOf(s, op.id));
    assert Formed(ps[op.k]);
    FurtherFormed(s, op);
    if !Relieved(s, op) { GoesOnLands(s, op); }
  }

  /** A step that begins an operation, or refuses to. */
  lemma BeginGood(s: State, op: Op)
    requires Possible(s, op) && OnOne(op) && !Continues(op) && GoodHere(s, op.id)
    ensures GoodHere(Step(s, op), op.id) && Safe(s, op)
  {
    var ps := PendingOf(s, op.id);
    StepScheduled(s, op);
    match op
    case DoCreate(id, draft, next) => CreateGood(s, id, draft, next);
    case DoRead(id, edit, now, next) =>
      if id in s.rows { CarriedAppended(ps, Editing(s.rows[id], edit, now, next), NextOf(s, id)); }
    case DoDelete(id) => CarriedAppended(ps, Cancelling, None);
    case DoTake(id) => CarriedAppended(ps, Waking(s.jobs[id]), NextOf(s, id));
  }

  lemma CreateGood(s: State, id: nat, d: Routine, next: Option<nat>)
    requires GoodHere(s, id) && Possible(s, DoCreate(id, d, next))
    ensures GoodHere(CreateRow(s, id, d, next), id)
  {
    var row := d.(lastRunAt := None, nextRunAt := if d.active && Recurs(d.crons) then next else None);
    if row.nextRunAt.Some? { CarriedAppended([], Enqueueing(row.nextRunAt.value), row.nextRunAt); }
  }

  lemma ArchiveGood(s: State, bot: nat, id: nat)
    requires GoodHere(s, id)
    ensures GoodHere(Archive(s, bot), id)
  {
    var ps := PendingOf(s, id);
    CarriedAppended(ps, Cancelling, None);
    assert ps + [] == ps;
  }

  lemma GoodElsewhere(s: State, op: Op, id: nat)
    requires GoodHere(s, id) && Possible(s, op) && OnOne(op) && id != op.id
    ensures GoodHere(Step(s, op), id)
  {
    StepElsewhereAt(s, op, id);
    RowElsewhere(s, op, id);
  }

  /** Exactly which steps keep every row sound and every routine's next run either queued or in the hands
      of an operation under way, whatever interleaves: those that find the next run they carry still in
      the row (or nothing left to do), or whose row another operation is seeing to, and that do not mix
      two rows. */
  lemma StepGood(s: State, op: Op)
    requires Good(s) && Possible(s, op)
    ensures Good(Step(s, op)) <==> Safe(s, op)
  {
    if op.DoArchive? {
      forall id ensures GoodHere(Step(s, op), id) { ArchiveGood(s, op.bot, id); }
    } else if op.DoRestore? {
      forall id ensures GoodHere(Step(s, op), id) { assert GoodHere(s, id); }
    } else {
      assert GoodHere(s, op.id);
      StepGoodHere(s, op);
      if Safe(s, op) {
        forall id ensures GoodHere(Step(s, op), id) {
          if id != op.id { GoodElsewhere(s, op, id); }
        }
      } else {
        assert !GoodHere(Step(s, op), op.id);
      }
    }
  }

  lemma StepGoodHere(s: State, op: Op)
    requires Possible(s, op) && OnOne(op) && GoodHere(s, op.id)
    ensures GoodHere(Step(s, op), op.id) <==> Safe(s, op)
  {
    if !Continues(op) { BeginGood(s, op); }
    else if Leaves(s, op).Some? { EndGood(s, op); }
    else { GoOnGood(s, op); }
  }

  /** The last operation under way on a routine loses the queue if it ends unsafely: nobody is left to
      bring it where the row stands. */
  lemma LastStepLoses(s: State, op: Op)
    requires Good(s) && Possible(s, op) && Continues(op) && Leaves(s, op).Some? && |PendingOf(s, op.id)| == 1
    ensures var s' := Step(s, op);
      PendingOf(s', op.id) == [] && (Matched(s', op.id) <==> Lands(s, op))
  {
    assert GoodHere(s, op.id);
    var ps := PendingOf(s, op.id);
    StepEnds(s, op);
    CarriedSplit(ps, op.k, NextOf(s, op.id));
    assert Formed(ps[op.k]);
    EndLands(s, op);
  }

  predicate IsRun(s: State, ops: seq<Op>)
    decreases |ops|
  {
    ops == [] || (Possible(s, ops[0]) && IsRun(Step(s, ops[0]), ops[1..]))
  }

  function After(s: State, ops: seq<Op>): State
    requires IsRun(s, ops)
    decreases |ops|
  {
    if ops == [] then s else After(Step(s, ops[0]), ops[1..])
  }

  /** What an operation finds at its await is what it left there: nobody has moved the next run it
      carries, nobody has touched the schedule it read, and the bot and its thread are still there. */
  predicate Undisturbed(s: State, op: Op)
    requires Possible(s, op)
  {
    match op
    case DoEnqueue(id, k) => NextOf(s, id) == Some(PendingOf(s, id)[k].at)
    case DoWrite(id, k) => id in s.rows ==> SameSchedule(s.rows[id], PendingOf(s, id)[k].existing)
    case DoSync(id, k) =>
      var p := PendingOf(s, id)[k];
      NextOf(s, id) == p.row.nextRunAt && (NeedsSync(p.existing, p.edit, p.row) ==> p.row.bot in s.live)
    case DoCancel(id, _) => NextOf(s, id) == None
    case DoLook(id, k, now, _, threaded) =>
      Due(s, id, PendingOf(s, id)[k].at) && PendingOf(s, id)[k].at <= now + EARLY_MS ==> threaded
    case DoClaim(id, k, _) =>
      var p := PendingOf(s, id)[k];
      Due(s, id, p.at) && p.again.None? && !IsOneShot(p.seen.crons) ==> JobOf(s, id) == None
    case DoHandOver(id, k, ok) =>
      ok || (Restorable(s, id, PendingOf(s, id)[k]) && s.rows[id].crons != [] && JobOf(s, id) == None)
    case DoRearm(id, k) => NextOf(s, id) == PendingOf(s, id)[k].again
    case _ => true
  }

  predicate SameSchedule(r: Routine, existing: Routine) {
    r.crons == existing.crons && r.active == existing.active && r.nextRunAt == existing.nextRunAt
  }

  lemma UndisturbedIsSafe(s: State, op: Op)
    requires Good(s) && Possible(s, op) && Undisturbed(s, op)
    ensures Safe(s, op)
  {
    if op.DoWrite? {
      var p := PendingOf(s, op.id)[op.k];
      assert GoodHere(s, op.id) && Formed(p);
      if op.id in s.rows { EditedScheduled(s.rows[op.id], p.existing, p.edit, p.now, p.next); }
      CarriedSplit(PendingOf(s, op.id), op.k, NextOf(s, op.id));
    }
  }

  ghost predicate UndisturbedRun(s: State, ops: seq<Op>)
    requires IsRun(s, ops)
    decreases |ops|
  {
    ops == [] || (Undisturbed(s, ops[0]) && UndisturbedRun(Step(s, ops[0]), ops[1..]))
  }

  lemma {:induction false} UndisturbedKeeps(s: State, ops: seq<Op>)
    requires Good(s) && IsRun(s, ops) && UndisturbedRun(s, ops)
    ensures Good(After(s, ops))
    decreases |ops|
  {
    if ops != [] {
      UndisturbedIsSafe(s, ops[0]);
      StepGood(s, ops[0]);
      UndisturbedKeeps(Step(s, ops[0]), ops[1..]);
    }
  }

  /** Operations on one routine may overlap at will: as long as each finds at its awaits what it left
      there, a routine with nothing under way has a wakeup queued exactly when it is active on a
      schedule, and for exactly its next run. */
  lemma RunAgrees(s: State, ops: seq<Op>, id: nat)
    requires Good(s) && IsRun(s, ops) && UndisturbedRun(s, ops) && PendingOf(After(s, ops), id) == []
    ensures var e := After(s, ops);
      && (id in e.jobs <==> id in e.rows && e.rows[id].active && e.rows[id].crons != [])
      && (id in e.jobs ==> e.rows[id].nextRunAt == Some(e.jobs[id]))
  {
    UndisturbedKeeps(s, ops);
    assert GoodHere(After(s, ops), id);
  }

  // ---- one operation at a time on each routine ----

  /** A stored routine has a next run exactly when it is active on a schedule, and an active
      one-shot has not run. */
  predicate RowOk(r: Routine) {
    && !HasMixedOneShot(r.crons)
    && (r.nextRunAt.Some? <==> r.active && r.crons != [])
    && (r.active && IsOneShot(r.crons) ==> r.lastRunAt.None?)
  }

  predicate HereOk(s: State, id: nat) {
    id in s.rows ==> RowOk(s.rows[id])
  }

  /** What an operation that nothing else disturbs finds at each of its awaits. */
  predicate OnTheWay(s: State, id: nat, p: Pending) {
    HereOk(s, id) &&
    match p
    case Enqueueing(at) => NextOf(s, id) == Some(at) && JobOf(s, id) == None
    case Editing(existing, _, _, _) => id in s.rows && s.rows[id] == existing && Matched(s, id) && Checked(p)
    case Syncing(existing, edit, row) =>
      && id in s.rows && s.rows[id] == row && JobOf(s, id) == existing.nextRunAt && row.bot == existing.bot
      && (!NeedsSync(existing, edit, row) ==> row.nextRunAt == existing.nextRunAt)
    case Cancelling => NextOf(s, id) == None
    case Waking(at) => NextOf(s, id) == Some(at) && JobOf(s, id) == None
    case Claiming(at, seen, again) =>
      && NextOf(s, id) == Some(at) && JobOf(s, id) == None && s.rows[id] == seen && (IsOneShot(seen.crons) ==> again.None?)
    case Starting(at, previous, again, oneShot) =>
      && id in s.rows && NextOf(s, id) == again && JobOf(s, id) == None && (oneShot ==> again.None?)
      && s.rows[id].crons != [] && s.rows[id].active == again.Some? && s.rows[id].lastRunAt.Some? && (IsOneShot(s.rows[id].crons) ==> previous.None?)
    case Rearming(again, oneShot) => NextOf(s, id) == again && JobOf(s, id) == None && (oneShot ==> again.None?)
  }

  predicate SerialHere(s: State, id: nat) {
    var ps := PendingOf(s, id);
    if ps == [] then HereOk(s, id) && Matched(s, id) else |ps| == 1 && OnTheWay(s, id, ps[0])
  }

  ghost predicate Serial(s: State) {
    forall id :: SerialHere(s, id)
  }

  /** The hypothesis: an operation on a routine begins only when none is under way on it. Operations on
      different routines interleave freely. */
  ghost predicate Alone(s: State, op: Op) {
    match op
    case DoCreate(id, _, _) => PendingOf(s, id) == []
    case DoRead(id, _, _, _) => PendingOf(s, id) == []
    case DoDelete(id) => PendingOf(s, id) == []
    case DoTake(id) => PendingOf(s, id) == []
    case DoArchive(bot) => forall id :: id in s.rows && s.rows[id].bot == bot ==> PendingOf(s, id) == []
    case _ => true
  }

  /** The two branches that drop a wakeup: an update that has moved the next run and then finds its bot
      archived, and a due wakeup whose bot has no thread. */
  predicate Drops(s: State, op: Op)
    requires Possible(s, op)
  {
    match op
    case DoSync(id, k) =>
      var p := PendingOf(s, id)[k];
      p.row.bot !in s.live && p.row.nextRunAt != p.existing.nextRunAt
    case DoLook(id, k, now, _, threaded) => !threaded && PendingOf(s, id)[k].at <= now + EARLY_MS
    case _ => false
  }

  lemma EditedOk(r: Routine, e: Edit, now: nat, next: Option<nat>)
    requires RowOk(r) && EditRefusal(r, e, now, next).None?
    ensures var row := EditedRow(r, r, e, next);
      RowOk(row) && row.bot == r.bot && (!NeedsSync(r, e, row) ==> row.nextRunAt == r.nextRunAt)
  {
  }

  lemma SerialSync(s: State, id: nat, k: nat)
    requires SerialHere(s, id) && Possible(s, DoSync(id, k))
    ensures SerialHere(Step(s, DoSync(id, k)), id) <==> !Drops(s, DoSync(id, k))
  {
    assert k == 0;
    StepEnds(s, DoSync(id, k));
  }

  lemma SerialWrite(s: State, id: nat, k: nat)
    requires SerialHere(s, id) && Possible(s, DoWrite(id, k))
    ensures SerialHere(Step(s, DoWrite(id, k)), id)
  {
    assert k == 0;
    var p := PendingOf(s, id)[0];
    EditedOk(p.existing, p.edit, p.now, p.next);
  }

  lemma SerialWake(s: State, op: Op)
    requires Possible(s, op) && Alone(s, op) && (op.DoTake? || op.DoLook? || op.DoClaim? || op.DoHandOver? || op.DoRearm?)
    requires SerialHere(s, op.id)
    ensures SerialHere(Step(s, op), op.id) <==> !Drops(s, op)
  {
    if Leaves(s, op).Some? { StepEnds(s, op); }
  }

  lemma SerialRest(s: State, op: Op)
    requires Possible(s, op) && Alone(s, op)
    requires op.DoCreate? || op.DoEnqueue? || op.DoRead? || op.DoDelete? || op.DoCancel?
    requires SerialHere(s, op.id)
    ensures SerialHere(Step(s, op), op.id)
  {
    if Leaves(s, op).Some? { StepEnds(s, op); }
  }

  lemma SerialArchive(s: State, bot: nat)
    requires Serial(s) && Alone(s, DoArchive(bot))
    ensures Serial(Archive(s, bot))
  {
    var s' := Archive(s, bot);
    forall id ensures SerialHere(s', id) {
      assert SerialHere(s, id);
    }
  }

  lemma SerialElsewhere(s: State, op: Op)
    requires Serial(s) && Possible(s, op) && OnOne(op) && SerialHere(Step(s, op), op.id)
    ensures Serial(Step(s, op))
  {
    StepElsewhere(s, op);
    forall id ensures SerialHere(Step(s, op), id) {
      if id != op.id {
        assert SerialHere(s, id);
        RowElsewhere(s, op, id);
      }
    }
  }

  /** With one operation at a time on each routine, one step keeps every routine sound, and every idle
      one in agreement with the queue, exactly when it is not one of the two dropping branches. */
  lemma SerialStep(s: State, op: Op)
    requires Serial(s) && Possible(s, op) && Alone(s, op)
    ensures Serial(Step(s, op)) <==> !Drops(s, op)
  {
    if op.DoArchive? { SerialArchive(s, op.bot); }
    else if op.DoRestore? { SerialRestore(s, op.bot); }
    else {
      assert SerialHere(s, op.id);
      if op.DoSync? { SerialSync(s, op.id, op.k); }
      else if op.DoWrite? { SerialWrite(s, op.id, op.k); }
      else if op.DoTake? || op.DoLook? || op.DoClaim? || op.DoHandOver? || op.DoRearm? { SerialWake(s, op); }
      else { SerialRest(s, op); }
      if SerialHere(Step(s, op), op.id) { SerialElsewhere(s, op); }
    }
  }

  lemma SerialRestore(s: State, bot: nat)
    requires Serial(s)
    ensures Serial(s.(live := s.live + {bot}))
  {
    forall id ensures SerialHere(s.(live := s.live + {bot}), id) {
      assert SerialHere(s, id);
    }
  }

  ghost predicate SerialRun(s: State, ops: seq<Op>)
    requires IsRun(s, ops)
    decreases |ops|
  {
    ops == [] || (Alone(s, ops[0]) && !Drops(s, ops[0]) && SerialRun(Step(s, ops[0]), ops[1..]))
  }

  lemma {:induction false} SerialRunKeeps(s: State, ops: seq<Op>)
    requires Serial(s) && IsRun(s, ops) && SerialRun(s, ops)
    ensures Serial(After(s, ops))
    decreases |ops|
  {
    if ops != [] {
      SerialStep(s, ops[0]);
      SerialRunKeeps(Step(s, ops[0]), ops[1..]);
    }
  }

  /** Over every such run an idle routine has a next run exactly when it is active on a schedule, and a
      wakeup is queued for exactly that time and for nothing else. */
  lemma IdleRoutineAgrees(s: State, ops: seq<Op>, id: nat)
    requires Serial(s) && IsRun(s, ops) && SerialRun(s, ops) && PendingOf(After(s, ops), id) == []
    ensures var e := After(s, ops);
      && (id in e.jobs <==> id in e.rows && e.rows[id].active && e.rows[id].crons != [])
      && (id in e.jobs ==> e.rows[id].nextRunAt == Some(e.jobs[id]))
  {
    SerialRunKeeps(s, ops);
    assert SerialHere(After(s, ops), id);
  }

  /** One operation at a time is a special case: such steps find what they left. */
  lemma SerialIsSafe(s: State, op: Op)
    requires Serial(s) && Possible(s, op) && Alone(s, op) && !Drops(s, op)
    ensures Good(s) && Safe(s, op)
  {
    SerialIsGood(s);
    SerialStep(s, op);
    SerialIsGood(Step(s, op));
    StepGood(s, op);
  }

  lemma SerialIsGood(s: State)
    requires Serial(s)
    ensures Good(s)
  {
    forall id ensures GoodHere(s, id) {
      assert SerialHere(s, id);
      SerialGoodHere(s, id);
    }
  }

  lemma SerialGoodHere(s: State, id: nat)
    requires SerialHere(s, id)
    ensures GoodHere(s, id)
  {
    var ps := PendingOf(s, id);
    if ps != [] { CarriedSplit(ps, 0, NextOf(s, id)); }
  }

  // ---- a one-shot runs once ----

  /** Does the step start a run of routine `id` for good? */
  predicate Fires(s: State, op: Op, id: nat) {
    op.DoHandOver? && op.id == id && op.ok
  }

  function Firings(s: State, ops: seq<Op>, id: nat): nat
    requires IsRun(s, ops)
    decreases |ops|
  {
    if ops == [] then 0
    else (if Fires(s, ops[0], id) then 1 else 0) + Firings(Step(s, ops[0]), ops[1..], id)
  }

  /** No update gives routine `id` a new schedule, its id is not used again, and no update that read the
      routine before it ran writes it back to active with a next run. */
  predicate LeavesOneShot(s: State, op: Op, id: nat)
    requires Possible(s, op)
  {
    match op
    case DoCreate(other, _, _) => other != id
    case DoRead(other, edit, _, _) => other == id ==> edit.crons.None?
    case DoWrite(other, k) => other == id ==> !Revives(s, id, k)
    case _ => true
  }

  /** The update read the routine before it ran, and what it writes makes it run again. */
  predicate Revives(s: State, id: nat, k: nat)
    requires Possible(s, DoWrite(id, k))
  {
    var p := PendingOf(s, id)[k];
    && id in s.rows && s.rows[id].lastRunAt.Some?
    && var row := EditedRow(s.rows[id], p.existing, p.edit, p.next); row.active && row.nextRunAt.Some?
  }

  predicate OneShotRun(s: State, ops: seq<Op>, id: nat)
    requires IsRun(s, ops)
    decreases |ops|
  {
    ops == [] || (LeavesOneShot(s, ops[0], id) && OneShotRun(Step(s, ops[0]), ops[1..], id))
  }

  predicate OneShotPending(p: Pending) {
    match p
    case Editing(_, edit, _, _) => edit.crons.None?
    case Claiming(_, seen, again) => again.None? && seen.lastRunAt.None?
    case Starting(_, previous, again, _) => again.None? && previous.None?
    case _ => true
  }

  predicate Starts(ps: seq<Pending>) {
    exists j :: 0 <= j < |ps| && ps[j].Starting?
  }

  /** At most one claim of it is being started. */
  predicate OneShotList(ps: seq<Pending>) {
    && (forall j :: 0 <= j < |ps| ==> OneShotPending(ps[j]))
    && (forall i, j :: 0 <= i < |ps| && 0 <= j < |ps| && ps[i].Starting? && ps[j].Starting? ==> i == j)
  }

  /** A one-shot that is set to run has not run, and while a claim of it is being started it has. */
  predicate OneShotHere(s: State, id: nat) {
    var ps := PendingOf(s, id);
    && (id in s.rows ==>
          && IsOneShot(s.rows[id].crons)
          && (s.rows[id].active && s.rows[id].nextRunAt.Some? ==> s.rows[id].lastRunAt.None?)
          && (Starts(ps) ==> s.rows[id].lastRunAt.Some?))
    && OneShotList(ps)
  }

  predicate Spent(s: State, id: nat) {
    OneShotHere(s, id) && !Starts(PendingOf(s, id)) && (id in s.rows ==> s.rows[id].lastRunAt.Some?)
  }

  lemma ListWithout(ps: seq<Pending>, k: nat)
    requires OneShotList(ps) && k < |ps|
    ensures OneShotList(Without(ps, k)) && (Starts(Without(ps, k)) <==> Starts(ps) && !ps[k].Starting?)
  {
    var rest := Without(ps, k);
    forall j | 0 <= j < |ps| && j != k ensures ps[j] == rest[if j < k then j else j - 1] {}
    forall j | 0 <= j < |rest| ensures rest[j] == ps[if j < k then j else j + 1] {}
  }

  lemma ListReplaced(ps: seq<Pending>, k: nat, p: Pending)
    requires OneShotList(ps) && k < |ps| && OneShotPending(p) && (p.Starting? ==> !Starts(ps))
    ensures OneShotList(ps[k := p]) && (Starts(ps[k := p]) <==> p.Starting? || (Starts(ps) && !ps[k].Starting?))
  {
    var more := ps[k := p];
    assert more[k] == p && forall j :: 0 <= j < |ps| && j != k ==> more[j] == ps[j];
  }

  lemma ListAppended(ps: seq<Pending>, p: Pending)
    requires OneShotList(ps) && OneShotPending(p) && !p.Starting?
    ensures OneShotList(ps + [p]) && (Starts(ps + [p]) <==> Starts(ps))
  {
    var more := ps + [p];
    assert forall j :: 0 <= j < |ps| ==> more[j] == ps[j];
  }

  lemma EndOneShot(s: State, op: Op)
    requires Possible(s, op) && Continues(op) && Leaves(s, op).Some? && OneShotHere(s, op.id)
    ensures OneShotHere(Step(s, op), op.id) && (Spent(s, op.id) ==> Spent(Step(s, op), op.id))
  {
    StepEnds(s, op);
    ListWithout(PendingOf(s, op.id), op.k);
  }

  lemma GoOnOneShot(s: State, op: Op)
    requires Possible(s, op) && Continues(op) && Leaves(s, op).None? && OneShotHere(s, op.id) && LeavesOneShot(s, op, op.id)
    ensures OneShotHere(Step(s, op), op.id) && (Spent(s, op.id) ==> Spent(Step(s, op), op.id))
    ensures Fires(s, op, op.id) ==> !Spent(s, op.id) && Spent(Step(s, op), op.id)
  {
    StepGoesOn(s, op);
    assert OneShotPending(PendingOf(s, op.id)[op.k]);
    ListReplaced(PendingOf(s, op.id), op.k, Further(s, op));
  }

  lemma BeginOneShot(s: State, op: Op, id: nat)
    requires Possible(s, op) && !Continues(op) && (OnOne(op) ==> op.id == id) && OneShotHere(s, id) && LeavesOneShot(s, op, id)
    ensures OneShotHere(Step(s, op), id) && (Spent(s, id) ==> Spent(Step(s, op), id))
  {
    var ps := PendingOf(s, id);
    match op
    case DoRead(_, edit, now, next) => if id in s.rows { ListAppended(ps, Editing(s.rows[id], edit, now, next)); }
    case DoDelete(_) => ListAppended(ps, Cancelling);
    case DoTake(_) => ListAppended(ps, Waking(s.jobs[id]));
    case DoArchive(_) =>
      ListAppended(ps, Cancelling);
      assert ps + [] == ps;
    case _ =>
  }

  lemma OneShotStep(s: State, op: Op, id: nat)
    requires Possible(s, op) && LeavesOneShot(s, op, id) && OneShotHere(s, id)
    ensures OneShotHere(Step(s, op), id) && (Spent(s, id) ==> Spent(Step(s, op), id))
    ensures Fires(s, op, id) ==> !Spent(s, id) && Spent(Step(s, op), id)
  {
    if OnOne(op) && op.id != id {
      StepElsewhereAt(s, op, id);
      RowElsewhere(s, op, id);
    } else if !Continues(op) { BeginOneShot(s, op, id); }
    else if Leaves(s, op).Some? { EndOneShot(s, op); }
    else { GoOnOneShot(s, op); }
  }

  /** A one-shot that has run is never started again while it stays one. */
  lemma {:induction false} SpentNeverFires(s: State, ops: seq<Op>, id: nat)
    requires IsRun(s, ops) && OneShotRun(s, ops, id) && Spent(s, id)
    ensures Firings(s, ops, id) == 0
    decreases |ops|
  {
    if ops != [] {
      OneShotStep(s, ops[0], id);
      SpentNeverFires(Step(s, ops[0]), ops[1..], id);
    }
  }

  /** Whatever interleaves, a one-shot starts at most one run for good: edited, archived, restored, woken
      twice or undone by a failed start, as long as no update gives it a new schedule or revives it. */
  lemma {:induction false} OneShotFiresOnce(s: State, ops: seq<Op>, id: nat)
    requires IsRun(s, ops) && OneShotRun(s, ops, id) && OneShotHere(s, id)
    ensures Firings(s, ops, id) <= 1
    decreases |ops|
  {
    if ops != [] {
      OneShotStep(s, ops[0], id);
      if Fires(s, ops[0], id) { SpentNeverFires(Step(s, ops[0]), ops[1..], id); }
      else { OneShotFiresOnce(Step(s, ops[0]), ops[1..], id); }
    }
  }

  /** Editing anything but the schedule, its zone or activity leaves the next run alone and asks for no
      change of the queue. */
  lemma OtherEditsLeaveSchedule(r: Routine, e: Edit, now: nat, next: Option<nat>)
    requires RowOk(r) && EditRefusal(r, e, now, next).None?
    requires e.crons.None? && e.timezone.None? && e.active.None?
    ensures var row := EditedRow(r, r, e, next);
      e.runAt.None? && row.nextRunAt == r.nextRunAt && row.active == r.active && !NeedsSync(r, e, row)
  {
  }

  // ---- one operation from end to end ----

  lemma Unroll(s: State, op: Op, ops: seq<Op>)
    requires Possible(s, op) && IsRun(Step(s, op), ops)
    ensures IsRun(s, [op] + ops) && After(s, [op] + ops) == After(Step(s, op), ops)
    ensures Firings(s, [op] + ops, 1) == (if Fires(s, op, 1) then 1 else 0) + Firings(Step(s, op), ops, 1)
  {
    assert ([op] + ops)[1..] == ops;
  }

  /** The next run an accepted update stores: none unless the routine is active on a schedule, the armed or
      stored time of a one-shot, the date of the new schedule if the schedule, its zone or activity
      changed, and otherwise what it was. */
  predicate NextAfter(r: Routine, e: Edit, now: nat, date: Option<nat>, stored: Option<nat>) {
    var crons, active, zone := Or(e.crons, r.crons), Or(e.active, r.active), Or(e.timezone, r.timezone);
    if !active || crons == [] then stored == None
    else if |crons| == 1 && crons[0].Once? then
      if r.nextRunAt.Some? then stored == r.nextRunAt
      else e.runAt.Some? && e.runAt.value.At? && e.runAt.value.time > now && stored == Some(e.runAt.value.time)
    else if crons != r.crons || zone != r.timezone || !r.active then date.Some? && stored == date
    else stored == r.nextRunAt
  }

  lemma UpdateStores(r: Routine, e: Edit, now: nat, next: Option<nat>)
    requires Scheduled(r) && EditRefusal(r, e, now, next).None?
    ensures NextAfter(r, e, now, next, EditedNextRun(r, e, next))
  {
  }

  /** Which updates are accepted, in no particular order: something must trigger the routine, a one-shot
      stands alone, was one before and has not run, a moved schedule has a next date, and a time to run at
      is given, and lies ahead, exactly when a one-shot is armed with it. */
  lemma AcceptedExactly(r: Routine, e: Edit, now: nat, next: Option<nat>)
    ensures EditRefusal(r, e, now, next).None? <==>
      var crons, active := Or(e.crons, r.crons), Or(e.active, r.active);
      var once := |crons| == 1 && crons[0].Once?;
      var moved := crons != r.crons || Or(e.timezone, r.timezone) != r.timezone || (active && !r.active);
      && (crons != [] || Or(e.webhook, r.webhook) || Or(e.github, r.github) || Truthy(Or(e.provider, r.provider)))
      && (|crons| > 1 ==> forall c :: c in crons ==> !c.Once?)
      && (active && once ==> IsOneShot(r.crons) && (r.nextRunAt.Some? || r.lastRunAt.None?))
      && (crons != [] && !once && (moved || (active && r.nextRunAt.None?)) ==> next.Some?)
      && (if active && once && r.nextRunAt.None? && r.lastRunAt.None?
          then e.runAt.Some? && e.runAt.value.At? && e.runAt.value.time > now else e.runAt.None?)
  {
  }

  /** The stored row has the edited fields and nothing else changed but the next run. */
  predicate Edited(r: Routine, e: Edit, r': Routine) {
    && r'.name == Or(e.name, r.name) && r'.crons == Or(e.crons, r.crons) && r'.timezone == Or(e.timezone, r.timezone)
    && r'.active == Or(e.active, r.active) && r'.webhook == Or(e.webhook, r.webhook) && r'.github == Or(e.github, r.github)
    && r'.provider == Or(e.provider, r.provider)
    && r'.bot == r.bot && r'.lastRunAt == r.lastRunAt
  }

  function Update(id: nat, e: Edit, now: nat, next: Option<nat>): seq<Op> {
    [DoRead(id, e, now, next), DoWrite(id, 0), DoSync(id, 0)]
  }

  /** An accepted update of a live bot's routine: the row is edited, its next run is the one due after the
      edit, and the wakeup is queued for exactly that time. */
  lemma UpdateEndToEnd(s: State, id: nat, e: Edit, now: nat, next: Option<nat>)
    requires id in s.rows && PendingOf(s, id) == [] && Scheduled(s.rows[id]) && Matched(s, id) && s.rows[id].bot in s.live
    requires EditRefusal(s.rows[id], e, now, next).None?
    ensures IsRun(s, Update(id, e, now, next))
    ensures var s' := After(s, Update(id, e, now, next));
      && id in s'.rows && Edited(s.rows[id], e, s'.rows[id]) && PendingOf(s', id) == []
      && NextAfter(s.rows[id], e, now, next, s'.rows[id].nextRunAt) && JobOf(s', id) == s'.rows[id].nextRunAt
  {
    var r := s.rows[id];
    UpdateStores(r, e, now, next);
    var s1 := Step(s, DoRead(id, e, now, next));
    assert PendingOf(s1, id) == [Editing(r, e, now, next)];
    WriteEnds(s1, id, r, e, now, next);
    Unroll(s, DoRead(id, e, now, next), [DoWrite(id, 0), DoSync(id, 0)]);
  }

  lemma WriteEnds(s: State, id: nat, r: Routine, e: Edit, now: nat, next: Option<nat>)
    requires PendingOf(s, id) == [Editing(r, e, now, next)] && id in s.rows && s.rows[id] == r && r.bot in s.live
    requires Scheduled(r) && Matched(s, id) && EditRefusal(r, e, now, next).None?
    ensures IsRun(s, [DoWrite(id, 0), DoSync(id, 0)])
    ensures var s', row := After(s, [DoWrite(id, 0), DoSync(id, 0)]), EditedRow(r, r, e, next);
      id in s'.rows && s'.rows[id] == row && PendingOf(s', id) == [] && JobOf(s', id) == row.nextRunAt
  {
    var row := EditedRow(r, r, e, next);
    var s2 := Step(s, DoWrite(id, 0));
    assert PendingOf(s2, id) == [Syncing(r, e, row)] && s2.rows[id] == row && JobOf(s2, id) == r.nextRunAt;
    EditedScheduled(r, r, e, now, next);
    SyncEnds(s2, id, r, e, row);
    Unroll(s, DoWrite(id, 0), [DoSync(id, 0)]);
  }

  lemma SyncEnds(s: State, id: nat, r: Routine, e: Edit, row: Routine)
    requires PendingOf(s, id) == [Syncing(r, e, row)] && id in s.rows && s.rows[id] == row && row.bot in s.live
    requires Scheduled(row) && JobOf(s, id) == r.nextRunAt && (!NeedsSync(r, e, row) ==> row.nextRunAt == r.nextRunAt)
    ensures IsRun(s, [DoSync(id, 0)])
    ensures var s' := After(s, [DoSync(id, 0)]);
      s'.rows == s.rows && PendingOf(s', id) == [] && JobOf(s', id) == row.nextRunAt
  {
    Unroll(s, DoSync(id, 0), []);
  }

  /** Which drafts are accepted: for a live bot, a one-shot stands alone and is not active, and a recurring
      schedule has a next date. */
  lemma DraftAcceptedExactly(s: State, d: Routine, next: Option<nat>)
    ensures CreateRefusal(s, d, next).None? <==>
      var once := |d.crons| == 1 && d.crons[0].Once?;
      && d.bot in s.live
      && (|d.crons| > 1 ==> forall c :: c in d.crons ==> !c.Once?)
      && (d.active ==> !once)
      && (d.crons != [] && !once ==> next.Some?)
  {
  }

  /** An accepted draft becomes a row whose wakeup is queued if it is active on a recurring schedule. */
  lemma CreateEndToEnd(s: State, id: nat, d: Routine, next: Option<nat>)
    requires Possible(s, DoCreate(id, d, next)) && CreateRefusal(s, d, next).None?
    ensures var due := d.active && d.crons != []; var s1 := Step(s, DoCreate(id, d, next));
      && id in s1.rows && s1.rows[id] == d.(lastRunAt := None, nextRunAt := if due then next else None)
      && d.bot in s.live && (due ==> next.Some?)
      && if due then
           && Possible(s1, DoEnqueue(id, 0))
           && var s' := Step(s1, DoEnqueue(id, 0)); s'.rows == s1.rows && PendingOf(s', id) == [] && JobOf(s', id) == next
         else PendingOf(s1, id) == [] && JobOf(s1, id) == None
  {
  }

  function Wakes(id: nat, now: nat, next: Option<nat>): seq<Op> {
    [DoTake(id), DoLook(id, 0, now, next, true), DoClaim(id, 0, now)]
  }

  /** A due wakeup starts a run: the row says when, moves to its next run, or is switched off if there is
      none, and the next wakeup is queued.  If the start fails everything is as before. */
  lemma WakeEndToEnd(s: State, id: nat, at: nat, now: nat, next: Option<nat>)
    requires id in s.rows && PendingOf(s, id) == [] && JobOf(s, id) == Some(at) && at <= now + 1_000
    requires s.rows[id].active && s.rows[id].nextRunAt == Some(at)
    ensures IsRun(s, Wakes(id, now, next)) && IsRun(After(s, Wakes(id, now, next)), [DoHandOver(id, 0, true), DoRearm(id, 0)])
    ensures var r, again := s.rows[id], if IsOneShot(s.rows[id].crons) then None else next;
      var s' := After(After(s, Wakes(id, now, next)), [DoHandOver(id, 0, true), DoRearm(id, 0)]);
      && id in s'.rows && s'.rows[id] == r.(lastRunAt := Some(now), nextRunAt := again, active := again.Some?)
      && PendingOf(s', id) == [] && JobOf(s', id) == again
    ensures IsRun(After(s, Wakes(id, now, next)), [DoHandOver(id, 0, false)])
    ensures var s' := After(After(s, Wakes(id, now, next)), [DoHandOver(id, 0, false)]);
      id in s'.rows && s'.rows[id] == s.rows[id] && PendingOf(s', id) == [] && JobOf(s', id) == Some(at)
  {
    var r, again := s.rows[id], if IsOneShot(s.rows[id].crons) then None else next;
    ClaimsDue(s, id, at, now, next);
    var s3 := After(s, Wakes(id, now, next));
    HandsOver(s3, id, at, r, again);
    HandOverFails(s3, id, at, r, again);
  }

  lemma ClaimsDue(s: State, id: nat, at: nat, now: nat, next: Option<nat>)
    requires id in s.rows && PendingOf(s, id) == [] && JobOf(s, id) == Some(at) && at <= now + EARLY_MS
    requires s.rows[id].active && s.rows[id].nextRunAt == Some(at)
    ensures IsRun(s, Wakes(id, now, next))
    ensures var r, again := s.rows[id], if IsOneShot(s.rows[id].crons) then None else next;
      var s' := After(s, Wakes(id, now, next));
      && id in s'.rows && s'.rows[id] == r.(lastRunAt := Some(now), nextRunAt := again, active := again.Some?)
      && JobOf(s', id) == None && PendingOf(s', id) == [Starting(at, r.lastRunAt, again, IsOneShot(r.crons))]
  {
    var s1 := Step(s, DoTake(id));
    assert PendingOf(s1, id) == [Waking(at)];
    var s2 := Step(s1, DoLook(id, 0, now, next, true));
    assert PendingOf(s2, id) == [Claiming(at, s.rows[id], if IsOneShot(s.rows[id].crons) then None else next)];
    Unroll(s2, DoClaim(id, 0, now), []);
    Unroll(s1, DoLook(id, 0, now, next, true), [DoClaim(id, 0, now)]);
    Unroll(s, DoTake(id), [DoLook(id, 0, now, next, true), DoClaim(id, 0, now)]);
  }

  lemma HandsOver(s: State, id: nat, at: nat, r: Routine, again: Option<nat>)
    requires PendingOf(s, id) == [Starting(at, r.lastRunAt, again, IsOneShot(r.crons))] && JobOf(s, id) == None
    requires IsOneShot(r.crons) ==> again.None?
    ensures IsRun(s, [DoHandOver(id, 0, true), DoRearm(id, 0)])
    ensures var s' := After(s, [DoHandOver(id, 0, true), DoRearm(id, 0)]);
      s'.rows == s.rows && PendingOf(s', id) == [] && JobOf(s', id) == again
  {
    var s1 := Step(s, DoHandOver(id, 0, true));
    assert PendingOf(s1, id) == [Rearming(again, IsOneShot(r.crons))];
    Unroll(s1, DoRearm(id, 0), []);
    Unroll(s, DoHandOver(id, 0, true), [DoRearm(id, 0)]);
  }

  lemma HandOverFails(s: State, id: nat, at: nat, r: Routine, again: Option<nat>)
    requires PendingOf(s, id) == [Starting(at, r.lastRunAt, again, IsOneShot(r.crons))] && JobOf(s, id) == None
    requires id in s.rows && r.active && r.nextRunAt == Some(at)
    requires exists now: nat :: s.rows[id] == r.(lastRunAt := Some(now), nextRunAt := again, active := again.Some?)
    ensures IsRun(s, [DoHandOver(id, 0, false)])
    ensures var s' := After(s, [DoHandOver(id, 0, false)]);
      id in s'.rows && s'.rows[id] == r && PendingOf(s', id) == [] && JobOf(s', id) == Some(at)
  {
    Unroll(s, DoHandOver(id, 0, false), []);
  }

  /** A wakeup more than a second early goes back untouched; one that is not the row's is dropped. */
  lemma WakeupsNotDue(s: State, id: nat, at: nat, now: nat, next: Option<nat>, threaded: bool)
    requires PendingOf(s, id) == [] && JobOf(s, id) == Some(at)
    requires !Due(s, id, at) || at > now + 1_000
    ensures var ops := [DoTake(id), DoLook(id, 0, now, next, threaded)];
      && IsRun(s, ops)
      && var s' := After(s, ops);
      s'.rows == s.rows && PendingOf(s', id) == [] && JobOf(s', id) == if Due(s, id, at) then Some(at) else None
  {
    var s1 := Step(s, DoTake(id));
    assert PendingOf(s1, id) == [Waking(at)];
    Unroll(s1, DoLook(id, 0, now, next, threaded), []);
    Unroll(s, DoTake(id), [DoLook(id, 0, now, next, threaded)]);
  }

  /** A restored bot is live again, its routines stay as they were paused. */
  lemma RestoreOnlyRevives(s: State, bot: nat)
    ensures var s' := Step(s, DoRestore(bot));
      bot in s'.live && s.live <= s'.live && s' == s.(live := s'.live)
  {
  }

  /** Removing a routine, or archiving its bot, ends with no wakeup. */
  lemma EndsWithoutWakeup(s: State, id: nat)
    requires id in s.rows && PendingOf(s, id) == [] && Scheduled(s.rows[id]) && Matched(s, id)
    ensures var s1 := DeleteRow(s, id);
      && id !in s1.rows && Possible(s1, DoCancel(id, 0))
      && var s' := Step(s1, DoCancel(id, 0)); id !in s'.rows && JobOf(s', id) == None && PendingOf(s', id) == []
    ensures var r, s1 := s.rows[id], Archive(s, s.rows[id].bot);
      && r.bot !in s1.live && id in s1.rows && s1.rows[id] == r.(active := false, nextRunAt := None)
      && if r.active then
           Possible(s1, DoCancel(id, 0))
           && var s' := Step(s1, DoCancel(id, 0)); JobOf(s', id) == None && PendingOf(s', id) == [] && s'.rows == s1.rows
         else JobOf(s1, id) == None && PendingOf(s1, id) == []
  {
    var s1 := Archive(s, s.rows[id].bot);
    assert PendingOf(s1, id) == if s.rows[id].active then [Cancelling] else [];
  }

  // ---- overlapping operations, concretely ----

  const DAILY := Routine(7, "daily", [Recurring("0 9 * * *")], "UTC", true, false, false, None, None, Some(100))

  function Idle(r: Routine, job: Option<nat>, live: set<nat>): State {
    State(map[1 := r], if job.Some? then map[1 := job.value] else map[], live, map[])
  }

  function RetimeTo(zone: string): Edit {
    Edit(None, None, Some(zone), None, None, None, None, None)
  }

  /** A worker that has claimed the 100 o'clock run re-arms for 200 after the user has moved the routine
      to 150: the row says 150, the queue 200, and nothing is under way. */
  lemma RearmOvertakesEdit()
    ensures var s := Idle(DAILY, Some(100), {7});
      var ops := STARTED + [DoRead(1, RetimeTo("CET"), 101, Some(150)), DoWrite(1, 1), DoSync(1, 1), DoRearm(1, 0)];
      && Serial(s) && IsRun(s, ops)
      && var e := After(s, ops);
      PendingOf(e, 1) == [] && NextOf(e, 1) == Some(150) && JobOf(e, 1) == Some(200)
  {
    var s := Idle(DAILY, Some(100), {7});
    assert PendingOf(s, 1) == [];
    var edit := [DoRead(1, RetimeTo("CET"), 101, Some(150)), DoWrite(1, 1), DoSync(1, 1), DoRearm(1, 0)];
    var s4 := ClaimedAndStarted(s);
    EditUnderRearm(s4, DAILY.(lastRunAt := Some(100), nextRunAt := Some(200)));
    RunsConcat(s, STARTED, edit);
  }

  lemma ClaimedAndStarted(s: State) returns (s4: State)
    requires s == Idle(DAILY, Some(100), {7})
    ensures IsRun(s, STARTED) && s4 == After(s, STARTED)
    ensures s4.rows == map[1 := DAILY.(lastRunAt := Some(100), nextRunAt := Some(200))] && s4.live == {7}
    ensures PendingOf(s4, 1) == [Rearming(Some(200), false)]
  {
    assert PendingOf(s, 1) == [];
    var s1 := Step(s, DoTake(1));
    assert PendingOf(s1, 1) == [Waking(100)] && s1.rows == s.rows;
    var s2 := Step(s1, DoLook(1, 0, 100, Some(200), true));
    assert PendingOf(s2, 1) == [Claiming(100, DAILY, Some(200))];
    var s3 := Step(s2, DoClaim(1, 0, 100));
    assert PendingOf(s3, 1) == [Starting(100, None, Some(200), false)];
    s4 := Step(s3, DoHandOver(1, 0, true));
    Unroll(s3, DoHandOver(1, 0, true), []);
    Unroll(s2, DoClaim(1, 0, 100), [DoHandOver(1, 0, true)]);
    Unroll(s1, DoLook(1, 0, 100, Some(200), true), [DoClaim(1, 0, 100), DoHandOver(1, 0, true)]);
    Unroll(s, DoTake(1), [DoLook(1, 0, 100, Some(200), true), DoClaim(1, 0, 100), DoHandOver(1, 0, true)]);
  }

  const STARTED := [DoTake(1), DoLook(1, 0, 100, Some(200), true), DoClaim(1, 0, 100), DoHandOver(1, 0, true)]

  lemma {:induction false} RunsConcat(s: State, a: seq<Op>, b: seq<Op>)
    requires IsRun(s, a) && IsRun(After(s, a), b)
    ensures IsRun(s, a + b) && After(s, a + b) == After(After(s, a), b)
    ensures Firings(s, a + b, 1) == Firings(s, a, 1) + Firings(After(s, a), b, 1)
    decreases |a|
  {
    if a == [] {
      assert a + b == b;
    } else {
      assert (a + b)[0] == a[0] && (a + b)[1..] == a[1..] + b;
      RunsConcat(Step(s, a[0]), a[1..], b);
    }
  }

  lemma EditUnderRearm(s: State, claimed: Routine)
    requires claimed == DAILY.(lastRunAt := Some(100), nextRunAt := Some(200))
    requires s.rows == map[1 := claimed] && s.live == {7} && PendingOf(s, 1) == [Rearming(Some(200), false)]
    ensures var ops := [DoRead(1, RetimeTo("CET"), 101, Some(150)), DoWrite(1, 1), DoSync(1, 1), DoRearm(1, 0)];
      && IsRun(s, ops)
      && var e := After(s, ops);
      PendingOf(e, 1) == [] && NextOf(e, 1) == Some(150) && JobOf(e, 1) == Some(200)
  {
    var e := RetimeTo("CET");
    assert EditRefusal(claimed, e, 101, Some(150)).None?;
    var s1 := Step(s, DoRead(1, e, 101, Some(150)));
    assert PendingOf(s1, 1) == [Rearming(Some(200), false), Editing(claimed, e, 101, Some(150))];
    var s2 := Step(s1, DoWrite(1, 1));
    var row := claimed.(timezone := "CET", nextRunAt := Some(150));
    assert PendingOf(s2, 1) == [Rearming(Some(200), false), Syncing(claimed, e, row)] && s2.rows[1] == row;
    var s3 := Step(s2, DoSync(1, 1));
    assert PendingOf(s3, 1) == [Rearming(Some(200), false)] && s3.rows[1] == row;
    Unroll(s3, DoRearm(1, 0), []);
    Unroll(s2, DoSync(1, 1), [DoRearm(1, 0)]);
    Unroll(s1, DoWrite(1, 1), [DoSync(1, 1), DoRearm(1, 0)]);
    Unroll(s, DoRead(1, e, 101, Some(150)), [DoWrite(1, 1), DoSync(1, 1), DoRearm(1, 0)]);
  }

  /** A rename that read the row before the worker claimed it writes the old next run back: the row says
      100, which has been run, and the queue 200. */
  lemma StaleRenameRevertsClaim()
    ensures var s := Idle(DAILY.(lastRunAt := Some(100), nextRunAt := Some(200)), Some(200), {7})
        .(pending := map[1 := [Editing(DAILY, RenameTo("news"), 99, None)]]);
      var ops := [DoWrite(1, 0), DoSync(1, 0)];
      && Good(s) && IsRun(s, ops)
      && var e := After(s, ops);
      PendingOf(e, 1) == [] && NextOf(e, 1) == Some(100) && JobOf(e, 1) == Some(200)
  {
    var claimed := DAILY.(lastRunAt := Some(100), nextRunAt := Some(200));
    var s := Idle(claimed, Some(200), {7}).(pending := map[1 := [Editing(DAILY, RenameTo("news"), 99, None)]]);
    assert EditRefusal(DAILY, RenameTo("news"), 99, None).None?;
    assert PendingOf(s, 1) == [Editing(DAILY, RenameTo("news"), 99, None)];
    var row := claimed.(name := "news", nextRunAt := Some(100));
    var s1 := Step(s, DoWrite(1, 0));
    assert PendingOf(s1, 1) == [Syncing(DAILY, RenameTo("news"), row)] && s1.rows[1] == row;
    var s2 := Step(s1, DoSync(1, 0));
    Unroll(s1, DoSync(1, 0), []);
    Unroll(s, DoWrite(1, 0), [DoSync(1, 0)]);
  }

  /** Overlap by itself does no harm: a rename in the middle of a wakeup, each step undisturbed. */
  lemma RenameDuringStart()
    ensures var s := Idle(DAILY, Some(100), {7});
      var ops := STARTED + RENAMED;
      && Good(s) && IsRun(s, ops)
      && var e := After(s, ops);
      PendingOf(e, 1) == [] && NextOf(e, 1) == JobOf(e, 1) == Some(200)
    ensures var s := Idle(DAILY, Some(100), {7}); IsRun(s, STARTED) && !Alone(After(s, STARTED), RENAMED[0])
    ensures var s := Idle(DAILY, Some(100), {7});
      IsRun(s, STARTED) && IsRun(After(s, STARTED), RENAMED) && UndisturbedRun(After(s, STARTED), RENAMED)
  {
    var s := Idle(DAILY, Some(100), {7});
    assert PendingOf(s, 1) == [];
    var s4 := ClaimedAndStarted(s);
    RenameUnderRearm(s4, DAILY.(lastRunAt := Some(100), nextRunAt := Some(200)));
    RunsConcat(s, STARTED, RENAMED);
  }

  const RENAMED := [DoRead(1, RenameTo("news"), 101, None), DoWrite(1, 1), DoSync(1, 1), DoRearm(1, 0)]

  lemma RenameUnderRearm(s: State, claimed: Routine)
    requires claimed == DAILY.(lastRunAt := Some(100), nextRunAt := Some(200))
    requires s.rows == map[1 := claimed] && s.live == {7} && PendingOf(s, 1) == [Rearming(Some(200), false)]
    ensures IsRun(s, RENAMED) && UndisturbedRun(s, RENAMED)
    ensures var e := After(s, RENAMED); PendingOf(e, 1) == [] && NextOf(e, 1) == JobOf(e, 1) == Some(200)
  {
    var e := RenameTo("news");
    assert EditRefusal(claimed, e, 101, None).None?;
    var s1 := Step(s, DoRead(1, e, 101, None));
    assert PendingOf(s1, 1) == [Rearming(Some(200), false), Editing(claimed, e, 101, None)];
    var s2 := Step(s1, DoWrite(1, 1));
    var row := claimed.(name := "news");
    assert PendingOf(s2, 1) == [Rearming(Some(200), false), Syncing(claimed, e, row)] && s2.rows[1] == row;
    var s3 := Step(s2, DoSync(1, 1));
    assert PendingOf(s3, 1) == [Rearming(Some(200), false)] && s3.rows[1] == row;
    RearmsInPeace(s3, row);
    UnrollUndisturbed(s2, DoSync(1, 1), [DoRearm(1, 0)]);
    UnrollUndisturbed(s1, DoWrite(1, 1), [DoSync(1, 1), DoRearm(1, 0)]);
    UnrollUndisturbed(s, DoRead(1, e, 101, None), [DoWrite(1, 1), DoSync(1, 1), DoRearm(1, 0)]);
  }

  lemma RearmsInPeace(s: State, row: Routine)
    requires s.rows == map[1 := row] && row.nextRunAt == Some(200) && PendingOf(s, 1) == [Rearming(Some(200), false)]
    ensures IsRun(s, [DoRearm(1, 0)]) && UndisturbedRun(s, [DoRearm(1, 0)])
    ensures var e := After(s, [DoRearm(1, 0)]); PendingOf(e, 1) == [] && NextOf(e, 1) == JobOf(e, 1) == Some(200)
  {
    UnrollUndisturbed(s, DoRearm(1, 0), []);
  }

  lemma UnrollUndisturbed(s: State, op: Op, ops: seq<Op>)
    requires Possible(s, op) && Undisturbed(s, op) && IsRun(Step(s, op), ops) && UndisturbedRun(Step(s, op), ops)
    ensures IsRun(s, [op] + ops) && After(s, [op] + ops) == After(Step(s, op), ops) && UndisturbedRun(s, [op] + ops)
  {
    assert ([op] + ops)[1..] == ops;
  }

  function RenameTo(name: string): Edit {
    Edit(Some(name), None, None, None, None, None, None, None)
  }

  const ONCE := Routine(7, "once", [Once("")], "UTC", true, false, false, None, None, Some(100))

  /** The worker takes the wakeup for 100, claims it, hands the run over and finishes. */
  function Wake(k: nat): seq<Op> {
    [DoTake(1), DoLook(1, k, 100, None, true), DoClaim(1, k, 100), DoHandOver(1, k, true), DoRearm(1, k)]
  }

  function SwitchOn(): Edit {
    Edit(None, None, Some("CET"), Some(true), None, None, None, None)
  }

  /** An update that read a one-shot before it ran and also sets it active revives it: it fires twice. */
  lemma StaleSwitchFiresTwice()
    ensures var s := Idle(ONCE, Some(100), {7});
      var ops := [DoRead(1, SwitchOn(), 99, None)] + (Wake(1) + ([DoWrite(1, 0), DoSync(1, 0)] + Wake(0)));
      OneShotHere(s, 1) && IsRun(s, ops) && Firings(s, ops, 1) == 2
  {
    var s := Idle(ONCE, Some(100), {7});
    assert PendingOf(s, 1) == [];
    assert EditRefusal(ONCE, SwitchOn(), 99, None).None?;
    var s1 := Step(s, DoRead(1, SwitchOn(), 99, None));
    var editing := Editing(ONCE, SwitchOn(), 99, None);
    assert PendingOf(s1, 1) == [editing];
    var s2 := WakesOnce(s1, [editing], ONCE);
    var s3 := Revived(s2, ONCE.(lastRunAt := Some(100), nextRunAt := None, active := false));
    var s4 := WakesOnce(s3, [], s3.rows[1]);
    RunsConcat(s2, [DoWrite(1, 0), DoSync(1, 0)], Wake(0));
    RunsConcat(s1, Wake(1), [DoWrite(1, 0), DoSync(1, 0)] + Wake(0));
    Unroll(s, DoRead(1, SwitchOn(), 99, None), Wake(1) + ([DoWrite(1, 0), DoSync(1, 0)] + Wake(0)));
  }

  lemma WakesOnce(s: State, others: seq<Pending>, row: Routine) returns (s': State)
    requires s.rows == map[1 := row] && s.jobs == map[1 := 100] && s.live == {7} && PendingOf(s, 1) == others
    requires row.active && row.nextRunAt == Some(100) && row.crons == [Once("")]
    ensures IsRun(s, Wake(|others|)) && s' == After(s, Wake(|others|)) && Firings(s, Wake(|others|), 1) == 1
    ensures s'.rows == map[1 := row.(lastRunAt := Some(100), nextRunAt := None, active := false)]
    ensures s'.jobs == map[] && s'.live == {7} && PendingOf(s', 1) == others
  {
    var k := |others|;
    var s1 := Step(s, DoTake(1));
    assert PendingOf(s1, 1) == others + [Waking(100)] && s1.jobs == map[];
    var s2 := Step(s1, DoLook(1, k, 100, None, true));
    assert PendingOf(s2, 1) == others + [Claiming(100, row, None)];
    s' := ClaimsOnce(s2, others, row);
    Unroll(s1, DoLook(1, k, 100, None, true), [DoClaim(1, k, 100), DoHandOver(1, k, true), DoRearm(1, k)]);
    Unroll(s, DoTake(1), [DoLook(1, k, 100, None, true), DoClaim(1, k, 100), DoHandOver(1, k, true), DoRearm(1, k)]);
  }

  lemma ClaimsOnce(s: State, others: seq<Pending>, row: Routine) returns (s': State)
    requires s.rows == map[1 := row] && s.jobs == map[] && s.live == {7} && PendingOf(s, 1) == others + [Claiming(100, row, None)]
    requires row.active && row.nextRunAt == Some(100) && row.crons == [Once("")]
    ensures var k := |others|; var ops := [DoClaim(1, k, 100), DoHandOver(1, k, true), DoRearm(1, k)];
      IsRun(s, ops) && s' == After(s, ops) && Firings(s, ops, 1) == 1
    ensures s'.rows == map[1 := row.(lastRunAt := Some(100), nextRunAt := None, active := false)]
    ensures s'.jobs == map[] && s'.live == {7} && PendingOf(s', 1) == others
  {
    var k := |others|;
    var s3 := Step(s, DoClaim(1, k, 100));
    assert PendingOf(s3, 1) == others + [Starting(100, row.lastRunAt, None, true)];
    var s4 := Step(s3, DoHandOver(1, k, true));
    assert PendingOf(s4, 1) == others + [Rearming(None, true)];
    s' := Step(s4, DoRearm(1, k));
    Unroll(s4, DoRearm(1, k), []);
    Unroll(s3, DoHandOver(1, k, true), [DoRearm(1, k)]);
    Unroll(s, DoClaim(1, k, 100), [DoHandOver(1, k, true), DoRearm(1, k)]);
  }

  lemma Revived(s: State, spent: Routine) returns (s': State)
    requires s.rows == map[1 := spent] && s.jobs == map[] && s.live == {7}
    requires spent == ONCE.(lastRunAt := Some(100), nextRunAt := None, active := false)
    requires PendingOf(s, 1) == [Editing(ONCE, SwitchOn(), 99, None)]
    ensures var ops := [DoWrite(1, 0), DoSync(1, 0)]; IsRun(s, ops) && s' == After(s, ops) && Firings(s, ops, 1) == 0
    ensures s'.rows == map[1 := ONCE.(timezone := "CET", lastRunAt := Some(100))]
    ensures s'.jobs == map[1 := 100] && s'.live == {7} && PendingOf(s', 1) == []
  {
    assert EditRefusal(ONCE, SwitchOn(), 99, None).None?;
    var row := ONCE.(timezone := "CET", lastRunAt := Some(100));
    var s1 := Step(s, DoWrite(1, 0));
    assert PendingOf(s1, 1) == [Syncing(ONCE, SwitchOn(), row)] && s1.rows[1] == row;
    s' := Step(s1, DoSync(1, 0));
    Unroll(s1, DoSync(1, 0), []);
    Unroll(s, DoWrite(1, 0), [DoSync(1, 0)]);
  }

  /** And with nothing overlapping: switching on a paused routine of an archived bot stores a next run and
      queues nothing. */
  lemma ArchivedBotLoses()
    ensures var s := Idle(DAILY.(active := false, nextRunAt := None), None, {});
      var e := Edit(None, None, None, Some(true), None, None, None, None);
      var ops := [DoRead(1, e, 99, Some(100)), DoWrite(1, 0), DoSync(1, 0)];
      && Serial(s) && IsRun(s, ops)
      && var end := After(s, ops);
      PendingOf(end, 1) == [] && NextOf(end, 1) == Some(100) && JobOf(end, 1) == None
  {
    var paused := DAILY.(active := false, nextRunAt := None);
    var s := Idle(paused, None, {});
    var e := Edit(None, None, None, Some(true), None, None, None, None);
    assert EditRefusal(paused, e, 99, Some(100)).None?;
    assert PendingOf(s, 1) == [];
    var s1 := Step(s, DoRead(1, e, 99, Some(100)));
    assert PendingOf(s1, 1) == [Editing(paused, e, 99, Some(100))];
    var s2 := Step(s1, DoWrite(1, 0));
    assert PendingOf(s2, 1) == [Syncing(paused, e, DAILY)] && s2.rows[1] == DAILY;
    Unroll(s2, DoSync(1, 0), []);
    Unroll(s1, DoWrite(1, 0), [DoSync(1, 0)]);
    Unroll(s, DoRead(1, e, 99, Some(100)), [DoWrite(1, 0), DoSync(1, 0)]);
  }
}

/** The routine handlers and the worker's wakeup, cut at their awaits: each method is the code between
    two of them. */
module RoutineHandlers {
  import opened Wrappers
  import opened Routines

  class Desk {
    var rows: map<nat, Routine>
    var jobs: map<nat, nat>
    var live: set<nat>
    var pending: map<nat, seq<Pending>>

    function View(): State
      reads this
    {
      State(rows, jobs, live, pending)
    }

    constructor ()
      ensures View() == State(map[], map[], {}, map[]) && Serial(View())
    {
      rows, jobs, live, pending := map[], map[], {}, map[];
    }

    // ---- the queue, and the operations under way ----

    method Enqueue(id: nat, at: nat)
      modifies this`jobs
      ensures View() == SetJob(old(View()), id, Some(at))
    {
      jobs := jobs[id := at];
    }

    method Cancel(id: nat)
      modifies this`jobs
      ensures View() == SetJob(old(View()), id, None)
    {
      jobs := jobs - {id};
    }

    method Suspend(id: nat, p: Pending)
      modifies this`pending
      ensures View() == Begin(old(View()), id, p)
    {
      pending := pending[id := PendingOf(View(), id) + [p]];
    }

    method GoOn(id: nat, k: nat, p: Pending)
      requires k < |PendingOf(View(), id)|
      modifies this`pending
      ensures View() == Becomes(old(View()), id, k, p)
    {
      pending := pending[id := PendingOf(View(), id)[k := p]];
    }

    /** The operation returns or throws without touching the queue any more. */
    method Finish(id: nat, k: nat)
      requires k < |PendingOf(View(), id)|
      modifies this`pending
      ensures View() == End(old(View()), id, k, JobOf(old(View()), id))
    {
      var ps := PendingOf(View(), id);
      pending := pending[id := ps[..k] + ps[k + 1..]];
      assert jobs == if id in jobs then jobs[id := jobs[id]] else jobs - {id};
    }

    // ---- create ----

    method CreateRoutine(id: nat, d: Routine, next: Option<nat>) returns (error: Option<Error>)
      modifies this
      ensures error == CreateRefusal(old(View()), d, next) && View() == CreateRow(old(View()), id, d, next)
    {
      if HasMixedOneShot(d.crons) { return Some(MixedSchedule); }
      if d.active && IsOneShot(d.crons) { return Some(OneShotFromChat); }
      if d.bot !in live { return Some(NotFound); }
      var nextRunAt := None;
      if d.crons != [] && !IsOneShot(d.crons) {
        // every recurring schedule is validated, an inactive one too
        if next.None? { return Some(BadCron); }
        nextRunAt := if d.active then next else None;
      }
      var row := d.(lastRunAt := None, nextRunAt := nextRunAt);
      rows := rows[id := row];
      if row.active && row.nextRunAt.Some? { Suspend(id, Enqueueing(row.nextRunAt.value)); }
      return None;
    }

    method EnqueueCreated(id: nat, k: nat)
      requires Possible(View(), DoEnqueue(id, k))
      modifies this
      ensures View() == Step(old(View()), DoEnqueue(id, k))
    {
      var at := PendingOf(View(), id)[k].at;
      Finish(id, k);
      Enqueue(id, at);
    }

    // ---- update ----

    /** The checks of an update, in order, and the next run it leads to. */
    method PlanUpdate(existing: Routine, e: Edit, now: nat, next: Option<nat>)
      returns (error: Option<Error>, nextRunAt: Option<nat>)
      ensures error == EditRefusal(existing, e, now, next)
      ensures error.None? ==> nextRunAt == EditedNextRun(existing, e, next)
      ensures error.None? && Scheduled(existing) ==> NextAfter(existing, e, now, next, nextRunAt)
    {
      if Scheduled(existing) && EditRefusal(existing, e, now, next).None? { UpdateStores(existing, e, now, next); }
      nextRunAt := None;
      var active, crons, timezone := Or(e.active, existing.active), Or(e.crons, existing.crons), Or(e.timezone, existing.timezone);
      var webhook, github, provider := Or(e.webhook, existing.webhook), Or(e.github, existing.github), Or(e.provider, existing.provider);
      if crons == [] && !webhook && !github && !Truthy(provider) { return Some(NoTrigger), None; }
      if HasMixedOneShot(crons) { return Some(MixedSchedule), None; }
      if active && IsOneShot(crons) {
        if !IsOneShot(existing.crons) { return Some(OneShotFromChat), None; }
        if existing.nextRunAt.None? && existing.lastRunAt.Some? { return Some(AlreadyRan), None; }
      }
      var recalculatedNextRunAt := None;
      if crons != [] && !IsOneShot(crons) && (ScheduleChanged(existing, e) || (active && existing.nextRunAt.None?)) {
        if next.None? { return Some(BadCron), None; }
        recalculatedNextRunAt := next;
      }
      var armedOneShotAt := None;
      if active && IsOneShot(crons) && existing.nextRunAt.None? && existing.lastRunAt.None? {
        if e.runAt.None? || e.runAt.value.Blank? { return Some(RunTimeMissing), None; }
        if e.runAt.value.Unreadable? || e.runAt.value.time <= now { return Some(RunTimePast), None; }
        armedOneShotAt := Some(e.runAt.value.time);
      } else if e.runAt.Some? {
        return Some(RunTimeUnwanted), None;
      }
      if active && crons != [] {
        nextRunAt :=
          if IsOneShot(crons) then (if armedOneShotAt.Some? then armedOneShotAt else existing.nextRunAt)
          else if recalculatedNextRunAt.Some? then recalculatedNextRunAt else existing.nextRunAt;
      }
      return None, nextRunAt;
    }

    /** Up to the row write: `nextRunAt` is what the update will store. */
    method ReadForUpdate(id: nat, e: Edit, now: nat, next: Option<nat>) returns (error: Option<Error>, nextRunAt: Option<nat>)
      modifies this`pending
      ensures View() == ReadRow(old(View()), id, e, now, next)
      ensures error == if id in rows then EditRefusal(rows[id], e, now, next) else Some(NotFound)
      ensures error.None? ==> nextRunAt == EditedNextRun(rows[id], e, next)
    {
      if id !in rows { return Some(NotFound), None; }
      error, nextRunAt := PlanUpdate(rows[id], e, now, next);
      if error.None? { Suspend(id, Editing(rows[id], e, now, next)); }
    }

    /** The row write: the given fields over whatever is stored by now. */
    method WriteUpdate(id: nat, k: nat, nextRunAt: Option<nat>) returns (error: Option<Error>)
      requires Possible(View(), DoWrite(id, k))
      requires var p := PendingOf(View(), id)[k]; nextRunAt == EditedNextRun(p.existing, p.edit, p.next)
      modifies this
      ensures View() == Step(old(View()), DoWrite(id, k))
      ensures error == if id in old(rows) then None else Some(NotFound)
    {
      var p := PendingOf(View(), id)[k];
      var e := p.edit;
      if id !in rows {
        Finish(id, k);
        return Some(NotFound);
      }
      var stored := rows[id];
      var row := stored.(
        name := Or(e.name, stored.name), crons := Or(e.crons, stored.crons), timezone := Or(e.timezone, stored.timezone),
        active := Or(e.active, stored.active), webhook := Or(e.webhook, stored.webhook), github := Or(e.github, stored.github),
        provider := Or(e.provider, stored.provider), nextRunAt := nextRunAt);
      rows := rows[id := row];
      GoOn(id, k, Syncing(p.existing, e, row));
      return None;
    }

    /** The bot lookup and the queue write. */
    method SyncUpdate(id: nat, k: nat) returns (error: Option<Error>)
      requires Possible(View(), DoSync(id, k))
      modifies this
      ensures View() == Step(old(View()), DoSync(id, k))
      ensures error == if PendingOf(old(View()), id)[k].row.bot in live then None else Some(NotFound)
    {
      var p := PendingOf(View(), id)[k];
      Finish(id, k);
      if p.row.bot !in live { return Some(NotFound); }
      if NeedsSync(p.existing, p.edit, p.row) {
        if p.row.active && p.row.nextRunAt.Some? { Enqueue(id, p.row.nextRunAt.value); } else { Cancel(id); }
      }
      return None;
    }

    // ---- remove ----

    method RemoveRoutine(id: nat) returns (error: Option<Error>)
      modifies this
      ensures View() == DeleteRow(old(View()), id)
      ensures error == if id in old(rows) then None else Some(NotFound)
    {
      if id !in rows { return Some(NotFound); }
      rows := rows - {id};
      Suspend(id, Cancelling);
      return None;
    }

    method CancelWakeup(id: nat, k: nat)
      requires Possible(View(), DoCancel(id, k))
      modifies this
      ensures View() == Step(old(View()), DoCancel(id, k))
    {
      Finish(id, k);
      Cancel(id);
    }

    // ---- the worker ----

    method TakeWakeup(id: nat)
      requires id in jobs
      modifies this
      ensures View() == Step(old(View()), DoTake(id))
    {
      Suspend(id, Waking(jobs[id]));
      Cancel(id);
    }

    /** A stale wakeup is dropped, an early one goes back; otherwise the claim is prepared. */
    method LookAtRoutine(id: nat, k: nat, now: nat, next: Option<nat>, threaded: bool)
      requires Possible(View(), DoLook(id, k, now, next, threaded))
      modifies this
      ensures View() == Step(old(View()), DoLook(id, k, now, next, threaded))
    {
      var scheduledAt := PendingOf(View(), id)[k].at;
      if id !in rows || !rows[id].active || rows[id].nextRunAt != Some(scheduledAt) {
        Finish(id, k);
        return;
      }
      if scheduledAt > now + EARLY_MS {
        Finish(id, k);
        Enqueue(id, scheduledAt);
        return;
      }
      if !threaded {
        Finish(id, k);
        return;
      }
      GoOn(id, k, Claiming(scheduledAt, rows[id], if IsOneShot(rows[id].crons) then None else next));
    }

    /** The guarded claim; `claimed` when its update counted one row. */
    method ClaimRoutine(id: nat, k: nat, now: nat) returns (claimed: bool)
      requires Possible(View(), DoClaim(id, k, now))
      modifies this
      ensures View() == Step(old(View()), DoClaim(id, k, now))
      ensures claimed <==> Due(old(View()), id, PendingOf(old(View()), id)[k].at)
    {
      var p := PendingOf(View(), id)[k];
      claimed := id in rows && rows[id].active && rows[id].nextRunAt == Some(p.at);
      if !claimed {
        Finish(id, k);
        return;
      }
      rows := rows[id := rows[id].(lastRunAt := Some(now), nextRunAt := p.again, active := p.again.Some?)];
      GoOn(id, k, Starting(p.at, p.seen.lastRunAt, p.again, IsOneShot(p.seen.crons)));
    }

    /** The run's continuation is queued, or the claim is undone and the failed job will be tried again. */
    method HandOverRun(id: nat, k: nat, ok: bool)
      requires Possible(View(), DoHandOver(id, k, ok))
      modifies this
      ensures View() == Step(old(View()), DoHandOver(id, k, ok))
    {
      var p := PendingOf(View(), id)[k];
      if ok {
        GoOn(id, k, Rearming(p.again, p.oneShot));
        return;
      }
      if id in rows && rows[id].nextRunAt == p.again && (p.again.Some? || !rows[id].active) {
        rows := rows[id := rows[id].(nextRunAt := Some(p.at), active := true, lastRunAt := p.previous)];
      }
      Finish(id, k);
      if id !in jobs { Enqueue(id, p.at); }
    }

    method RearmRoutine(id: nat, k: nat)
      requires Possible(View(), DoRearm(id, k))
      modifies this
      ensures View() == Step(old(View()), DoRearm(id, k))
    {
      var p := PendingOf(View(), id)[k];
      Finish(id, k);
      if p.oneShot { Cancel(id); }
      else if p.again.Some? { Enqueue(id, p.again.value); }
    }
  }
}
