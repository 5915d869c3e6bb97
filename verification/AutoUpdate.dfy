/** The desktop updater: its state reducer, its check throttle, and the controller that serialises
    checks, downloads and the install while updater events arrive at any moment. */
module AutoUpdate {
  import opened Wrappers

  const MIN_CHECK_INTERVAL_MS := 60_000

  datatype Phase = Unsupported | Idle | Checking | Available | Downloading | Ready | Failing

  /** What the renderer sees. `version` is the offered version. */
  datatype UpdateState = UpdateState(
    phase: Phase, version: Option<string>, percent: Option<int>, message: Option<string>, checkedAt: Option<nat>)

  /** An error by the class its text falls into. */
  datatype Failure = NoReleases | Offline | Signature | Other

  datatype UpdaterEvent =
    | CheckStart
    | Offered(version: string)
    | NotAvailable
    | DownloadStart
    | Progress(percent: real)
    | Downloaded(version: string)
    | Failed(failure: Failure, userInitiated: bool, installFailed: bool)

  const TRY_LATER := "The update could not be completed. Try again later."
  const NONE_PUBLISHED := "No desktop releases are published for this build yet."
  const UNREACHABLE := "Could not reach the update server."
  const UNVERIFIED := "This update could not be verified. Reinstall Rakazo from a trusted download."

  function MessageOf(failure: Failure): Option<string> {
    match failure
    case NoReleases => Some(NONE_PUBLISHED)
    case Offline => None
    case Signature => Some(UNVERIFIED)
    case Other => Some(TRY_LATER)
  }

  /** `Math.max(0, Math.min(100, Math.round(percent)))`, halves rounding up. */
  function Clamped(percent: real): int {
    var rounded := (percent + 0.5).Floor;
    if rounded < 0 then 0 else if rounded > 100 then 100 else rounded
  }

  function Reduce(u: UpdateState, event: UpdaterEvent, now: nat): UpdateState {
    if u.phase == Unsupported then u
    else
      match event
      case CheckStart =>
        if u.phase == Available || u.phase == Downloading || u.phase == Ready then u
        else u.(phase := Checking, percent := None, message := None)
      case Offered(version) =>
        if u.phase == Downloading || u.phase == Ready then u
        else u.(phase := Available, version := Some(version), percent := None, message := None, checkedAt := Some(now))
      case NotAvailable =>
        if u.phase == Downloading || u.phase == Ready then u
        else u.(phase := Idle, version := None, percent := None, message := None, checkedAt := Some(now))
      case DownloadStart =>
        if u.phase == Ready then u else u.(phase := Downloading, percent := Some(0), message := None)
      case Progress(percent) =>
        if u.phase != Available && u.phase != Downloading then u
        else u.(phase := Downloading, percent := Some(Clamped(percent)))
      case Downloaded(version) => u.(phase := Ready, version := Some(version), percent := Some(100), message := None)
      case Failed(failure, userInitiated, installFailed) => ReduceFailure(u, failure, userInitiated, installFailed, now)
  }

  function ReduceFailure(u: UpdateState, failure: Failure, userInitiated: bool, installFailed: bool, now: nat): UpdateState {
    if u.phase == Ready then
      if installFailed then u.(message := if MessageOf(failure).Some? then MessageOf(failure) else Some(TRY_LATER)) else u
    else if failure == NoReleases && u.phase == Checking then
      u.(phase := Unsupported, version := None, percent := None, message := MessageOf(failure), checkedAt := Some(now))
    else if failure == NoReleases then
      u.(phase := Failing, percent := None, message := Some(TRY_LATER), checkedAt := Some(now))
    else if failure == Offline && !installFailed then
      u.(phase := Idle, percent := None,
         message := if userInitiated then Some(UNREACHABLE) else None, checkedAt := Some(now))
    else u.(phase := Failing, percent := None, message := MessageOf(failure), checkedAt := Some(now))
  }

  predicate ShouldCheck(u: UpdateState, now: nat, lastCheck: nat, userInitiated: bool, supported: bool) {
    if u.phase == Unsupported then userInitiated && supported
    else (u.phase == Idle || u.phase == Failing) && (now - lastCheck >= MIN_CHECK_INTERVAL_MS || lastCheck == 0)
  }

  /** A version is usable when it is not blank. */
  predicate Usable(version: string) {
    exists i :: 0 <= i < |version| && version[i] !in {' ', '\t', '\r', '\n'}
  }

  /** `versionFrom`: the payload's version, unless it is missing or blank. */
  function VersionFrom(payload: Option<string>): (version: Option<string>)
    ensures version.Some? ==> Usable(version.value)
  {
    if payload.Some? && Usable(payload.value) then payload else None
  }

  // ---- the controller ----

  /** An async method between its awaits; `Ending` is over but still the method's pending promise. */
  datatype Task = NoTask | Loading(userInitiated: bool) | Asking | Ending

  /** What is worth remembering of a run: feed checks, when the feed turned out empty and froze checking,
      manual check calls, the thaws that lift such a freeze, and installs. */
  datatype Mark = Feed(at: nat) | Emptied | Asked | Thawed | Install | InstallFailed

  datatype State = State(
    supported: bool, now: nat, current: UpdateState, lastCheck: nat, checkWasRequested: bool,
    checking: Task, downloading: Task, installs: nat, installStarted: bool, log: seq<Mark>)

  function Initial(supported: bool, reason: string, now: nat): State {
    State(supported, now,
      UpdateState(if supported then Idle else Unsupported, None, None, if supported then None else Some(reason), None),
      0, false, NoTask, NoTask, 0, false, [])
  }

  function Push(s: State, event: UpdaterEvent): State {
    var u := Reduce(s.current, event, s.now);
    s.(current := u,
       checkWasRequested := s.checkWasRequested && !event.NotAvailable? && !event.Downloaded? && !event.Failed?,
       log := if u.phase == Unsupported && s.current.phase != Unsupported then s.log + [Emptied] else s.log)
  }

  /** A failure reported while an install is under way is that install's failure. */
  function Fail(s: State, failure: Failure): State {
    var failed := Push(s, Failed(failure, s.checkWasRequested || s.installStarted, s.installStarted));
    if s.installStarted then failed.(installStarted := false, log := failed.log + [InstallFailed]) else failed
  }

  function Download(s: State): State {
    if s.downloading != NoTask then s
    else s.(downloading := if s.current.phase == Available then Loading(false) else Ending)
  }

  function Check(s: State, userInitiated: bool): State {
    var asked := s.(checkWasRequested := s.checkWasRequested || userInitiated,
                    log := if userInitiated then s.log + [Asked] else s.log);
    if s.checking != NoTask then asked
    else if !ShouldCheck(asked.current, s.now, s.lastCheck, asked.checkWasRequested, s.supported) then asked.(checking := Ending)
    else
      var begun := asked.(checking := Loading(asked.checkWasRequested));
      if asked.current.phase == Unsupported && s.supported then
        begun.(current := asked.current.(phase := Idle, version := None, percent := None, message := None),
               lastCheck := 0, log := asked.log + [Thawed])
      else begun
  }

  function ResumeCheck(s: State, loaded: bool): State
    requires s.checking.Loading?
  {
    if !loaded || !ShouldCheck(s.current, s.now, s.lastCheck, s.checking.userInitiated, s.supported) then s.(checking := Ending)
    else s.(checking := Asking, lastCheck := s.now, log := s.log + [Feed(s.now)])
  }

  function EndCheck(s: State, failure: Option<Failure>): State {
    var failed :=
      if failure.Some? && (s.current.phase == Idle || s.current.phase == Checking)
      then Push(s, Failed(failure.value, s.checkWasRequested, false)) else s;
    failed.(checking := Ending)
  }

  function ResumeDownload(s: State, loaded: bool): State {
    if !loaded || s.current.phase != Available then s.(downloading := Ending)
    else Push(s, DownloadStart).(downloading := Asking)
  }

  function EndDownload(s: State, failure: Option<Failure>): State {
    var failed :=
      if failure.Some? && s.current.phase == Downloading
      then Push(s, Failed(failure.value, s.checkWasRequested, false)) else s;
    failed.(downloading := Ending)
  }

  function CallInstall(s: State): State {
    if s.installStarted || s.current.phase != Ready then s else s.(installs := s.installs + 1)
  }

  function ResumeInstall(s: State, loaded: bool, thrown: Option<Failure>): State
    requires s.installs > 0
  {
    var resumed := s.(installs := s.installs - 1);
    if !loaded || s.installStarted || s.current.phase != Ready then resumed
    else
      var begun := resumed.(installStarted := true, current := s.current.(message := None), log := s.log + [Install]);
      if thrown.Some? then Fail(begun, thrown.value) else begun
  }

  datatype Action =
    | Tick(now: nat)
    | CheckCalled(userInitiated: bool) | CheckLoaded(loaded: bool) | CheckEnded(rejected: Option<Failure>) | CheckCleared
    | DownloadCalled | DownloadLoaded(loaded: bool) | DownloadEnded(rejected: Option<Failure>) | DownloadCleared
    | InstallCalled | InstallLoaded(loaded: bool, thrown: Option<Failure>)
    | CheckingForUpdate | UpdateAvailable(payload: Option<string>) | UpdateNotAvailable
    | DownloadProgress(percent: Option<real>) | UpdateDownloaded(payload: Option<string>)
    | UpdaterError(failure: Failure) | LoadFailed(failure: Failure)

  /** The clock only moves forward; a continuation runs only where its method waits. */
  predicate Enabled(s: State, a: Action) {
    match a
    case Tick(now) => now >= s.now
    case CheckLoaded(_) => s.checking.Loading?
    case CheckEnded(_) => s.checking.Asking?
    case CheckCleared => s.checking.Ending?
    case DownloadLoaded(_) => s.downloading.Loading?
    case DownloadEnded(_) => s.downloading.Asking?
    case DownloadCleared => s.downloading.Ending?
    case InstallLoaded(_, _) => s.installs > 0
    case _ => true
  }

  function Step(s: State, a: Action): State
    requires Enabled(s, a)
  {
    match a
    case Tick(now) => s.(now := now)
    case CheckCalled(userInitiated) => Check(s, userInitiated)
    case CheckLoaded(loaded) => ResumeCheck(s, loaded)
    case CheckEnded(rejected) => EndCheck(s, rejected)
    case CheckCleared => s.(checking := NoTask)
    case DownloadCalled => Download(s)
    case DownloadLoaded(loaded) => ResumeDownload(s, loaded)
    case DownloadEnded(rejected) => EndDownload(s, rejected)
    case DownloadCleared => s.(downloading := NoTask)
    case InstallCalled => CallInstall(s)
    case InstallLoaded(loaded, thrown) => ResumeInstall(s, loaded, thrown)
    case CheckingForUpdate => Push(s, CheckStart)
    case UpdateAvailable(payload) =>
      var version := VersionFrom(payload);
      if version.None? then Push(s, Failed(Other, s.checkWasRequested, false)) else Download(Push(s, Offered(version.value)))
    case UpdateNotAvailable => Push(s, NotAvailable)
    case DownloadProgress(percent) => if percent.None? then s else Push(s, Progress(percent.value))
    case UpdateDownloaded(payload) =>
      var version := VersionFrom(payload);
      if version.None? then Push(s, Failed(Other, s.checkWasRequested, false)) else Push(s, Downloaded(version.value))
    case UpdaterError(failure) => Fail(s, failure)
    case LoadFailed(failure) => Push(s, Failed(failure, s.checkWasRequested, false))
  }

  predicate IsRun(s: State, acts: seq<Action>)
    decreases |acts|
  {
    acts == [] || (Enabled(s, acts[0]) && IsRun(Step(s, acts[0]), acts[1..]))
  }

  function After(s: State, acts: seq<Action>): State
    requires IsRun(s, acts)
    decreases |acts|
  {
    if acts == [] then s else After(Step(s, acts[0]), acts[1..])
  }

  // ---- what the renderer may rely on ----

  /** A ready update has a usable version and is complete, an offer has a version, a download a
      percentage between 0 and 100. */
  ghost predicate Shown(u: UpdateState) {
    && (u.phase == Ready ==> u.version.Some? && Usable(u.version.value) && u.percent == Some(100))
    && (u.phase == Available ==> u.version.Some? && Usable(u.version.value))
    && (u.phase == Downloading ==> u.percent.Some? && 0 <= u.percent.value <= 100)
  }

  /** Any two feed checks are an interval apart or have a thaw between them. */
  ghost predicate Spaced(log: seq<Mark>) {
    forall i, j :: 0 <= i < j < |log| && log[i].Feed? && log[j].Feed? ==>
      log[j].at - log[i].at >= MIN_CHECK_INTERVAL_MS || Thawed in log[i..j]
  }

  /** Any two installs have a failed one between them. */
  ghost predicate Alternating(log: seq<Mark>) {
    forall i, j :: 0 <= i < j < |log| && log[i].Install? && log[j].Install? ==> InstallFailed in log[i..j]
  }

  ghost predicate FeedsThawed(log: seq<Mark>) {
    forall i :: 0 <= i < |log| && log[i].Feed? ==> Thawed in log[i..]
  }

  ghost predicate InstallsFailed(log: seq<Mark>) {
    forall i :: 0 <= i < |log| && log[i].Install? ==> InstallFailed in log[i..]
  }

  /** `lastCheck` dominates every feed check, unless a thaw after the last one reset it. */
  ghost predicate Throttled(s: State) {
    && s.now > 0 && s.lastCheck <= s.now && Spaced(s.log)
    && (forall i :: 0 <= i < |s.log| && s.log[i].Feed? ==> s.log[i].at <= s.now)
    && (s.lastCheck == 0 ==> FeedsThawed(s.log))
    && (s.lastCheck != 0 ==> forall i :: 0 <= i < |s.log| && s.log[i].Feed? ==> s.log[i].at <= s.lastCheck)
    && (s.checking.Loading? ==> s.lastCheck == 0 || s.now - s.lastCheck >= MIN_CHECK_INTERVAL_MS)
  }

  /** Where the feed stands, as the log tells: open, found empty, or found empty and then asked for by hand. */
  datatype Freeze = Open | Empty | AskedFor

  function FreezeOf(log: seq<Mark>): Freeze {
    if log == [] then Open
    else
      var before := FreezeOf(log[..|log| - 1]);
      match log[|log| - 1]
      case Emptied => Empty
      case Thawed => Open
      case Asked => if before == Open then Open else AskedFor
      case _ => before
  }

  /** Every thaw lifts a freeze that somebody asked to lift after the feed was found empty. */
  ghost predicate ThawedByHand(log: seq<Mark>) {
    forall k :: 0 <= k < |log| && log[k] == Thawed ==> FreezeOf(log[..k]) == AskedFor
  }

  /** What `AskedFor` means: the feed was found empty, later a manual check was called, and nothing has
      thawed it since. */
  lemma {:induction false} AskedForMeans(log: seq<Mark>) returns (empty: nat, asked: nat)
    requires FreezeOf(log) == AskedFor
    ensures empty < asked < |log| && log[empty] == Emptied && log[asked] == Asked && Thawed !in log[empty..]
  {
    var n := |log| - 1;
    assert log == log[..n] + [log[n]];
    if log[n] == Asked && FreezeOf(log[..n]) == Empty {
      asked := n;
      empty := EmptyMeans(log[..n]);
    } else {
      empty, asked := AskedForMeans(log[..n]);
    }
    assert log[empty..] == log[..n][empty..] + [log[n]];
  }

  lemma {:induction false} EmptyMeans(log: seq<Mark>) returns (empty: nat)
    requires FreezeOf(log) == Empty
    ensures empty < |log| && log[empty] == Emptied && Thawed !in log[empty..]
  {
    var n := |log| - 1;
    assert log == log[..n] + [log[n]];
    if log[n] == Emptied {
      empty := n;
    } else {
      empty := EmptyMeans(log[..n]);
      assert log[empty..] == log[..n][empty..] + [log[n]];
    }
  }

  /** Checking is frozen only by a feed found empty, and a pending manual request was made after that. */
  ghost predicate Frozen(s: State) {
    && ThawedByHand(s.log)
    && (s.supported && s.current.phase == Unsupported ==> FreezeOf(s.log) != Open)
    && (s.supported && s.current.phase == Unsupported && s.checkWasRequested ==> FreezeOf(s.log) == AskedFor)
  }

  /** An install is under way only in `Ready`, and otherwise every install has failed. */
  ghost predicate Installing(s: State) {
    && Alternating(s.log)
    && (s.installStarted ==> s.current.phase == Ready)
    && (!s.installStarted ==> InstallsFailed(s.log))
  }

  ghost predicate Inv(s: State) {
    Shown(s.current) && Throttled(s) && Installing(s) && Frozen(s)
  }

  // ---- preservation ----

  lemma ReduceShown(u: UpdateState, event: UpdaterEvent, now: nat)
    requires Shown(u)
    requires (event.Offered? ==> Usable(event.version)) && (event.Downloaded? ==> Usable(event.version))
    ensures Shown(Reduce(u, event, now))
    ensures u.phase == Ready ==> Reduce(u, event, now).phase == Ready
  {
  }

  /** A step that only pushes an event, if anything, and starts or ends no check of the feed. */
  ghost predicate Quiet(s: State, s': State) {
    && (s'.log == s.log || s'.log == s.log + [Emptied]) && s'.lastCheck == s.lastCheck && s'.now >= s.now
    && (s'.checking.Loading? ==> s.checking.Loading?)
    && s'.installStarted == s.installStarted
    && Shown(s'.current) && (s.current.phase == Ready ==> s'.current.phase == Ready)
  }

  lemma PushQuiet(s: State, event: UpdaterEvent)
    requires Shown(s.current)
    requires (event.Offered? ==> Usable(event.version)) && (event.Downloaded? ==> Usable(event.version))
    ensures Quiet(s, Push(s, event))
  {
    ReduceShown(s.current, event, s.now);
  }

  predicate Loud(a: Action) {
    a.CheckCalled? || a.CheckLoaded? || a.InstallLoaded? || a.UpdaterError?
  }

  lemma StepQuiet(s: State, a: Action)
    requires Shown(s.current) && Enabled(s, a) && !Loud(a)
    ensures Quiet(s, Step(s, a))
  {
    StepPushes(s, a);
    if Pushed(s, a).Some? { PushQuiet(s, Pushed(s, a).value); }
  }

  /** What a new mark does to the log's properties. */
  lemma LogGrows(log: seq<Mark>, m: Mark)
    requires Spaced(log) && Alternating(log)
    requires m.Feed? ==> forall i :: 0 <= i < |log| && log[i].Feed? ==>
      m.at - log[i].at >= MIN_CHECK_INTERVAL_MS || Thawed in log[i..]
    requires m.Install? ==> InstallsFailed(log)
    ensures Spaced(log + [m]) && Alternating(log + [m])
    ensures m.Thawed? || (FeedsThawed(log) && !m.Feed?) ==> FeedsThawed(log + [m])
    ensures m.InstallFailed? || (InstallsFailed(log) && !m.Install?) ==> InstallsFailed(log + [m])
  {
    var more := log + [m];
    assert forall i :: 0 <= i < |log| ==> more[i] == log[i];
    assert forall i :: 0 <= i < |log| ==> more[i..] == log[i..] + [m];
    assert forall i :: 0 <= i < |log| ==> more[i..|log|] == log[i..];
    assert forall i, j :: 0 <= i < j < |log| ==> more[i..j] == log[i..j];
  }

  /** Steps that do write the log keep what is shown and never leave `Ready`. */
  lemma LoudShown(s: State, a: Action)
    requires Shown(s.current) && Enabled(s, a) && Loud(a)
    ensures Shown(Step(s, a).current) && (s.current.phase == Ready ==> Step(s, a).current.phase == Ready)
  {
    match a
    case UpdaterError(failure) => ReduceShown(s.current, Failed(failure, s.checkWasRequested || s.installStarted, s.installStarted), s.now);
    case CheckCalled(_) =>
    case CheckLoaded(_) =>
    case InstallLoaded(loaded, thrown) =>
      if thrown.Some? { ReduceShown(s.current.(message := None), Failed(thrown.value, true, true), s.now); }
  }

  /** Marks that are neither a check, nor an install, nor the end of one change none of this. */
  lemma NeutralKeeps(s: State, m: Mark)
    requires Throttled(s) && Installing(s) && (m == Emptied || m == Asked)
    ensures Throttled(s.(log := s.log + [m])) && Installing(s.(log := s.log + [m]))
  {
    LogGrows(s.log, m);
  }

  lemma QuietKeeps(s: State, s': State)
    requires Shown(s.current) && Throttled(s) && Installing(s) && Quiet(s, s')
    ensures Throttled(s') && Installing(s')
  {
    if s'.log != s.log { NeutralKeeps(s, Emptied); }
  }

  lemma FailKeeps(s: State, failure: Failure)
    requires Shown(s.current) && Throttled(s) && Installing(s)
    ensures Throttled(Fail(s, failure)) && Installing(Fail(s, failure))
  {
    if s.installStarted {
      LogGrows(s.log, InstallFailed);
      EndKeeps(s, Fail(s, failure));
    } else {
      var event := Failed(failure, s.checkWasRequested, false);
      PushQuiet(s, event);
      QuietKeeps(s, Push(s, event));
    }
  }

  lemma EndKeeps(s: State, s': State)
    requires Throttled(s) && Installing(s) && s.installStarted
    requires s'.log == s.log + [InstallFailed] && Spaced(s'.log) && Alternating(s'.log) && InstallsFailed(s'.log)
    requires FeedsThawed(s.log) ==> FeedsThawed(s'.log)
    requires s'.now == s.now && s'.lastCheck == s.lastCheck && s'.checking == s.checking && !s'.installStarted
    ensures Throttled(s') && Installing(s')
  {
  }

  lemma CheckKeeps(s: State, userInitiated: bool)
    requires Throttled(s) && Installing(s)
    ensures Throttled(Check(s, userInitiated)) && Installing(Check(s, userInitiated))
  {
    var asked := if userInitiated then s.(log := s.log + [Asked]) else s;
    if userInitiated { NeutralKeeps(s, Asked); }
    var s' := Check(s, userInitiated);
    if s'.log != asked.log {
      LogGrows(asked.log, Thawed);
      ThawKeeps(asked, s');
    } else {
      NoThawKeeps(asked, s');
    }
  }

  lemma NoThawKeeps(s: State, s': State)
    requires Throttled(s) && Installing(s)
    requires s'.log == s.log && s'.now == s.now && s'.lastCheck == s.lastCheck
    requires s'.current == s.current && s'.installStarted == s.installStarted
    requires s'.checking.Loading? ==> s.checking.Loading? || s.lastCheck == 0 || s.now - s.lastCheck >= MIN_CHECK_INTERVAL_MS
    ensures Throttled(s') && Installing(s')
  {
  }

  lemma ThawKeeps(s: State, s': State)
    requires Throttled(s) && Installing(s) && !s.installStarted
    requires s'.log == s.log + [Thawed] && Spaced(s'.log) && Alternating(s'.log) && FeedsThawed(s'.log) && InstallsFailed(s'.log)
    requires s'.now == s.now && s'.lastCheck == 0 && !s'.installStarted
    ensures Throttled(s') && Installing(s')
  {
  }

  lemma FeedKeeps(s: State, loaded: bool)
    requires Throttled(s) && Installing(s) && s.checking.Loading?
    ensures Throttled(ResumeCheck(s, loaded)) && Installing(ResumeCheck(s, loaded))
  {
    LogGrows(s.log, Feed(s.now));
  }

  lemma InstallKeeps(s: State, loaded: bool, thrown: Option<Failure>)
    requires Shown(s.current) && Throttled(s) && Installing(s) && s.installs > 0
    ensures Throttled(ResumeInstall(s, loaded, thrown)) && Installing(ResumeInstall(s, loaded, thrown))
  {
    if loaded && !s.installStarted && s.current.phase == Ready {
      LogGrows(s.log, Install);
      var begun := s.(installs := s.installs - 1, installStarted := true,
                      current := s.current.(message := None), log := s.log + [Install]);
      BeginKeeps(s, begun);
      if thrown.Some? { FailKeeps(begun, thrown.value); }
    }
  }

  lemma BeginKeeps(s: State, s': State)
    requires Throttled(s) && Installing(s) && s.current.phase == Ready
    requires s'.log == s.log + [Install] && Spaced(s'.log) && Alternating(s'.log)
    requires FeedsThawed(s.log) ==> FeedsThawed(s'.log)
    requires s'.now == s.now && s'.lastCheck == s.lastCheck && s'.checking == s.checking
    requires s'.installStarted && s'.current.phase == Ready
    ensures Throttled(s') && Installing(s')
  {
  }

  /** One more mark: the freeze moves on, and a thaw is by hand if the freeze was asked to lift. */
  lemma FreezeGrows(log: seq<Mark>, m: Mark)
    requires ThawedByHand(log) && (m == Thawed ==> FreezeOf(log) == AskedFor)
    ensures ThawedByHand(log + [m])
    ensures FreezeOf(log + [m]) ==
            if m == Emptied then Empty
            else if m == Thawed then Open
            else if m == Asked && FreezeOf(log) == Empty then AskedFor
            else FreezeOf(log)
  {
    var more := log + [m];
    assert more[..|log|] == log;
    assert forall k :: 0 <= k < |log| ==> more[..k] == log[..k];
  }

  /** A feed found empty voids every request made before. */
  lemma PushFrozen(s: State, event: UpdaterEvent)
    requires Frozen(s)
    ensures Frozen(Push(s, event))
  {
    FreezeGrows(s.log, Emptied);
  }

  lemma FailFrozen(s: State, failure: Failure)
    requires Frozen(s)
    ensures Frozen(Fail(s, failure))
  {
    var failed := Push(s, Failed(failure, s.checkWasRequested || s.installStarted, s.installStarted));
    PushFrozen(s, Failed(failure, s.checkWasRequested || s.installStarted, s.installStarted));
    FreezeGrows(failed.log, InstallFailed);
  }

  lemma CheckFrozen(s: State, userInitiated: bool)
    requires Frozen(s)
    ensures Frozen(Check(s, userInitiated))
  {
    if userInitiated { FreezeGrows(s.log, Asked); }
    var asked := s.(checkWasRequested := s.checkWasRequested || userInitiated,
                    log := if userInitiated then s.log + [Asked] else s.log);
    assert Frozen(asked);
    ThawFrozen(asked, Check(s, userInitiated));
  }

  lemma ThawFrozen(s: State, s': State)
    requires Frozen(s) && s'.supported == s.supported && s'.checkWasRequested == s.checkWasRequested
    requires (s'.log == s.log && s'.current == s.current)
             || (s.supported && s.checkWasRequested && s.current.phase == Unsupported
                 && s'.current.phase == Idle && s'.log == s.log + [Thawed])
    ensures Frozen(s')
  {
    if s'.log != s.log { FreezeGrows(s.log, Thawed); }
  }

  lemma InstallFrozen(s: State, loaded: bool, thrown: Option<Failure>)
    requires Frozen(s) && s.installs > 0
    ensures Frozen(ResumeInstall(s, loaded, thrown))
  {
    FreezeGrows(s.log, Install);
    if loaded && !s.installStarted && s.current.phase == Ready && thrown.Some? {
      FailFrozen(s.(installs := s.installs - 1, installStarted := true,
                    current := s.current.(message := None), log := s.log + [Install]), thrown.value);
    }
  }

  /** The event a step that does not write the log itself pushes, if it pushes one. */
  function Pushed(s: State, a: Action): (event: Option<UpdaterEvent>) {
    match a
    case CheckEnded(rejected) =>
      if rejected.Some? && (s.current.phase == Idle || s.current.phase == Checking)
      then Some(Failed(rejected.value, s.checkWasRequested, false)) else None
    case DownloadLoaded(loaded) => if loaded && s.current.phase == Available then Some(DownloadStart) else None
    case DownloadEnded(rejected) =>
      if rejected.Some? && s.current.phase == Downloading then Some(Failed(rejected.value, s.checkWasRequested, false)) else None
    case CheckingForUpdate => Some(CheckStart)
    case UpdateAvailable(payload) =>
      Some(if VersionFrom(payload).Some? then Offered(VersionFrom(payload).value) else Failed(Other, s.checkWasRequested, false))
    case UpdateNotAvailable => Some(NotAvailable)
    case DownloadProgress(percent) => if percent.Some? then Some(Progress(percent.value)) else None
    case UpdateDownloaded(payload) =>
      Some(if VersionFrom(payload).Some? then Downloaded(VersionFrom(payload).value) else Failed(Other, s.checkWasRequested, false))
    case LoadFailed(failure) => Some(Failed(failure, s.checkWasRequested, false))
    case _ => None
  }

  lemma StepPushes(s: State, a: Action)
    requires Enabled(s, a) && !Loud(a)
    ensures var s0, s' := if Pushed(s, a).Some? then Push(s, Pushed(s, a).value) else s, Step(s, a);
      && s'.log == s0.log && s'.current == s0.current && s'.checkWasRequested == s0.checkWasRequested
      && s'.lastCheck == s0.lastCheck && s'.supported == s0.supported && s'.installStarted == s0.installStarted
      && s'.now >= s0.now && (s'.checking.Loading? ==> s0.checking.Loading?)
  {
  }

  lemma StepFrozen(s: State, a: Action)
    requires Frozen(s) && Enabled(s, a)
    ensures Frozen(Step(s, a))
  {
    if Loud(a) {
      match a
      case CheckCalled(userInitiated) => CheckFrozen(s, userInitiated);
      case CheckLoaded(_) => FreezeGrows(s.log, Feed(s.now));
      case InstallLoaded(loaded, thrown) => InstallFrozen(s, loaded, thrown);
      case UpdaterError(failure) => FailFrozen(s, failure);
    } else {
      StepPushes(s, a);
      if Pushed(s, a).Some? { PushFrozen(s, Pushed(s, a).value); }
    }
  }

  lemma LoudKeeps(s: State, a: Action)
    requires Shown(s.current) && Throttled(s) && Installing(s) && Enabled(s, a) && Loud(a)
    ensures Throttled(Step(s, a)) && Installing(Step(s, a))
  {
    match a
    case CheckCalled(userInitiated) => CheckKeeps(s, userInitiated);
    case CheckLoaded(loaded) => FeedKeeps(s, loaded);
    case InstallLoaded(loaded, thrown) => InstallKeeps(s, loaded, thrown);
    case UpdaterError(failure) => FailKeeps(s, failure);
  }

  lemma StepKeeps(s: State, a: Action)
    requires Inv(s) && Enabled(s, a)
    ensures Inv(Step(s, a)) && (s.current.phase == Ready ==> Step(s, a).current.phase == Ready)
  {
    StepFrozen(s, a);
    if Loud(a) {
      LoudShown(s, a);
      LoudKeeps(s, a);
    } else {
      StepQuiet(s, a);
      QuietKeeps(s, Step(s, a));
    }
  }

  lemma {:induction false} RunKeeps(s: State, acts: seq<Action>)
    requires Inv(s) && IsRun(s, acts)
    ensures Inv(After(s, acts))
    ensures s.current.phase == Ready ==> After(s, acts).current.phase == Ready
    decreases |acts|
  {
    if acts != [] {
      StepKeeps(s, acts[0]);
      RunKeeps(Step(s, acts[0]), acts[1..]);
    }
  }

  // ---- what each event and continuation brings about ----

  /** No download is under way and none is done. */
  predicate Undecided(phase: Phase) {
    phase == Idle || phase == Checking || phase == Available || phase == Failing
  }

  /** `k` is the percentage shown for `percent`: the nearest whole number between 0 and 100, halves up. */
  predicate Rounds(percent: real, k: int) {
    && 0 <= k <= 100
    && (percent < -0.5 ==> k == 0) && (percent >= 99.5 ==> k == 100)
    && (-0.5 <= percent < 99.5 ==> k as real - 0.5 <= percent < k as real + 0.5)
  }

  /** What a failed check, download or load shows where no update is ready. */
  function FailureShown(phase: Phase, failure: Failure, requested: bool): (Phase, Option<string>) {
    match failure
    case NoReleases =>
      if phase == Checking then (Unsupported, Some(NONE_PUBLISHED))
      else (Failing, Some(TRY_LATER))
    case Offline => (Idle, if requested then Some(UNREACHABLE) else None)
    case Signature => (Failing, Some(UNVERIFIED))
    case Other => (Failing, Some(TRY_LATER))
  }

  /** A failure outside an install: a ready update stays as it is, anything else shows the failure now. */
  predicate AnswersFailure(s: State, failure: Failure, s': State) {
    var shown := FailureShown(s.current.phase, failure, s.checkWasRequested);
    if s.current.phase == Ready || s.current.phase == Unsupported then s'.current == s.current
    else
      && s'.current.phase == shown.0 && s'.current.message == shown.1
      && s'.current.percent == None && s'.current.checkedAt == Some(s.now)
      && s'.current.version == (if shown.0 == Unsupported then None else s.current.version)
      && !s'.checkWasRequested
  }

  /** An offer replaces what is shown, and starts its download, unless one is under way or done. */
  predicate AnswersOffer(s: State, payload: Option<string>, s': State) {
    if payload.None? || !Usable(payload.value) then AnswersFailure(s, Other, s') && s'.downloading == s.downloading
    else if !Undecided(s.current.phase) then s'.current == s.current
    else
      && s'.current == UpdateState(Available, payload, None, None, Some(s.now))
      && s'.downloading == (if s.downloading == NoTask then Loading(false) else s.downloading)
  }

  predicate AnswersDownloaded(s: State, payload: Option<string>, s': State) {
    if payload.None? || !Usable(payload.value) then AnswersFailure(s, Other, s')
    else
      && !s'.checkWasRequested
      && s'.current == (if s.current.phase == Unsupported then s.current
                        else UpdateState(Ready, payload, Some(100), None, s.current.checkedAt))
  }

  predicate AnswersProgress(s: State, percent: Option<real>, s': State) {
    var u, u' := s.current, s'.current;
    if percent.None? || (u.phase != Available && u.phase != Downloading) then u' == u
    else
      && u'.percent.Some? && Rounds(percent.value, u'.percent.value)
      && u' == UpdateState(Downloading, u.version, u'.percent, u.message, u.checkedAt)
  }

  /** An error during an install ends that install, with a message, and leaves the update ready. */
  predicate AnswersError(s: State, failure: Failure, s': State) {
    if !s.installStarted then AnswersFailure(s, failure, s')
    else
      && !s'.installStarted
      && (s.current.phase == Ready ==> s'.current.message.Some? && s'.current == s.current.(message := s'.current.message))
  }

  predicate Throttles(s: State) {
    0 < s.lastCheck && s.now < s.lastCheck + 60_000
  }

  /** A call joins a check under way; otherwise one begins from idle or after an error unless the last was
      less than a minute ago, and, asked for by hand, from an empty feed. */
  predicate AnswersCheckCall(s: State, userInitiated: bool, s': State) {
    var u, u' := s.current, s'.current;
    && s'.checkWasRequested == (s.checkWasRequested || userInitiated)
    && if s.checking != NoTask then s'.checking == s.checking && u' == u
       else if (u.phase == Idle || u.phase == Failing) && !Throttles(s) then
         s'.checking == Loading(s'.checkWasRequested) && u' == u
       else if u.phase == Unsupported && s.supported && s'.checkWasRequested then
         s'.checking == Loading(true) && u' == UpdateState(Idle, None, None, None, u.checkedAt) && s'.lastCheck == 0
       else s'.checking == Ending && u' == u
  }

  predicate AnswersCheckLoad(s: State, loaded: bool, s': State) {
    && s'.current == s.current
    && (loaded && (s.current.phase == Idle || s.current.phase == Failing) && !Throttles(s) ==>
          s'.checking == Asking && s'.log == s.log + [Feed(s.now)] && s'.lastCheck == s.now)
    && (!loaded || Throttles(s) ==> s'.checking == Ending || s.current.phase == Unsupported)
  }

  predicate AnswersDownloadLoad(s: State, loaded: bool, s': State) {
    if loaded && s.current.phase == Available then
      s'.downloading == Asking
      && s'.current == UpdateState(Downloading, s.current.version, Some(0), None, s.current.checkedAt)
    else s'.downloading == Ending && s'.current == s.current
  }

  predicate AnswersInstallLoad(s: State, loaded: bool, thrown: Option<Failure>, s': State) {
    if !loaded || s.current.phase != Ready || s.installStarted then s'.log == s.log && s'.current == s.current
    else
      && s'.current.phase == Ready && s'.current.version == s.current.version
      && if thrown.None? then s'.installStarted && s'.log == s.log + [Install] && s'.current.message == None
         else !s'.installStarted && s'.log == s.log + [Install, InstallFailed] && s'.current.message.Some?
  }

  /** What the renderer and the updater see of each step. */
  predicate Answers(s: State, a: Action, s': State) {
    var u, u' := s.current, s'.current;
    match a
    case CheckingForUpdate =>
      u' == (if u.phase == Idle || u.phase == Checking || u.phase == Failing
             then UpdateState(Checking, u.version, None, None, u.checkedAt) else u)
    case UpdateAvailable(payload) => AnswersOffer(s, payload, s')
    case UpdateNotAvailable =>
      && u' == (if Undecided(u.phase) then UpdateState(Idle, None, None, None, Some(s.now)) else u)
      && !s'.checkWasRequested
    case DownloadProgress(percent) => AnswersProgress(s, percent, s')
    case UpdateDownloaded(payload) => AnswersDownloaded(s, payload, s')
    case LoadFailed(failure) => AnswersFailure(s, failure, s')
    case UpdaterError(failure) => AnswersError(s, failure, s')
    case CheckCalled(userInitiated) => AnswersCheckCall(s, userInitiated, s')
    case CheckLoaded(loaded) => AnswersCheckLoad(s, loaded, s')
    case CheckEnded(rejected) =>
      && s'.checking == Ending
      && if rejected.Some? && (u.phase == Idle || u.phase == Checking) then AnswersFailure(s, rejected.value, s') else u' == u
    case DownloadCalled => s.downloading == NoTask && u.phase == Available ==> s'.downloading == Loading(false)
    case DownloadLoaded(loaded) => AnswersDownloadLoad(s, loaded, s')
    case DownloadEnded(rejected) =>
      && s'.downloading == Ending
      && if rejected.Some? && u.phase == Downloading then AnswersFailure(s, rejected.value, s') else u' == u
    case InstallCalled => s'.installs == (if u.phase == Ready && !s.installStarted then s.installs + 1 else s.installs)
    case InstallLoaded(loaded, thrown) => AnswersInstallLoad(s, loaded, thrown, s')
    case CheckCleared => s' == s.(checking := NoTask)
    case DownloadCleared => s' == s.(downloading := NoTask)
    case Tick(now) => s' == s.(now := now)
  }

  lemma FailureAnswered(s: State, failure: Failure)
    ensures AnswersFailure(s, failure, Push(s, Failed(failure, s.checkWasRequested, false)))
  {
  }

  lemma OfferAnswered(s: State, payload: Option<string>)
    ensures AnswersOffer(s, payload, Step(s, UpdateAvailable(payload)))
  {
    FailureAnswered(s, Other);
  }

  lemma DownloadedAnswered(s: State, payload: Option<string>)
    ensures AnswersDownloaded(s, payload, Step(s, UpdateDownloaded(payload)))
  {
    FailureAnswered(s, Other);
  }

  lemma ProgressAnswered(s: State, percent: Option<real>)
    ensures AnswersProgress(s, percent, Step(s, DownloadProgress(percent)))
  {
  }

  lemma ErrorAnswered(s: State, failure: Failure)
    ensures AnswersError(s, failure, Fail(s, failure))
  {
    if !s.installStarted { FailureAnswered(s, failure); }
  }

  lemma CheckCallAnswered(s: State, userInitiated: bool)
    ensures AnswersCheckCall(s, userInitiated, Check(s, userInitiated))
  {
  }

  lemma CheckEndAnswered(s: State, rejected: Option<Failure>)
    requires s.checking.Asking?
    ensures Answers(s, CheckEnded(rejected), EndCheck(s, rejected))
  {
    if rejected.Some? { FailureAnswered(s, rejected.value); }
  }

  lemma DownloadEndAnswered(s: State, rejected: Option<Failure>)
    requires s.downloading.Asking?
    ensures Answers(s, DownloadEnded(rejected), EndDownload(s, rejected))
  {
    if rejected.Some? { FailureAnswered(s, rejected.value); }
  }

  lemma InstallAnswered(s: State, loaded: bool, thrown: Option<Failure>)
    requires s.installs > 0
    ensures AnswersInstallLoad(s, loaded, thrown, ResumeInstall(s, loaded, thrown))
  {
    assert s.log + [Install] + [InstallFailed] == s.log + [Install, InstallFailed];
  }

  /** Every step does what its event or continuation is for. */
  lemma StepAnswers(s: State, a: Action)
    requires Enabled(s, a)
    ensures Answers(s, a, Step(s, a))
  {
    match a
    case UpdateAvailable(payload) => OfferAnswered(s, payload);
    case DownloadProgress(percent) => ProgressAnswered(s, percent);
    case UpdateDownloaded(payload) => DownloadedAnswered(s, payload);
    case LoadFailed(failure) => FailureAnswered(s, failure);
    case UpdaterError(failure) => ErrorAnswered(s, failure);
    case CheckCalled(userInitiated) => CheckCallAnswered(s, userInitiated);
    case CheckEnded(rejected) => CheckEndAnswered(s, rejected);
    case DownloadEnded(rejected) => DownloadEndAnswered(s, rejected);
    case InstallLoaded(loaded, thrown) => InstallAnswered(s, loaded, thrown);
    case _ => OtherAnswered(s, a);
  }

  lemma OtherAnswered(s: State, a: Action)
    requires Enabled(s, a)
    requires a.Tick? || a.CheckLoaded? || a.CheckCleared? || a.DownloadCalled? || a.DownloadLoaded? || a.DownloadCleared?
             || a.InstallCalled? || a.CheckingForUpdate? || a.UpdateNotAvailable?
    ensures Answers(s, a, Step(s, a))
  {
  }

  lemma Unroll(s: State, a: Action, acts: seq<Action>)
    requires Enabled(s, a) && IsRun(Step(s, a), acts)
    ensures IsRun(s, [a] + acts) && After(s, [a] + acts) == After(Step(s, a), acts)
  {
    assert ([a] + acts)[1..] == acts;
  }

  /** The whole way: a check finds a version, it is downloaded, and installing it asks the updater to. */
  lemma CheckToInstall(version: string, now: nat)
    requires now > 0 && Usable(version)
    ensures var s, acts := Initial(true, "", now), CHECKED + OfferedAndDownloaded(version) + INSTALLED;
      && IsRun(s, acts)
      && var e := After(s, acts);
      && e.current == UpdateState(Ready, Some(version), Some(100), None, Some(now))
      && e.installStarted && e.log == [Feed(now), Install]
  {
    var s := Initial(true, "", now);
    var s1 := Checked(s);
    var s2 := Fetched(s1, version);
    Unroll(Step(s2, InstallCalled), InstallLoaded(true, None), []);
    Unroll(s2, InstallCalled, [InstallLoaded(true, None)]);
    RunsConcat(s1, OfferedAndDownloaded(version), INSTALLED);
    RunsConcat(s, CHECKED, OfferedAndDownloaded(version) + INSTALLED);
    assert CHECKED + OfferedAndDownloaded(version) + INSTALLED == CHECKED + (OfferedAndDownloaded(version) + INSTALLED);
  }

  const CHECKED := [CheckCalled(false), CheckLoaded(true), CheckingForUpdate]
  const INSTALLED := [InstallCalled, InstallLoaded(true, None)]

  function OfferedAndDownloaded(version: string): seq<Action> {
    [UpdateAvailable(Some(version)), DownloadLoaded(true), DownloadProgress(Some(60.4)), UpdateDownloaded(Some(version))]
  }

  lemma Checked(s: State) returns (s': State)
    requires s.now > 0 && s == Initial(true, "", s.now)
    ensures IsRun(s, CHECKED) && s' == After(s, CHECKED) && s'.now == s.now
    ensures s'.current == UpdateState(Checking, None, None, None, None) && s'.downloading == NoTask
    ensures s'.log == [Feed(s.now)] && s'.installs == 0 && !s'.installStarted
  {
    var s1 := Step(s, CheckCalled(false));
    var s2 := Step(s1, CheckLoaded(true));
    s' := Step(s2, CheckingForUpdate);
    Unroll(s2, CheckingForUpdate, []);
    Unroll(s1, CheckLoaded(true), [CheckingForUpdate]);
    Unroll(s, CheckCalled(false), [CheckLoaded(true), CheckingForUpdate]);
  }

  lemma Fetched(s: State, version: string) returns (s': State)
    requires s.current == UpdateState(Checking, None, None, None, None) && s.downloading == NoTask && Usable(version)
    ensures IsRun(s, OfferedAndDownloaded(version)) && s' == After(s, OfferedAndDownloaded(version))
    ensures s'.current == UpdateState(Ready, Some(version), Some(100), None, Some(s.now))
    ensures s'.log == s.log && s'.installs == s.installs && s'.installStarted == s.installStarted
  {
    var s1 := Step(s, UpdateAvailable(Some(version)));
    var s2 := Step(s1, DownloadLoaded(true));
    s' := Finished(s2, version);
    Unroll(s1, DownloadLoaded(true), [DownloadProgress(Some(60.4)), UpdateDownloaded(Some(version))]);
    Unroll(s, UpdateAvailable(Some(version)), [DownloadLoaded(true), DownloadProgress(Some(60.4)), UpdateDownloaded(Some(version))]);
  }

  /** 60.4 shows as 60, and then the download is done. */
  lemma Finished(s: State, version: string) returns (s': State)
    requires s.current.phase == Downloading && Usable(version)
    ensures var acts := [DownloadProgress(Some(60.4)), UpdateDownloaded(Some(version))];
      IsRun(s, acts) && s' == After(s, acts)
    ensures Step(s, DownloadProgress(Some(60.4))).current.percent == Some(60)
    ensures s'.current == UpdateState(Ready, Some(version), Some(100), None, s.current.checkedAt)
    ensures s'.log == s.log && s'.installs == s.installs && s'.installStarted == s.installStarted
  {
    var s1 := Step(s, DownloadProgress(Some(60.4)));
    s' := Step(s1, UpdateDownloaded(Some(version)));
    Unroll(s1, UpdateDownloaded(Some(version)), []);
    Unroll(s, DownloadProgress(Some(60.4)), [UpdateDownloaded(Some(version))]);
  }

  lemma {:induction false} RunsConcat(s: State, a: seq<Action>, b: seq<Action>)
    requires IsRun(s, a) && IsRun(After(s, a), b)
    ensures IsRun(s, a + b) && After(s, a + b) == After(After(s, a), b)
    decreases |a|
  {
    if a == [] {
      assert a + b == b;
    } else {
      assert (a + b)[0] == a[0] && (a + b)[1..] == a[1..] + b;
      RunsConcat(Step(s, a[0]), a[1..], b);
    }
  }

  // ---- the promises ----

  /** Over every run: what is shown is well formed; feed checks keep their distance unless checking was
      thawed in between; a thaw comes only after the feed was found empty and, after that, somebody asked
      for a check by hand; and no install starts while one is under way. */
  lemma EveryRun(supported: bool, reason: string, now: nat, acts: seq<Action>)
    requires now > 0 && IsRun(Initial(supported, reason, now), acts)
    ensures var s := After(Initial(supported, reason, now), acts);
      Shown(s.current) && Spaced(s.log) && ThawedByHand(s.log) && Alternating(s.log)
  {
    RunKeeps(Initial(supported, reason, now), acts);
  }

  /** Two feed checks closer than the interval: in between checking was thawed, and before that thaw,
      since the one before it, the feed was found empty and then a check was asked for by hand. */
  lemma CloseChecks(supported: bool, reason: string, now: nat, acts: seq<Action>, i: nat, j: nat)
    returns (empty: nat, asked: nat, thaw: nat)
    requires now > 0 && IsRun(Initial(supported, reason, now), acts)
    requires var log := After(Initial(supported, reason, now), acts).log;
      i < j < |log| && log[i].Feed? && log[j].Feed? && log[j].at - log[i].at < MIN_CHECK_INTERVAL_MS
    ensures var log := After(Initial(supported, reason, now), acts).log;
      && empty < asked < thaw && i < thaw < j
      && log[empty] == Emptied && log[asked] == Asked && log[thaw] == Thawed && Thawed !in log[empty..thaw]
  {
    EveryRun(supported, reason, now, acts);
    var log := After(Initial(supported, reason, now), acts).log;
    var k :| 0 <= k < |log[i..j]| && log[i..j][k] == Thawed;
    thaw := i + k;
    assert log[thaw] == Thawed;
    empty, asked := AskedForMeans(log[..thaw]);
    assert log[..thaw][empty..] == log[empty..thaw];
  }

  /** A verified download is never taken back. */
  lemma ReadyStays(supported: bool, reason: string, now: nat, acts: seq<Action>, more: seq<Action>)
    requires now > 0 && IsRun(Initial(supported, reason, now), acts)
    requires var s := After(Initial(supported, reason, now), acts); s.current.phase == Ready && IsRun(s, more)
    ensures var u := After(After(Initial(supported, reason, now), acts), more).current;
      u.phase == Ready && u.version.Some? && Usable(u.version.value) && u.percent == Some(100)
  {
    RunKeeps(Initial(supported, reason, now), acts);
    RunKeeps(After(Initial(supported, reason, now), acts), more);
  }

  /** A build that cannot update never asks the feed. */
  lemma {:induction false} UnsupportedStaysQuiet(s: State, acts: seq<Action>)
    requires !s.supported && s.current.phase == Unsupported && !s.checking.Loading? && IsRun(s, acts)
    requires s.installs == 0 && !s.installStarted && (forall m <- s.log :: m == Asked)
    ensures After(s, acts).current == s.current && (forall m <- After(s, acts).log :: m == Asked)
    decreases |acts|
  {
    if acts != [] {
      UnsupportedStaysQuiet(Step(s, acts[0]), acts[1..]);
    }
  }
}

/** The controller's fields and the code between its awaits. */
module AutoUpdateController {
  import opened Wrappers
  import opened AutoUpdate

  class DesktopUpdateController {
    const supported: bool
    var now: nat
    var current: UpdateState
    var lastCheck: nat
    var checkWasRequested: bool
    var checking: Task
    var downloading: Task
    var installs: nat
    var installStarted: bool
    ghost var log: seq<Mark>

    ghost function View(): State
      reads this
    {
      State(supported, now, current, lastCheck, checkWasRequested, checking, downloading, installs, installStarted, log)
    }

    constructor (supported: bool, reason: string, now: nat)
      requires now > 0
      ensures View() == Initial(supported, reason, now) && Inv(View())
    {
      this.supported := supported;
      this.now := now;
      current := UpdateState(if supported then Idle else Unsupported, None, None, if supported then None else Some(reason), None);
      lastCheck, checkWasRequested, checking, downloading := 0, false, NoTask, NoTask;
      installs, installStarted, log := 0, false, [];
    }

    method PushEvent(event: UpdaterEvent)
      modifies this`current, this`checkWasRequested, this`log
      ensures View() == Push(old(View()), event)
    {
      var before := current.phase;
      current := Reduce(current, event, now);
      if current.phase == Unsupported && before != Unsupported { log := log + [Emptied]; }
      if event.NotAvailable? || event.Downloaded? || event.Failed? { checkWasRequested := false; }
    }

    method OnError(failure: Failure)
      requires Inv(View())
      modifies this
      ensures View() == Step(old(View()), UpdaterError(failure)) && Inv(View())
      ensures Answers(old(View()), UpdaterError(failure), View())
    {
      StepKeeps(View(), UpdaterError(failure));
      StepAnswers(View(), UpdaterError(failure));
      ReportFailure(failure);
    }

    method ReportFailure(failure: Failure)
      modifies this
      ensures View() == Fail(old(View()), failure)
    {
      var installFailed := installStarted;
      if installFailed { installStarted := false; }
      PushEvent(Failed(failure, checkWasRequested || installFailed, installFailed));
      if installFailed { log := log + [InstallFailed]; }
    }

    method StartDownload()
      modifies this`downloading
      ensures View() == Download(old(View()))
    {
      if downloading != NoTask { return; }
      downloading := if current.phase == Available then Loading(false) else Ending;
    }

    method OnUpdateAvailable(payload: Option<string>)
      requires Inv(View())
      modifies this
      ensures View() == Step(old(View()), UpdateAvailable(payload)) && Inv(View())
      ensures Answers(old(View()), UpdateAvailable(payload), View())
    {
      StepKeeps(View(), UpdateAvailable(payload));
      StepAnswers(View(), UpdateAvailable(payload));
      var version := VersionFrom(payload);
      if version.None? {
        PushEvent(Failed(Other, checkWasRequested, false));
        return;
      }
      PushEvent(Offered(version.value));
      StartDownload();
    }

    method OnUpdateDownloaded(payload: Option<string>)
      requires Inv(View())
      modifies this
      ensures View() == Step(old(View()), UpdateDownloaded(payload)) && Inv(View())
      ensures Answers(old(View()), UpdateDownloaded(payload), View())
    {
      StepKeeps(View(), UpdateDownloaded(payload));
      StepAnswers(View(), UpdateDownloaded(payload));
      var version := VersionFrom(payload);
      if version.Some? { PushEvent(Downloaded(version.value)); }
      else { PushEvent(Failed(Other, checkWasRequested, false)); }
    }

    method OnCheckingForUpdate()
      requires Inv(View())
      modifies this
      ensures View() == Step(old(View()), CheckingForUpdate) && Inv(View())
      ensures Answers(old(View()), CheckingForUpdate, View())
    {
      StepKeeps(View(), CheckingForUpdate);
      StepAnswers(View(), CheckingForUpdate);
      PushEvent(CheckStart);
    }

    method OnUpdateNotAvailable()
      requires Inv(View())
      modifies this
      ensures View() == Step(old(View()), UpdateNotAvailable) && Inv(View())
      ensures Answers(old(View()), UpdateNotAvailable, View())
    {
      StepKeeps(View(), UpdateNotAvailable);
      StepAnswers(View(), UpdateNotAvailable);
      PushEvent(NotAvailable);
    }

    method OnDownloadProgress(percent: Option<real>)
      requires Inv(View())
      modifies this
      ensures View() == Step(old(View()), DownloadProgress(percent)) && Inv(View())
      ensures Answers(old(View()), DownloadProgress(percent), View())
    {
      StepKeeps(View(), DownloadProgress(percent));
      StepAnswers(View(), DownloadProgress(percent));
      if percent.Some? { PushEvent(Progress(percent.value)); }
    }

    method OnLoadFailed(failure: Failure)
      requires Inv(View())
      modifies this
      ensures View() == Step(old(View()), LoadFailed(failure)) && Inv(View())
      ensures Answers(old(View()), LoadFailed(failure), View())
    {
      StepKeeps(View(), LoadFailed(failure));
      StepAnswers(View(), LoadFailed(failure));
      PushEvent(Failed(failure, checkWasRequested, false));
    }

    method OnInstallCalled()
      requires Inv(View())
      modifies this
      ensures View() == Step(old(View()), InstallCalled) && Inv(View())
      ensures Answers(old(View()), InstallCalled, View())
    {
      StepKeeps(View(), InstallCalled);
      StepAnswers(View(), InstallCalled);
      if !installStarted && current.phase == Ready { installs := installs + 1; }
    }

    method OnDownloadCalled()
      requires Inv(View())
      modifies this
      ensures View() == Step(old(View()), DownloadCalled) && Inv(View())
      ensures Answers(old(View()), DownloadCalled, View())
    {
      StepKeeps(View(), DownloadCalled);
      StepAnswers(View(), DownloadCalled);
      StartDownload();
    }

    /** check(), up to the first await of runCheck(). */
    method CheckForUpdate(userInitiated: bool)
      requires Inv(View())
      modifies this
      ensures View() == Step(old(View()), CheckCalled(userInitiated)) && Inv(View())
      ensures Answers(old(View()), CheckCalled(userInitiated), View())
    {
      StepKeeps(View(), CheckCalled(userInitiated));
      StepAnswers(View(), CheckCalled(userInitiated));
      BeginCheck(userInitiated);
    }

    method BeginCheck(userInitiated: bool)
      modifies this
      ensures View() == Check(old(View()), userInitiated)
    {
      if userInitiated {
        checkWasRequested := true;
        log := log + [Asked];
      }
      if checking != NoTask { return; }
      if !ShouldCheck(current, now, lastCheck, checkWasRequested, supported) {
        checking := Ending;
        return;
      }
      checking := Loading(checkWasRequested);
      if current.phase == Unsupported && supported {
        current := current.(phase := Idle, version := None, percent := None, message := None);
        lastCheck := 0;
        log := log + [Thawed];
      }
    }

    /** runCheck() after the updater loaded: ask the feed unless something else happened meanwhile. */
    method OnCheckLoaded(loaded: bool)
      requires Inv(View()) && checking.Loading?
      modifies this
      ensures View() == Step(old(View()), CheckLoaded(loaded)) && Inv(View())
      ensures Answers(old(View()), CheckLoaded(loaded), View())
    {
      StepKeeps(View(), CheckLoaded(loaded));
      StepAnswers(View(), CheckLoaded(loaded));
      if !loaded || !ShouldCheck(current, now, lastCheck, checking.userInitiated, supported) {
        checking := Ending;
        return;
      }
      lastCheck := now;
      checking := Asking;
      log := log + [Feed(now)];
    }

    method OnCheckEnded(rejected: Option<Failure>)
      requires Inv(View()) && checking.Asking?
      modifies this
      ensures View() == Step(old(View()), CheckEnded(rejected)) && Inv(View())
      ensures Answers(old(View()), CheckEnded(rejected), View())
    {
      StepKeeps(View(), CheckEnded(rejected));
      StepAnswers(View(), CheckEnded(rejected));
      if rejected.Some? && (current.phase == Idle || current.phase == Checking) {
        PushEvent(Failed(rejected.value, checkWasRequested, false));
      }
      checking := Ending;
    }

    method OnDownloadLoaded(loaded: bool)
      requires Inv(View()) && downloading.Loading?
      modifies this
      ensures View() == Step(old(View()), DownloadLoaded(loaded)) && Inv(View())
      ensures Answers(old(View()), DownloadLoaded(loaded), View())
    {
      StepKeeps(View(), DownloadLoaded(loaded));
      StepAnswers(View(), DownloadLoaded(loaded));
      if !loaded || current.phase != Available {
        downloading := Ending;
        return;
      }
      PushEvent(DownloadStart);
      downloading := Asking;
    }

    method OnDownloadEnded(rejected: Option<Failure>)
      requires Inv(View()) && downloading.Asking?
      modifies this
      ensures View() == Step(old(View()), DownloadEnded(rejected)) && Inv(View())
      ensures Answers(old(View()), DownloadEnded(rejected), View())
    {
      StepKeeps(View(), DownloadEnded(rejected));
      StepAnswers(View(), DownloadEnded(rejected));
      if rejected.Some? && current.phase == Downloading { PushEvent(Failed(rejected.value, checkWasRequested, false)); }
      downloading := Ending;
    }

    /** install() after the updater loaded; `thrown` is what quitAndInstall() threw, if it did. */
    method OnInstallLoaded(loaded: bool, thrown: Option<Failure>)
      requires Inv(View()) && installs > 0
      modifies this
      ensures View() == Step(old(View()), InstallLoaded(loaded, thrown)) && Inv(View())
      ensures Answers(old(View()), InstallLoaded(loaded, thrown), View())
    {
      StepKeeps(View(), InstallLoaded(loaded, thrown));
      StepAnswers(View(), InstallLoaded(loaded, thrown));
      GoOnInstalling(loaded, thrown);
    }

    method GoOnInstalling(loaded: bool, thrown: Option<Failure>)
      requires installs > 0
      modifies this
      ensures View() == ResumeInstall(old(View()), loaded, thrown)
    {
      installs := installs - 1;
      if !loaded || installStarted || current.phase != Ready { return; }
      installStarted := true;
      current := current.(message := None);
      log := log + [Install];
      if thrown.Some? { ReportFailure(thrown.value); }
    }
  }
}
