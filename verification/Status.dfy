/** The persisted App status (api/v1alpha1/app_types.go) and its conditions and derived phase
    (internal/controller/app_controller.go). Times are abstract integers. */
module Status {
  import opened Util
  import P = Pipeline
  import Storage

  datatype BuildPhase = NoBuildPhase | BuildPending | BuildRunning | BuildComplete
  datatype BuildResult = NoResult | ResultSucceeded | ResultFailed | ResultAborted
  datatype Trigger = NoTrigger | Scheduled | Manual | Commit | SpecChange

  datatype Termination = Termination(
    reason: string,
    container: P.Step,
    exitCode: int,
    memoryLimit: string,
    finishedAt: Option<int>)

  datatype BuildStatus = BuildStatus(
    phase: BuildPhase,
    result: BuildResult,
    jobName: string,
    podName: string,
    startTime: Option<int>,
    completionTime: Option<int>,
    attempts: nat,
    trigger: Trigger,
    triggeredBy: string,
    commit: string,
    steps: seq<P.BuildStep>,
    failedStep: Option<P.Step>,
    message: string,
    logsRef: string,
    termination: Option<Termination>,
    images: map<P.Step, string>)

  const NO_BUILD := BuildStatus(
    NoBuildPhase, NoResult, "", "", None, None, 0, NoTrigger, "", "", [], None, "", "", None, map[])

  /** A build observed to its end. */
  predicate Terminal(b: BuildStatus) {
    b.phase == BuildComplete && (b.result == ResultSucceeded || b.result == ResultFailed)
  }

  datatype CondType = Ready | BuildSucceeded | Degraded
  datatype Condition = Condition(ctype: CondType, isTrue: bool, reason: string, message: string, since: int)

  datatype AppPhase = NoAppPhase | AwaitingFirstBuild | Building | AppReady | AppDegraded

  datatype CleanupMode = CacheMode | ReleasesMode
  datatype CleanupPhase = NoCleanupPhase | CleanupPending | CleanupRunning | CleanupSucceeded | CleanupFailed

  /** Decoded termination message of a cleanup container. */
  datatype CleanupResult = CleanupResult(action: string, before: int, after: int, reclaimed: int, kept: int,
      deleted: int)

  /** status.cleanup.<action>.message before it is rendered as text. */
  datatype CleanupMessage = NoMessage | Completed | Summary(result: CleanupResult) | FailedWith(text: string)

  datatype CleanupAction = CleanupAction(
    requestedAt: string,
    requestedBy: string,
    phase: CleanupPhase,
    startedAt: Option<int>,
    completedAt: Option<int>,
    reclaimed: int,
    message: CleanupMessage)

  const NO_CLEANUP := CleanupAction("", "", NoCleanupPhase, None, None, 0, NoMessage)

  datatype StorageStatus = StorageStatus(
    measuredAt: Option<int>,
    sizes: map<string, int>,
    deltas: map<string, int>,
    threshold: Storage.ThresholdState,
    releaseCount: int)

  datatype Release = Release(current: string, previous: string)

  datatype ManualTrigger = ManualTrigger(user: string, at: int)

  datatype AppStatus = AppStatus(
    phase: AppPhase,
    conditions: seq<Condition>,
    specStale: bool,
    build: BuildStatus,
    failureStreak: nat,
    history: seq<BuildStatus>,
    failedHistory: seq<BuildStatus>,
    lastProcessed: string,
    lastBuiltHash: string,
    lastBuild: Option<int>,
    lastManual: Option<ManualTrigger>,
    lastSuccess: Option<int>,
    release: Release,
    servingSince: Option<int>,
    storage: StorageStatus,
    cache: CleanupAction,
    releases: CleanupAction)

  const NEW_STATUS := AppStatus(
    NoAppPhase, [], false, NO_BUILD, 0, [], [], "", "", None, None, None, Release("", ""), None,
    StorageStatus(None, map[], map[], Storage.Unmeasured, 0), NO_CLEANUP, NO_CLEANUP)

  function Action(st: AppStatus, mode: CleanupMode): CleanupAction {
    if mode == CacheMode then st.cache else st.releases
  }

  function WithAction(st: AppStatus, mode: CleanupMode, a: CleanupAction): AppStatus {
    if mode == CacheMode then st.(cache := a) else st.(releases := a)
  }

  // ---- conditions ----

  /** Index of the first condition of a type, else the length. */
  function CondIndex(conds: seq<Condition>, t: CondType): (i: nat)
    ensures i <= |conds|
    ensures i < |conds| ==> conds[i].ctype == t
    ensures forall k :: 0 <= k < i ==> conds[k].ctype != t
  {
    if conds == [] || conds[0].ctype == t then 0 else 1 + CondIndex(conds[1..], t)
  }

  predicate Holds(conds: seq<Condition>, t: CondType) {
    var i := CondIndex(conds, t);
    i < |conds| && conds[i].isTrue
  }

  /** The first condition of a type. */
  function Cond(conds: seq<Condition>, t: CondType): Option<Condition> {
    var i := CondIndex(conds, t);
    if i < |conds| then Some(conds[i]) else None
  }

  /** The condition carries this reason and message. */
  predicate Says(conds: seq<Condition>, t: CondType, reason: string, message: string) {
    var c := Cond(conds, t);
    c.Some? && c.value.reason == reason && c.value.message == message
  }

  /** `setCondition`: replace in place or append; the transition time moves only when status
      or reason changes. */
  function SetCond(conds: seq<Condition>, t: CondType, isTrue: bool, reason: string, message: string,
      now: int): seq<Condition> {
    var i := CondIndex(conds, t);
    if i < |conds| then
      var same := conds[i].isTrue == isTrue && conds[i].reason == reason;
      conds[i := Condition(t, isTrue, reason, message, if same then conds[i].since else now)]
    else conds + [Condition(t, isTrue, reason, message, now)]
  }

  ghost predicate UniqueTypes(conds: seq<Condition>) {
    forall i, j :: 0 <= i < j < |conds| ==> conds[i].ctype != conds[j].ctype
  }

  lemma CondIndexIs(conds: seq<Condition>, t: CondType, i: nat)
    requires i <= |conds| && (i < |conds| ==> conds[i].ctype == t)
    requires forall k :: 0 <= k < i ==> conds[k].ctype != t
    ensures CondIndex(conds, t) == i
  {}

  /** Setting one condition gives it the new value, reason and message, and the time of the change
      unless value and reason are as before; it leaves every other type alone and keeps types
      unique. */
  lemma SetCondEffect(conds: seq<Condition>, t: CondType, isTrue: bool, reason: string, message: string, now: int)
    ensures var c, was := SetCond(conds, t, isTrue, reason, message, now), Cond(conds, t);
            && Holds(c, t) == isTrue
            && (var kept := was.Some? && was.value.isTrue == isTrue && was.value.reason == reason;
                Cond(c, t) == Some(Condition(t, isTrue, reason, message, if kept then was.value.since else now)))
            && (forall u :: u != t ==> Holds(c, u) == Holds(conds, u) && Cond(c, u) == Cond(conds, u))
            && (UniqueTypes(conds) ==> UniqueTypes(c))
  {
    var c := SetCond(conds, t, isTrue, reason, message, now);
    var i := CondIndex(conds, t);
    CondIndexIs(c, t, i);
    forall u | u != t
      ensures Holds(c, u) == Holds(conds, u) && Cond(c, u) == Cond(conds, u)
    {
      var j := CondIndex(conds, u);
      CondIndexIs(c, u, if j < |conds| then j else |c|);
    }
  }

  /** Repeating a setting changes nothing, whatever the clock says. */
  lemma SetCondIdempotent(conds: seq<Condition>, t: CondType, isTrue: bool, reason: string, message: string,
      now: int, later: int)
    ensures var c := SetCond(conds, t, isTrue, reason, message, now);
            SetCond(c, t, isTrue, reason, message, later) == c
  {
    var c := SetCond(conds, t, isTrue, reason, message, now);
    CondIndexIs(c, t, CondIndex(conds, t));
  }

  // ---- derived phase ----

  predicate HasSucceededOnce(st: AppStatus) { st.lastSuccess.Some? || st.lastBuiltHash != "" }

  function PhaseOf(st: AppStatus): AppPhase {
    if !HasSucceededOnce(st) && st.build.phase != BuildComplete then
      if st.build.phase == BuildRunning || st.build.phase == BuildPending then Building else AwaitingFirstBuild
    else if Holds(st.conditions, Degraded) then AppDegraded
    else if st.build.phase == BuildRunning then Building
    else AppReady
  }

  /** Each phase in terms of what status holds: whether a build ever succeeded, by time or hash, the
      phase of the build in it, and the Degraded condition. */
  lemma PhaseIff(st: AppStatus)
    ensures var once := st.lastSuccess != None || st.lastBuiltHash != "";
            var ended, bad := once || st.build.phase == BuildComplete, Holds(st.conditions, Degraded);
            && (PhaseOf(st) == AwaitingFirstBuild <==> !once && st.build.phase == NoBuildPhase)
            && (PhaseOf(st) == AppDegraded <==> ended && bad)
            && (PhaseOf(st) == AppReady <==> ended && !bad && st.build.phase != BuildRunning)
            && (PhaseOf(st) == Building <==>
                  || (!ended && st.build.phase != NoBuildPhase)
                  || (ended && !bad && st.build.phase == BuildRunning))
  {}

  function ReadyConditions(conds: seq<Condition>, phase: AppPhase, now: int): seq<Condition> {
    match phase
    case AppReady => SetCond(conds, Ready, true, "Ready", "serving current release", now)
    case Building => SetCond(conds, Ready, false, "Building", "build in progress", now)
    case AwaitingFirstBuild => SetCond(conds, Ready, false, "AwaitingFirstBuild", "awaiting first build", now)
    case _ => conds
  }

  function RefreshPhase(st: AppStatus, now: int): AppStatus {
    var phase := PhaseOf(st);
    st.(phase := phase, conditions := ReadyConditions(st.conditions, phase, now))
  }

  /** Ready holds in phase Ready, does not while a build is awaited or observed, and stays as it is
      otherwise; no other condition is touched. */
  lemma ReadyConditionsEffect(conds: seq<Condition>, phase: AppPhase, now: int)
    ensures var c := ReadyConditions(conds, phase, now);
            && Holds(c, Ready) == (phase == AppReady
                                   || (phase != Building && phase != AwaitingFirstBuild && Holds(conds, Ready)))
            && (phase == AppReady ==> Says(c, Ready, "Ready", "serving current release"))
            && (phase == Building ==> Says(c, Ready, "Building", "build in progress"))
            && (phase == AwaitingFirstBuild ==> Says(c, Ready, "AwaitingFirstBuild", "awaiting first build"))
            && (forall u :: u != Ready ==> Holds(c, u) == Holds(conds, u) && Cond(c, u) == Cond(conds, u))
            && (UniqueTypes(conds) ==> UniqueTypes(c))
  {
    SetCondEffect(conds, Ready, true, "Ready", "serving current release", now);
    SetCondEffect(conds, Ready, false, "Building", "build in progress", now);
    SetCondEffect(conds, Ready, false, "AwaitingFirstBuild", "awaiting first build", now);
  }

  /** What deriving the phase does to the Ready condition. */
  lemma ReadyFollowsPhase(st: AppStatus, now: int)
    ensures var r := RefreshPhase(st, now);
            && r.phase == PhaseOf(st)
            && Holds(r.conditions, Ready) == match PhaseOf(st)
                                             case AppReady => true
                                             case Building => false
                                             case AwaitingFirstBuild => false
                                             case _ => Holds(st.conditions, Ready)
  {
    ReadyConditionsEffect(st.conditions, PhaseOf(st), now);
  }

  /** Deriving the phase is stable: a second derivation changes nothing. */
  lemma RefreshPhaseIdempotent(st: AppStatus, now: int, later: int)
    ensures RefreshPhase(RefreshPhase(st, now), later) == RefreshPhase(st, now)
  {
    var phase := PhaseOf(st);
    ReadyConditionsEffect(st.conditions, phase, now);
    SetCondIdempotent(st.conditions, Ready, true, "Ready", "serving current release", now, later);
    SetCondIdempotent(st.conditions, Ready, false, "Building", "build in progress", now, later);
    SetCondIdempotent(st.conditions, Ready, false, "AwaitingFirstBuild", "awaiting first build", now, later);
  }
}
