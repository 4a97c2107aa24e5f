/** The reconcile protocol: one App over all interleavings of users, Jobs and the operator,
    with history variables, and the invariant every step keeps.

    Assumptions, fixed once: reconciles of one App are serialized and read one snapshot of its
    Jobs; rebuild tokens are fresh (each value is requested at most once); no Job is deleted from
    outside before its result is persisted, except a build Job whose TTL the operator has set. */
module Protocol {
  import opened Util
  import opened Status
  import opened Operator
  import H = History
  import P = Pipeline

  /** A status write: a rejection, or a pass that went through and the phase it showed. */
  datatype Write = Refused | Accepted(phase: AppPhase)

  /** What a build was recorded from: its Job, the live spec, and the request it was started for. */
  datatype Evidence = Evidence(job: BuildJob, spec: AppSpec, request: Annotations)

  /** What happened so far; nothing here is read by the operator. */
  datatype Log = Log(
    used: set<string>,           // rebuild tokens requested so far
    requests: seq<Annotations>,  // what was asked for when status came to name a build, oldest first
    created: seq<string>,        // build Jobs created, oldest first
    expired: set<string>,        // build Jobs the cluster deleted before they were recorded
    recorded: seq<BuildStatus>,  // finished builds that entered persisted status, oldest first
    evidence: seq<Evidence>,     // what they were recorded from
    released: seq<string>,       // releases those builds reported
    releasedBy: seq<string>,     // the Jobs that reported them
    served: Option<string>,      // the build Job that completed last: its release is the one served
    verdicts: seq<bool>,         // persisted rejections (true) and outcomes (true iff failed)
    started: set<nat>,           // cleanup Jobs whose start was persisted
    resulted: set<nat>,          // cleanup Jobs whose result was persisted
    writes: seq<Write>)          // status writes, oldest first

  const EMPTY_LOG := Log({}, [], [], {}, [], [], [], [], None, [], {}, {}, [])
  const NO_REQUEST := Annotations("", "", "", "", "", "", "")

  /** The request of the build in status. */
  function LastRequest(log: Log): Annotations {
    if log.requests == [] then NO_REQUEST else log.requests[|log.requests| - 1]
  }

  datatype World = World(c: Cluster, log: Log)

  datatype Event =
    | Patch(token: string, user: string, commit: string)
    | RequestCleanup(mode: CleanupMode, request: string, requester: string)
    | EditSpec(spec: AppSpec)
    | FinishBuild(job: string, finish: Finish)
    | UpdatePod(job: string, pod: Option<P.Pod>)
    | FinishCleanup(mode: CleanupMode, finish: Finish, result: Option<CleanupResult>)
    | FinishMeasure(volume: Volume, finish: Finish, bytes: Option<nat>)
    | ReapBuild(job: string)
    | ReapCleanup(mode: CleanupMode)
    | ReapMeasure(volume: Volume)
    | Operate(env: Env)

  // ---- classification of one reconcile ----

  /** Validation passed, infrastructure is there and the first token is seeded. */
  predicate Passes(c: Cluster, e: Env) {
    e.rejection.None? && !e.fault.AtInfra? && !NeedsSeed(c)
  }

  predicate Seeds(c: Cluster, e: Env) {
    e.rejection.None? && !e.fault.AtInfra? && NeedsSeed(c)
  }

  /** The pass ends with a successful status write. */
  predicate Persists(c: Cluster, e: Env) { Passes(c, e) && e.fault.NoFault? }

  predicate Rejects(e: Env) { e.rejection.Some? && e.fault.NoFault? }

  function NextJob(c: Cluster): string { BuildJobName(c.name, c.annotations.token) }

  /** The pass gets as far as starting a build, if the decision says so. */
  predicate Launches(c: Cluster, e: Env) {
    Passes(c, e) && !e.fault.AtBuildDecision? && Starts(c)
  }

  predicate Creates(c: Cluster, e: Env) { Launches(c, e) && NextJob(c) !in c.builds }

  /** The pass persists the outcome of a finished build. */
  predicate Recording(c: Cluster, e: Env) {
    Persists(c, e) && Records(AfterBuild(c, e).status, c.builds)
  }

  function RecordedJob(c: Cluster, e: Env): BuildJob
    requires Recording(c, e)
  {
    c.builds[AfterBuild(c, e).status.build.jobName]
  }

  function NewRelease(c: Cluster, e: Env): seq<string>
    requires Recording(c, e)
  {
    if RecordedJob(c, e).finish.JobComplete?
       && CopierReport(RecordedJob(c, e)).Some? && CopierReport(RecordedJob(c, e)).value.release != ""
    then [CopierReport(RecordedJob(c, e)).value.release] else []
  }

  function NewUids(c: Cluster, e: Env): set<nat> {
    set m | m in AfterCleanup(c, e).cleanups
        && AfterCleanup(c, e).cleanups[m].uid >= c.nextUid :: AfterCleanup(c, e).cleanups[m].uid
  }

  function ResultUids(c: Cluster, e: Env): set<nat> {
    set m | m in c.cleanups && ReadsResult(AfterMeasure(c, e).status, c.cleanups, m) :: c.cleanups[m].uid
  }

  // ---- steps ----

  ghost predicate WasRecorded(log: Log, job: string) { !H.NotIn(job, log.recorded) }

  ghost predicate Enabled(w: World, v: Event) {
    match v
    case Patch(token, _, _) => token !in w.log.used
    case RequestCleanup(_, _, _) => true
    case EditSpec(_) => true
    case FinishBuild(job, finish) => job in w.c.builds && w.c.builds[job].finish.Unfinished? && !finish.Unfinished?
    case UpdatePod(job, _) => job in w.c.builds
    case FinishCleanup(mode, finish, _) => mode in w.c.cleanups && w.c.cleanups[mode].finish.Unfinished?
        && !finish.Unfinished?
    case FinishMeasure(volume, finish, _) => volume in w.c.measures && w.c.measures[volume].finish.Unfinished?
        && !finish.Unfinished?
    case ReapBuild(job) => job in w.c.builds && !w.c.builds[job].finish.Unfinished?
        && (WasRecorded(w.log, job) || job in w.c.expiring)
    case ReapCleanup(mode) => mode in w.c.cleanups && !w.c.cleanups[mode].finish.Unfinished?
        && w.c.cleanups[mode].uid in w.log.resulted
    case ReapMeasure(volume) => volume in w.c.measures && !w.c.measures[volume].finish.Unfinished?
    case Operate(e) => Seeds(w.c, e) ==> e.seed != "" && e.seed !in w.log.used
  }

  function Request(a: Annotations, mode: CleanupMode, token: string, user: string): Annotations {
    if mode == CacheMode then a.(cacheToken := token, cacheBy := user)
        else a.(releasesToken := token, releasesBy := user)
  }

  ghost function NextCluster(w: World, v: Event): Cluster
    requires Enabled(w, v)
  {
    var c := w.c;
    match v
    case Patch(token, user, commit) => c.(annotations := c.annotations.(token := token, user := user, commit := commit))
    case RequestCleanup(mode, token, user) => c.(annotations := Request(c.annotations, mode, token, user))
    case EditSpec(spec) => c.(spec := spec)
    case FinishBuild(job, finish) => c.(builds := c.builds[job := c.builds[job].(finish := finish)])
    case UpdatePod(job, pod) => c.(builds := c.builds[job := c.builds[job].(pod := pod)])
    case FinishCleanup(mode, finish, result) =>
      c.(cleanups := c.cleanups[mode := c.cleanups[mode].(finish := finish, result := result)])
    case FinishMeasure(volume, finish, bytes) => c.(measures := c.measures[volume := MeasureJob(finish, bytes)])
    case ReapBuild(job) => c.(builds := c.builds - {job}, expiring := c.expiring - {job})
    case ReapCleanup(mode) => c.(cleanups := c.cleanups - {mode})
    case ReapMeasure(volume) => c.(measures := c.measures - {volume})
    case Operate(e) => Reconcile(c, e)
  }

  function EvidenceOf(w: World, e: Env): Evidence
    requires Recording(w.c, e)
  {
    Evidence(RecordedJob(w.c, e), w.c.spec, if Starts(w.c) then w.c.annotations else LastRequest(w.log))
  }

  ghost function NextLog(w: World, v: Event): Log {
    var log := w.log;
    match v
    case Patch(token, _, _) => log.(used := log.used + {token})
    case FinishBuild(job, finish) => if finish.JobComplete? then log.(served := Some(job)) else log
    case ReapBuild(job) => if WasRecorded(log, job) then log else log.(expired := log.expired + {job})
    case Operate(e) =>
      log.(used := if Seeds(w.c, e) then log.used + {e.seed} else log.used,
        requests := if Persists(w.c, e) && Starts(w.c) then log.requests + [w.c.annotations] else log.requests,
        created := if Creates(w.c, e) then log.created + [NextJob(w.c)] else log.created,
        recorded := if Recording(w.c, e) then log.recorded + [AfterObserve(w.c, e).status.build] else log.recorded,
        evidence := if Recording(w.c, e) then log.evidence + [EvidenceOf(w, e)] else log.evidence,
        released := if Recording(w.c, e) then log.released + NewRelease(w.c, e) else log.released,
        releasedBy := if Recording(w.c, e) && NewRelease(w.c, e) != []
          then log.releasedBy + [AfterObserve(w.c, e).status.build.jobName] else log.releasedBy,
        verdicts := if Rejects(e) then log.verdicts + [true]
          else if Recording(w.c, e) then log.verdicts + [!RecordedJob(w.c, e).finish.JobComplete?]
          else log.verdicts,
        started := if Persists(w.c, e) then log.started + NewUids(w.c, e) else log.started,
        resulted := if Persists(w.c, e) then log.resulted + ResultUids(w.c, e) else log.resulted,
        writes := if Rejects(e) then log.writes + [Refused]
          else if Persists(w.c, e) then log.writes + [Accepted(Reconcile(w.c, e).status.phase)]
          else log.writes)
    case _ => log
  }

  ghost function Next(w: World, v: Event): World
    requires Enabled(w, v)
  {
    World(NextCluster(w, v), NextLog(w, v))
  }

  ghost predicate Initial(w: World) {
    && w.c.status == NEW_STATUS
    && w.c.builds == map[] && w.c.expiring == {} && w.c.cleanups == map[] && w.c.measures == map[]
    && w.log == EMPTY_LOG.(used := if w.c.annotations.token == "" then {} else {w.c.annotations.token})
  }

  ghost predicate IsRun(ws: seq<World>, vs: seq<Event>) {
    && |ws| == |vs| + 1
    && forall k :: 0 <= k < |vs| ==> Enabled(ws[k], vs[k]) && ws[k + 1] == Next(ws[k], vs[k])
  }

  // ---- the invariant ----

  ghost predicate TokenJob(w: World, n: string) {
    exists t :: t in w.log.used && n == BuildJobName(w.c.name, t)
  }

  /** No name twice, except those listed. */
  ghost predicate DistinctBut(s: seq<string>, except: set<string>) {
    forall i, j :: 0 <= i < j < |s| && s[i] == s[j] ==> s[i] in except
  }

  /** Every Job stems from a token and is there, has been recorded or has expired; only one that
      has expired was created again. */
  ghost predicate JobsInv(w: World) {
    && DistinctBut(w.log.created, w.log.expired)
    && H.DistinctJobs(w.log.recorded)
    && (forall n :: n in w.log.created ==>
          TokenJob(w, n) && (n in w.c.builds || WasRecorded(w.log, n) || n in w.log.expired))
    && (forall n :: n in w.c.builds || n in w.log.expired ==> n in w.log.created)
    && (forall i :: 0 <= i < |w.log.recorded| ==> w.log.recorded[i].jobName in w.log.created)
  }

  /** At most one build Job is unfinished, and it is the one in status or about to be. */
  ghost predicate ActiveInv(w: World) {
    && (forall n, m ::
          n in w.c.builds && m in w.c.builds && w.c.builds[n].finish.Unfinished? && w.c.builds[m].finish.Unfinished?
          ==> n == m)
    && (forall n :: n in w.c.builds && w.c.builds[n].finish.Unfinished? ==>
          && !WasRecorded(w.log, n)
          && (n == w.c.status.build.jobName || w.c.status.build.jobName == ""
              || w.c.status.lastProcessed != w.c.annotations.token))
  }

  /** The status names the Job of the last processed token, and is terminal iff recorded. */
  ghost predicate StatusInv(w: World) {
    var st := w.c.status;
    var b := st.build;
    && (b.phase == BuildComplete ==> Terminal(b))
    && (!Terminal(b) ==> b.termination == None)
    && (b.jobName == "" ==>
          && st.lastProcessed == "" && b.phase == NoBuildPhase && w.log.recorded == []
          && BuildJobName(w.c.name, "") !in w.log.created)
    && (b.jobName != "" ==>
          && b.phase != NoBuildPhase
          && st.lastProcessed in w.log.used
          && b.jobName == BuildJobName(w.c.name, st.lastProcessed)
          && b.jobName in w.log.created
          && (Terminal(b) <==> WasRecorded(w.log, b.jobName)))
    && (w.c.annotations.token in w.log.used || (w.c.annotations.token == "" && b.jobName == ""))
    && (WasRecorded(w.log, NextJob(w.c)) ==> st.lastProcessed == w.c.annotations.token)
  }

  function LastTwo(names: seq<string>): Release {
    Release(if |names| > 0 then names[|names| - 1] else "", if |names| > 1 then names[|names| - 2] else "")
  }

  ghost predicate AnySuccess(recorded: seq<BuildStatus>) {
    exists i :: 0 <= i < |recorded| && recorded[i].result == ResultSucceeded
  }

  /** Everything status derives from recorded builds agrees with the log. */
  ghost predicate LedgerInv(w: World) { Ledger(w.c.status, w.log) }

  ghost predicate Ledger(st: AppStatus, log: Log) {
    && st.history <= H.NewestFirst(log.recorded)
    && st.failedHistory <= H.FailedNewestFirst(log.recorded)
    && st.failureStreak == H.Streak(log.recorded)
    && st.release == LastTwo(log.released)
    && (HasSucceededOnce(st) <==> AnySuccess(log.recorded))
    && UniqueTypes(st.conditions)
    && (Holds(st.conditions, Degraded) <==> log.verdicts != [] && log.verdicts[|log.verdicts| - 1])
  }

  ghost predicate CleanupInv(w: World) {
    && (forall m, k :: m in w.c.cleanups && k in w.c.cleanups && m != k ==>
          && w.c.cleanups[m].uid != w.c.cleanups[k].uid
          && !(w.c.cleanups[m].finish.Unfinished? && w.c.cleanups[k].finish.Unfinished?))
    && (forall m :: m in w.c.cleanups ==> w.c.cleanups[m].uid < w.c.nextUid)
    && (forall u :: u in w.log.started ==> u < w.c.nextUid)
    && (forall u :: u in w.log.resulted ==> u < w.c.nextUid)
    && (forall m :: m in w.c.cleanups && ActionEnded(Action(w.c.status, m)) && w.c.cleanups[m].uid in w.log.started ==>
          w.c.cleanups[m].uid in w.log.resulted)
  }

  /** The Ready condition after a sequence of status writes: a rejection clears it, a pass sets it to
      whether it showed Ready, and one that showed Degraded leaves it. */
  function ReadyAfter(writes: seq<Write>): bool {
    if writes == [] then false
    else
      match writes[|writes| - 1]
      case Refused => false
      case Accepted(phase) => phase == AppReady || (phase == AppDegraded && ReadyAfter(writes[..|writes| - 1]))
  }

  /** Phase and Ready on display are what the status writes put there. */
  ghost predicate PhaseInv(w: World) {
    && (Holds(w.c.status.conditions, Ready) <==> ReadyAfter(w.log.writes))
    && if w.log.writes == [] then w.c.status.phase == NoAppPhase
       else match w.log.writes[|w.log.writes| - 1]
         case Refused => w.c.status.phase == AppDegraded
         case Accepted(phase) => w.c.status.phase == phase == PhaseOf(w.c.status)
  }

  /** Only Jobs that completed are ever given a TTL. */
  ghost predicate RetentionInv(w: World) {
    forall n :: n in w.c.expiring ==> n in w.c.builds && w.c.builds[n].finish.JobComplete?
  }

  ghost predicate Inv(w: World) {
    JobsInv(w) && ActiveInv(w) && StatusInv(w) && LedgerInv(w) && CleanupInv(w) && PhaseInv(w) && RetentionInv(w)
  }

  lemma InitialInv(w: World)
    requires Initial(w)
    ensures Inv(w)
  {}

  // ---- frames: which parts of status each stage touches ----

  /** Equality on everything that observing a build may change. */
  predicate SameBuildSide(a: AppStatus, b: AppStatus) {
    && a.build == b.build && a.failureStreak == b.failureStreak && a.history == b.history
    && a.failedHistory == b.failedHistory && a.lastProcessed == b.lastProcessed && a.lastBuiltHash == b.lastBuiltHash
    && a.lastSuccess == b.lastSuccess && a.release == b.release && a.specStale == b.specStale
    && a.lastBuild == b.lastBuild && a.lastManual == b.lastManual && a.servingSince == b.servingSince
  }

  lemma CleanupActFrame(c: Cluster, snap: Cluster, busy: bool, started: bool, mode: CleanupMode, now: int)
    ensures var r := CleanupAct(c, snap, busy, started, mode, now);
            && r == c.(cleanups := r.cleanups, nextUid := r.nextUid, status := r.status)
            && SameBuildSide(r.status, c.status) && r.status.conditions == c.status.conditions
            && r.status.storage == c.status.storage && r.status.phase == c.status.phase
            && (forall m :: m != mode ==> Action(r.status, m) == Action(c.status, m))
  {}

  lemma ObserveCleanupFrame(st: AppStatus, cleanups: map<CleanupMode, CleanupJob>, mode: CleanupMode, now: int)
    ensures var r := ObserveCleanup(st, cleanups, mode, now);
            r == st.(storage := r.storage, cache := r.cache, releases := r.releases)
  {
    hide ReadsResult, CleanupOutcome, CleanupWriteback;
  }

  lemma ObserveFrames(st: AppStatus, measures: map<Volume, MeasureJob>, cleanups: map<CleanupMode, CleanupJob>,
      now: int)
    ensures var m := ObserveMeasurements(st, measures, now); m == st.(storage := m.storage)
    ensures var r := ObserveCleanups(st, cleanups, now);
            r == st.(storage := r.storage, cache := r.cache, releases := r.releases)
  {
    hide RecordSize, ObserveCleanup;
    ObserveCleanupFrame(st, cleanups, CacheMode, now);
    ObserveCleanupFrame(ObserveCleanup(st, cleanups, CacheMode, now), cleanups, ReleasesMode, now);
  }

  /** A stage after build and measurement: only cleanup and storage have moved since. */
  predicate Later(c: Cluster, e: Env, s: Cluster) {
    var o := AfterObserve(c, e);
    && s.name == c.name && s.spec == c.spec && s.annotations == c.annotations
    && s.builds == AfterBuild(c, e).builds && s.measures == o.measures && s.expiring == o.expiring
    && SameBuildSide(s.status, o.status)
  }

  lemma EarlyFrame(c: Cluster, e: Env)
    ensures AfterBuild(c, e) == c.(builds := AfterBuild(c, e).builds, status := AfterBuild(c, e).status)
    ensures AfterObserve(c, e) == AfterBuild(c, e).(
            measures := AfterObserve(c, e).measures, expiring := AfterObserve(c, e).expiring,
            status := AfterObserve(c, e).status)
    ensures AfterMeasure(c, e) == AfterObserve(c, e).(status := AfterMeasure(c, e).status)
    ensures Later(c, e, AfterMeasure(c, e))
        && AfterMeasure(c, e).status.conditions == AfterObserve(c, e).status.conditions
  {
    ObserveFrames(AfterObserve(c, e).status, c.measures, c.cleanups, e.now);
  }

  lemma LateFrame(c: Cluster, e: Env)
    ensures Later(c, e, AfterCacheAction(c, e)) && Later(c, e, AfterCleanup(c, e))
    ensures AfterCleanup(c, e).status.conditions == AfterObserve(c, e).status.conditions
  {
    EarlyFrame(c, e);
    ObserveFrames(AfterMeasure(c, e).status, c.measures, c.cleanups, e.now);
    CleanupActFrame(AfterCleanupObserve(c, e), c, Busy(c), false, CacheMode, e.now);
    CleanupActFrame(AfterCacheAction(c, e), c, Busy(c), StartsCache(c, e), ReleasesMode, e.now);
  }

  lemma FinalFrame(c: Cluster, e: Env)
    ensures Final(c, e) == AfterCleanup(c, e).(status := Final(c, e).status)
    ensures Later(c, e, Final(c, e)) && Later(c, e, Committed(c, e).(measures := Final(c, e).measures))
    ensures forall m :: Action(Final(c, e).status, m) == Action(AfterCleanup(c, e).status, m)
    ensures Final(c, e).status.conditions
        == ReadyConditions(AfterObserve(c, e).status.conditions, Final(c, e).status.phase, e.now)
  {
    LateFrame(c, e);
  }

  /** Build Jobs, spec and annotations after a reconcile. */
  ghost predicate BuildsMove(c: Cluster, e: Env, r: Cluster) {
    && r.builds == (if Creates(c, e) then c.builds[NextJob(c) := NewBuildJob(c.spec)] else c.builds)
    && r.name == c.name && r.spec == c.spec
    && r.annotations == if Seeds(c, e) then Seeded(c, e).annotations else c.annotations
  }

  lemma LaterBuilds(c: Cluster, e: Env, s: Cluster)
    requires Passes(c, e) && !e.fault.AtBuildDecision?
    requires s.builds == AfterBuild(c, e).builds && s.name == c.name && s.spec == c.spec
        && s.annotations == c.annotations
    ensures BuildsMove(c, e, s)
  {}

  lemma ReachedBuilds(c: Cluster, e: Env)
    requires !e.fault.AtBuildDecision? && !e.fault.NoFault? && !e.fault.AtInfra?
    ensures var s := Reached(c, e);
            s.builds == AfterBuild(c, e).builds && s.name == c.name && s.spec == c.spec
                && s.annotations == c.annotations
  {
    match e.fault
    case AtObserve => EarlyFrame(c, e);
    case AtMeasure => EarlyFrame(c, e);
    case AtCleanup => EarlyFrame(c, e);
    case AtSecondCleanup => LateFrame(c, e);
    case _ => LateFrame(c, e);
  }

  lemma BuildsAfter(c: Cluster, e: Env)
    ensures BuildsMove(c, e, Reconcile(c, e))
  {
    if Persists(c, e) {
      FinalFrame(c, e);
      LaterBuilds(c, e, Reconcile(c, e));
    } else if Passes(c, e) {
      if !e.fault.AtBuildDecision? {
        ReachedBuilds(c, e);
        LaterBuilds(c, e, Reconcile(c, e));
      }
    }
  }

  /** TTLs after a reconcile: set by every pass that gets to observe a success, persisted or not. */
  lemma ExpiringAfter(c: Cluster, e: Env)
    ensures Reconcile(c, e).expiring ==
            if Passes(c, e) && !e.fault.AtBuildDecision? && !e.fault.AtObserve? && Expires(c, e)
            then c.expiring + {AfterBuild(c, e).status.build.jobName} else c.expiring
  {
    hide Reached, AfterObserve, AfterCleanup, RefreshPhase, NeedsSeed, Expires;
    ObservedExpiring(c, e);
    if Persists(c, e) {
      LateFrame(c, e);
    } else if Passes(c, e) && !e.fault.AtBuildDecision? {
      ReachedExpiring(c, e);
    } else {
      NotReached(c, e);
    }
  }

  lemma NotReached(c: Cluster, e: Env)
    ensures e.fault.AtBuildDecision? ==> Reached(c, e) == c
  {}

  lemma ObservedExpiring(c: Cluster, e: Env)
    ensures AfterBuild(c, e).expiring == c.expiring
    ensures AfterObserve(c, e).expiring ==
            if Expires(c, e) then c.expiring + {AfterBuild(c, e).status.build.jobName} else c.expiring
  {}

  lemma ReachedExpiring(c: Cluster, e: Env)
    requires !e.fault.AtBuildDecision? && !e.fault.NoFault? && !e.fault.AtInfra?
    ensures Reached(c, e).expiring == if e.fault.AtObserve? then AfterBuild(c, e).expiring
        else AfterObserve(c, e).expiring
  {
    hide AfterBuild, AfterObserve, AfterMeasure, AfterCacheAction, AfterCleanup, SameBuildSide;
    match e.fault
    case AtCleanup => EarlyFrame(c, e);
    case AtSecondCleanup => LateFrame(c, e);
    case AtStatusWrite => LateFrame(c, e);
    case _ =>
  }

  /** The persisted build side after a reconcile. */
  lemma StatusAfter(c: Cluster, e: Env)
    ensures Persists(c, e) ==> SameBuildSide(Reconcile(c, e).status, AfterObserve(c, e).status)
    ensures Rejects(e) ==> Reconcile(c, e).status == Rejected(c.status, e.rejection.value, e.now)
    ensures !Persists(c, e) && !Rejects(e) ==> Reconcile(c, e).status == c.status
    ensures !Persists(c, e) ==> SameBuildSide(Reconcile(c, e).status, c.status)
  {
    if Persists(c, e) {
      FinalFrame(c, e);
    }
  }
}
