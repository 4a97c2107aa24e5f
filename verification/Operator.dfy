/** One reconcile of one App as a function of the API-server state: the specification that
    the controller class is proved against and that the protocol theorems reason about.
    Sources: internal/controller/app_controller.go, cleanup.go and measure.go. */
module Operator {
  import opened Util
  import opened Status
  import D = Domain
  import H = History
  import P = Pipeline
  import Storage

  // ---- API-server state ----

  datatype AppSpec = AppSpec(
    hash: string,
    pipeline: P.PipelineSpec,
    images: map<P.Step, string>,
    storage: Storage.StorageConfig,
    keepRecent: int,
    keepFailed: int,
    measureInterval: int)

  datatype Annotations = Annotations(
    token: string, user: string, commit: string,
    cacheToken: string, cacheBy: string,
    releasesToken: string, releasesBy: string)

  datatype Finish = Unfinished | JobComplete | JobFailed(message: string)

  /** Spec hash and container images are those of the spec the Job was rendered from. */
  datatype BuildJob = BuildJob(finish: Finish, specHash: string, images: map<P.Step, string>, pod: Option<P.Pod>)
  datatype CleanupJob = CleanupJob(uid: nat, finish: Finish, result: Option<CleanupResult>)

  datatype Volume = CacheVolume | DataCacheVolume
  datatype MeasureJob = MeasureJob(finish: Finish, bytes: Option<nat>)

  /** `expiring` are the build Jobs with a TTL: the cluster deletes them some time after their end. */
  datatype Cluster = Cluster(
    name: string,
    spec: AppSpec,
    annotations: Annotations,
    status: AppStatus,
    builds: map<string, BuildJob>,
    expiring: set<string>,
    cleanups: map<CleanupMode, CleanupJob>,
    measures: map<Volume, MeasureJob>,
    nextUid: nat)

  /** Job name of a rebuild token. The token's short hash is taken to be injective and stands
      here for itself. */
  function BuildJobName(app: string, token: string): (n: string)
    ensures n != ""
  {
    app + "-build-" + token
  }

  lemma BuildJobNameInjective(app: string, t: string, u: string)
    ensures BuildJobName(app, t) == BuildJobName(app, u) <==> t == u
  {
    var prefix := app + "-build-";
    if BuildJobName(app, t) == BuildJobName(app, u) {
      assert (prefix + t)[|prefix|..] == t && (prefix + u)[|prefix|..] == u;
    }
  }

  // ---- one reconcile's circumstances ----

  /** Where a reconcile that passed validation breaks off with an error. */
  datatype Fault =
    | NoFault | AtInfra | AtBuildDecision | AtObserve | AtMeasure | AtCleanup | AtSecondCleanup | AtStatusWrite

  datatype Rejection = Rejection(reason: string, message: string)

  /** Clock, seed token, validation outcome, failure point, the Jobs whose final delete fails,
      the measure Job whose Create fails, if any, and whether the TTL patch fails. */
  datatype Env = Env(
    now: int,
    seed: string,
    rejection: Option<Rejection>,
    fault: Fault,
    stuckCleanups: set<CleanupMode>,
    stuckMeasures: set<Volume>,
    failedMeasure: Option<Volume>,
    ttlFails: bool)

  // ---- build ----

  predicate BuildActive(builds: map<string, BuildJob>) {
    exists n :: n in builds && builds[n].finish.Unfinished?
  }

  /** A user's request outranks a commit, and a commit the clock. */
  function ClassifyTrigger(a: Annotations): (t: Trigger)
    ensures t == Manual <==> a.user != ""
    ensures t == Commit <==> a.user == "" && a.commit != ""
    ensures t == Scheduled <==> a.user == "" && a.commit == ""
  {
    if a.user != "" then Manual else if a.commit != "" then Commit else Scheduled
  }

  function StartedBuild(c: Cluster, now: int): BuildStatus {
    var a := c.annotations;
    NO_BUILD.(
      phase := BuildPending,
      jobName := BuildJobName(c.name, a.token),
      startTime := Some(now),
      attempts := c.status.build.attempts + 1,
      trigger := ClassifyTrigger(a),
      triggeredBy := a.user,
      commit := if ClassifyTrigger(a) == Commit then a.commit else "",
      steps := P.DeriveSteps(P.ApplicableSteps(c.spec.pipeline), None, false),
      images := c.spec.images)
  }

  function NewBuildJob(spec: AppSpec): BuildJob { BuildJob(Unfinished, spec.hash, spec.images, None) }

  /** Create is a no-op when the Job already exists; the token is then adopted. */
  function StartBuild(c: Cluster, now: int): Cluster {
    var n, a := BuildJobName(c.name, c.annotations.token), c.annotations;
    c.(builds := if n in c.builds then c.builds else c.builds[n := NewBuildJob(c.spec)],
      status := c.status.(
        lastProcessed := a.token,
        build := StartedBuild(c, now),
        lastManual := if ClassifyTrigger(a) == Manual then Some(ManualTrigger(a.user, now)) else c.status.lastManual,
        lastBuild := Some(now)))
  }

  // ---- terminal observation ----

  function CopierReport(job: BuildJob): Option<P.CopierMessage> {
    if job.pod.None? then None else job.pod.value.copier
  }

  function ApplyCopier(st: AppStatus, job: BuildJob, now: int): AppStatus {
    match CopierReport(job)
    case None => st
    case Some(m) =>
      var release := if m.release == "" then st.release else Release(m.release, st.release.current);
      var count := if m.releaseCount > 0 then m.releaseCount else st.storage.releaseCount;
      var storage := if m.sizes == map[] then st.storage
                     else st.storage.(sizes := (st.storage.sizes + m.sizes) - {"source"}, measuredAt := Some(now));
      var since := if m.release == "" then st.servingSince else Some(now);
      st.(release := release, servingSince := since, storage := storage.(releaseCount := count))
  }

  function DetectTermination(pod: Option<P.Pod>, failed: Option<P.Step>): Option<Termination> {
    if pod.None? || failed.None? || failed.value == P.Release then None
    else
      var s := P.Seen(pod.value, failed.value);
      if s.Terminated?
      then Some(Termination(s.reason, failed.value, s.exitCode, P.MemoryLimit(pod.value, failed.value), s.finishedAt))
      else None
  }

  /** The short note on the failed step. */
  function TerminationNote(t: Termination): string {
    if t.reason == "" then ""
    else if t.memoryLimit != "" then t.reason + " (limit " + t.memoryLimit + ")"
    else t.reason
  }

  function OomMessage(t: Termination): string {
    var step := "the " + P.StepName(t.container) + " step ";
    if t.memoryLimit != "" then step + "exceeded its " + t.memoryLimit + " memory limit" else step + "was OOMKilled"
  }

  /** Puts the message on the first step of that name. */
  function StampMessage(steps: seq<P.BuildStep>, name: P.Step, message: string): seq<P.BuildStep> {
    if steps == [] then []
    else if steps[0].name == name then [steps[0].(message := message)] + steps[1..]
    else [steps[0]] + StampMessage(steps[1..], name, message)
  }

  lemma {:induction false} StampMessageAt(steps: seq<P.BuildStep>, name: P.Step, message: string, i: nat)
    requires i <= |steps| && (i < |steps| ==> steps[i].name == name)
    requires forall k :: 0 <= k < i ==> steps[k].name != name
    ensures StampMessage(steps, name, message) == if i < |steps| then steps[i := steps[i].(message := message)]
        else steps
  {
    if i == 0 {
    } else {
      StampMessageAt(steps[1..], name, message, i - 1);
      assert steps == [steps[0]] + steps[1..];
    }
  }

  lemma {:induction false} StampKeepsNames(steps: seq<P.BuildStep>, name: P.Step, message: string)
    ensures var r := StampMessage(steps, name, message);
            |r| == |steps| && forall k :: 0 <= k < |r| ==> r[k].name == steps[k].name && r[k].status == steps[k].status
  {
    if steps == [] || steps[0].name == name {
    } else {
      StampKeepsNames(steps[1..], name, message);
    }
  }

  /** The finished record of a build whose Job has ended. */
  function TerminalBuild(b: BuildStatus, spec: AppSpec, job: BuildJob, now: int): (r: BuildStatus)
    requires !job.finish.Unfinished?
    ensures Terminal(r) && r.jobName == b.jobName && r.trigger == b.trigger
    ensures r.result == ResultSucceeded <==> job.finish.JobComplete?
  {
    var ok := job.finish.JobComplete?;
    var names := P.ApplicableSteps(spec.pipeline);
    var steps := if ok && job.pod.None? then P.AllSucceeded(names) else P.DeriveSteps(names, job.pod, ok);
    var failed := P.FailedStep(steps);
    var term := if ok then None else DetectTermination(job.pod, failed);
    b.(
      phase := BuildComplete,
      result := if ok then ResultSucceeded else ResultFailed,
      completionTime := Some(now),
      podName := if job.pod.Some? then job.pod.value.name else b.podName,
      message := if ok then b.message else job.finish.message,
      logsRef := if ok then b.logsRef else b.jobName,
      steps := if term.Some? && TerminationNote(term.value) != ""
        then StampMessage(steps, term.value.container, TerminationNote(term.value)) else steps,
      failedStep := failed,
      termination := if term.Some? then term else b.termination)
  }

  predicate OomKilled(rec: BuildStatus) { rec.termination.Some? && rec.termination.value.reason == "OOMKilled" }

  function OutcomeReason(rec: BuildStatus): string { if OomKilled(rec) then "OOMKilled" else "BuildFailed" }

  /** The pipeline steps that run the user's own commands. */
  predicate UserStep(s: P.Step) { s == P.Clone || s == P.Setup || s == P.Fetch || s == P.Build }

  /** The failures that are reported as the platform's: its configuration, the copier, and a
      failed build that no user step is blamed for. */
  predicate PlatformFault(reason: string, failed: Option<P.Step>) {
    || reason == "ConfigError"
    || (reason == "OOMKilled" && failed == Some(P.Copier))
    || (reason == "BuildFailed" && (failed.Some? ==> !UserStep(failed.value)))
  }

  function OutcomeMessage(rec: BuildStatus): string {
    if rec.result == ResultSucceeded then "build succeeded"
    else if OomKilled(rec) then OomMessage(rec.termination.value)
    else rec.message
  }

  function OutcomeConditions(conds: seq<Condition>, rec: BuildStatus, now: int): seq<Condition> {
    var ok := rec.result == ResultSucceeded;
    var reason, message := if ok then "Ready" else OutcomeReason(rec), OutcomeMessage(rec);
    SetCond(SetCond(conds, BuildSucceeded, ok, reason, message, now), Degraded, !ok, reason, message, now)
  }

  function RecordSuccess(st: AppStatus, spec: AppSpec, job: BuildJob, now: int): AppStatus {
    var hash := if job.specHash != "" then job.specHash else spec.hash;
    ApplyCopier(st.(lastSuccess := Some(now), lastBuiltHash := hash, specStale := spec.hash != hash), job, now)
  }

  function RecordOutcome(st: AppStatus, spec: AppSpec, job: BuildJob, now: int): AppStatus
    requires !job.finish.Unfinished?
  {
    var rec := TerminalBuild(st.build, spec, job, now);
    var base := if job.finish.JobComplete? then RecordSuccess(st, spec, job, now) else st;
    base.(
      build := rec,
      conditions := OutcomeConditions(st.conditions, rec, now),
      history := H.Append(st.history, rec, spec.keepRecent),
      failedHistory := H.AppendFailed(st.failedHistory, rec, spec.keepFailed),
      failureStreak := H.UpdateStreak(st.failureStreak, rec))
  }

  /** The status names a Job that has ended and has not been recorded yet. */
  predicate Records(st: AppStatus, builds: map<string, BuildJob>) {
    && st.build.jobName != ""
    && st.build.jobName in builds
    && !Terminal(st.build)
    && !builds[st.build.jobName].finish.Unfinished?
  }

  function ObserveRunning(st: AppStatus, spec: AppSpec, job: BuildJob): AppStatus {
    var b := st.build.(phase := BuildRunning);
    st.(build :=
      match job.pod
      case None => b
      case Some(pod) => b.(podName := pod.name,
          steps := P.DeriveSteps(P.ApplicableSteps(spec.pipeline), Some(pod), false)))
  }

  function ObserveBuild(st: AppStatus, spec: AppSpec, builds: map<string, BuildJob>, now: int): AppStatus {
    var n := st.build.jobName;
    if Records(st, builds) then RecordOutcome(st, spec, builds[n], now)
    else if n != "" && n in builds && !Terminal(st.build) then ObserveRunning(st, spec, builds[n])
    else st
  }

  // ---- measurement ----

  function VolumeKey(v: Volume): string { if v == CacheVolume then "cache" else "dataCache" }

  /** Merge one size; an identical re-read changes nothing. */
  function RecordSize(s: StorageStatus, key: string, bytes: int, now: int): StorageStatus {
    if key in s.sizes && s.sizes[key] == bytes then s
    else s.(sizes := s.sizes[key := bytes],
      deltas := if key in s.sizes then s.deltas[key := bytes - s.sizes[key]] else s.deltas,
      measuredAt := Some(now))
  }

  predicate MeasurementDue(st: AppStatus, spec: AppSpec, builds: map<string, BuildJob>, now: int) {
    && (st.storage.measuredAt.None? || now - st.storage.measuredAt.value >= spec.measureInterval)
    && !BuildActive(builds)
  }

  function CreateMeasure(measures: map<Volume, MeasureJob>, v: Volume): map<Volume, MeasureJob> {
    if v in measures then measures else measures[v := MeasureJob(Unfinished, None)]
  }

  /** Cache first; the first Create that fails ends the round. */
  function CreateMeasures(measures: map<Volume, MeasureJob>, failed: Option<Volume>): map<Volume, MeasureJob> {
    if failed == Some(CacheVolume) then measures
    else if failed == Some(DataCacheVolume) then CreateMeasure(measures, CacheVolume)
    else CreateMeasure(CreateMeasure(measures, CacheVolume), DataCacheVolume)
  }

  predicate Readable(j: MeasureJob) { j.finish.JobComplete? && j.bytes.Some? }

  function HarvestMeasure(st: AppStatus, measures: map<Volume, MeasureJob>, v: Volume, now: int): AppStatus {
    if v in measures && Readable(measures[v])
    then st.(storage := RecordSize(st.storage, VolumeKey(v), measures[v].bytes.value, now))
    else st
  }

  function ObserveMeasurements(st: AppStatus, measures: map<Volume, MeasureJob>, now: int): AppStatus {
    HarvestMeasure(HarvestMeasure(st, measures, CacheVolume, now), measures, DataCacheVolume, now)
  }

  function HarvestedMeasures(measures: map<Volume, MeasureJob>): set<Volume> {
    set v | v in measures && Readable(measures[v])
  }

  // ---- cleanup ----

  function SizeKey(mode: CleanupMode): string { if mode == ReleasesMode then "outputTotal" else "cache" }

  predicate ActionEnded(a: CleanupAction) { a.phase == CleanupSucceeded || a.phase == CleanupFailed }

  /** A finished cleanup Job whose result this pass writes into status. */
  predicate ReadsResult(st: AppStatus, cleanups: map<CleanupMode, CleanupJob>, mode: CleanupMode) {
    mode in cleanups && !cleanups[mode].finish.Unfinished? && !ActionEnded(Action(st, mode))
  }

  /** The result fields a finished cleanup Job leaves on its action. */
  function CleanupOutcome(a: CleanupAction, job: CleanupJob, now: int): CleanupAction
    requires !job.finish.Unfinished?
  {
    if job.finish.JobComplete? then
      a.(phase := CleanupSucceeded,
        completedAt := Some(now),
        reclaimed := if job.result.Some? then job.result.value.reclaimed else 0,
        message := if job.result.Some? then Summary(job.result.value) else Completed)
    else
      a.(phase := CleanupFailed, completedAt := Some(now), reclaimed := 0, message := FailedWith(job.finish.message))
  }

  /** Size and release count written back by a finished cleanup Job. */
  function CleanupWriteback(s: StorageStatus, mode: CleanupMode, job: CleanupJob, now: int): StorageStatus {
    if !job.finish.JobComplete? || job.result.None? then
      // An unreadable result is the zero result: nothing measured, nothing kept.
      s
    else
      var r := job.result.value;
      var sized := if r.action != "skip" && r.before > 0 then RecordSize(s, SizeKey(mode), r.after, now) else s;
      if mode == ReleasesMode && r.action == "release-prune" && (r.kept > 0 || r.deleted > 0 || r.before == 0)
      then sized.(releaseCount := r.kept) else sized
  }

  function ObserveCleanup(st: AppStatus, cleanups: map<CleanupMode, CleanupJob>, mode: CleanupMode,
      now: int): AppStatus {
    if ReadsResult(st, cleanups, mode) then
      WithAction(st, mode, CleanupOutcome(Action(st, mode), cleanups[mode], now))
      .(storage := CleanupWriteback(st.storage, mode, cleanups[mode], now))
    else st
  }

  function ObserveCleanups(st: AppStatus, cleanups: map<CleanupMode, CleanupJob>, now: int): AppStatus {
    ObserveCleanup(ObserveCleanup(st, cleanups, CacheMode, now), cleanups, ReleasesMode, now)
  }

  function HarvestedCleanups(cleanups: map<CleanupMode, CleanupJob>): set<CleanupMode> {
    set m | m in cleanups && !cleanups[m].finish.Unfinished?
  }

  predicate CleanupActive(cleanups: map<CleanupMode, CleanupJob>) {
    exists m :: m in cleanups && cleanups[m].finish.Unfinished?
  }

  function RequestedToken(a: Annotations, mode: CleanupMode): string {
    if mode == CacheMode then a.cacheToken else a.releasesToken
  }

  function RequestedBy(a: Annotations, mode: CleanupMode): string {
    if mode == CacheMode then a.cacheBy else a.releasesBy
  }

  /** Decision for one action. `snap` is the state the reconcile listed, `busy` whether a build
      blocks, `started` whether this pass already started a cleanup. */
  function CleanupChoice(c: Cluster, snap: Cluster, busy: bool, started: bool, mode: CleanupMode): D.CleanupDecision {
    D.DecideCleanup(RequestedToken(c.annotations, mode), Action(c.status, mode).requestedAt, busy,
                    CleanupActive(snap.cleanups) || started || mode in HarvestedCleanups(snap.cleanups))
  }

  function StartCleanup(c: Cluster, mode: CleanupMode, now: int): Cluster {
    var a := Action(c.status, mode).(
      requestedAt := RequestedToken(c.annotations, mode),
      requestedBy := RequestedBy(c.annotations, mode),
      phase := CleanupRunning,
      startedAt := Some(now),
      completedAt := None);
    c.(cleanups := if mode in c.cleanups then c.cleanups
          else c.cleanups[mode := CleanupJob(c.nextUid, Unfinished, None)],
      nextUid := c.nextUid + 1,
      status := WithAction(c.status, mode, a))
  }

  function WaitCleanup(c: Cluster, mode: CleanupMode): Cluster {
    var a := Action(c.status, mode);
    var user := RequestedBy(c.annotations, mode);
    c.(status := WithAction(c.status, mode, a.(phase := CleanupPending, requestedBy := if user != "" then user
        else a.requestedBy)))
  }

  function CleanupAct(c: Cluster, snap: Cluster, busy: bool, started: bool, mode: CleanupMode, now: int): Cluster {
    match CleanupChoice(c, snap, busy, started, mode)
    case StartCleanup => StartCleanup(c, mode, now)
    case WaitCleanup => WaitCleanup(c, mode)
    case NoCleanup => c
  }

  // ---- the pass, stage by stage: in-memory status over the live Jobs ----

  predicate NeedsSeed(c: Cluster) {
    PhaseOf(c.status) == AwaitingFirstBuild && c.annotations.token == ""
  }

  predicate Starts(c: Cluster) {
    D.DecideBuild(c.annotations.token, c.status.lastProcessed, BuildActive(c.builds)).StartBuild?
  }

  predicate Busy(c: Cluster) { BuildActive(c.builds) || Starts(c) }

  function Loaded(c: Cluster): Cluster {
    c.(status := c.status.(specStale := c.spec.hash != c.status.lastBuiltHash))
  }

  function AfterBuild(c: Cluster, e: Env): Cluster {
    if Starts(c) then StartBuild(Loaded(c), e.now) else Loaded(c)
  }

  /** Observing a success puts a TTL on its Job, before and apart from the status write. */
  predicate Expires(c: Cluster, e: Env) {
    var st := AfterBuild(c, e).status;
    Records(st, c.builds) && c.builds[st.build.jobName].finish.JobComplete? && !e.ttlFails
  }

  function AfterObserve(c: Cluster, e: Env): Cluster {
    var b := AfterBuild(c, e);
    var measures := if Records(b.status, c.builds) && c.builds[b.status.build.jobName].finish.JobComplete?
                       && MeasurementDue(b.status, c.spec, c.builds, e.now)
                    then CreateMeasures(c.measures, e.failedMeasure)
                    else c.measures;
    var expiring := if Expires(c, e) then c.expiring + {b.status.build.jobName} else c.expiring;
    b.(status := ObserveBuild(b.status, c.spec, c.builds, e.now), measures := measures, expiring := expiring)
  }

  function AfterMeasure(c: Cluster, e: Env): Cluster {
    var o := AfterObserve(c, e);
    o.(status := ObserveMeasurements(o.status, c.measures, e.now))
  }

  function AfterCleanupObserve(c: Cluster, e: Env): Cluster {
    var m := AfterMeasure(c, e);
    m.(status := ObserveCleanups(m.status, c.cleanups, e.now))
  }

  function AfterCacheAction(c: Cluster, e: Env): Cluster {
    CleanupAct(AfterCleanupObserve(c, e), c, Busy(c), false, CacheMode, e.now)
  }

  predicate StartsCache(c: Cluster, e: Env) {
    CleanupChoice(AfterCleanupObserve(c, e), c, Busy(c), false, CacheMode).StartCleanup?
  }

  predicate StartsReleases(c: Cluster, e: Env) {
    CleanupChoice(AfterCacheAction(c, e), c, Busy(c), StartsCache(c, e), ReleasesMode).StartCleanup?
  }

  function AfterCleanup(c: Cluster, e: Env): Cluster {
    CleanupAct(AfterCacheAction(c, e), c, Busy(c), StartsCache(c, e), ReleasesMode, e.now)
  }

  ghost function Final(c: Cluster, e: Env): Cluster {
    var s := AfterCleanup(c, e);
    var st := s.status;
    s.(status := RefreshPhase(st.(storage := st.storage.(threshold := Storage.Worst(st.storage.sizes,
        c.spec.storage))), e.now))
  }

  /** Status is lost, created Jobs stay. */
  function Dropped(c: Cluster, stage: Cluster): Cluster { stage.(status := c.status) }

  /** Status is written, then the harvested Jobs are deleted best-effort. */
  ghost function Committed(c: Cluster, e: Env): Cluster {
    var f := Final(c, e);
    f.(cleanups := f.cleanups - (HarvestedCleanups(c.cleanups) - e.stuckCleanups),
      measures := f.measures - (HarvestedMeasures(c.measures) - e.stuckMeasures))
  }

  function Rejected(st: AppStatus, r: Rejection, now: int): AppStatus {
    st.(phase := AppDegraded,
      conditions := SetCond(SetCond(st.conditions, Ready, false, r.reason, r.message, now), Degraded, true, r.reason,
          r.message, now))
  }

  function Seeded(c: Cluster, e: Env): Cluster {
    c.(annotations := c.annotations.(token := e.seed, user := "", commit := ""))
  }

  /** How far a pass with a fault got. */
  function Reached(c: Cluster, e: Env): Cluster {
    match e.fault
    case AtObserve => AfterBuild(c, e)
    case AtMeasure => AfterObserve(c, e)
    case AtCleanup => AfterMeasure(c, e)
    case AtSecondCleanup => AfterCacheAction(c, e)
    case AtStatusWrite => AfterCleanup(c, e)
    case _ => c
  }

  ghost function Reconcile(c: Cluster, e: Env): Cluster {
    if e.rejection.Some? then
      if e.fault.NoFault? then c.(status := Rejected(c.status, e.rejection.value, e.now)) else c
    else if e.fault.AtInfra? then c
    else if NeedsSeed(c) then Seeded(c, e)
    else if e.fault.NoFault? then Committed(c, e)
    else Dropped(c, Reached(c, e))
  }
}
