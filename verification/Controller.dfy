/** The reconciler as it is written: an App loaded into memory whose status is changed step by
    step, Jobs created and deleted on the API server, one status write at the end. Every method
    is proved against the specification of one reconcile in `Operator`. */
module Controller {
  import opened Util
  import opened Status
  import opened Operator
  import D = Domain
  import H = History
  import P = Pipeline
  import Storage

  // ---- lists in no particular order ----

  method ListKeys<K(==)>(keys: set<K>) returns (items: seq<K>)
    ensures forall k :: k in items <==> k in keys
    ensures forall i, j :: 0 <= i < j < |items| ==> items[i] != items[j]
  {
    items := [];
    var todo := keys;
    while todo != {}
      invariant todo <= keys
      invariant forall k :: k in items <==> k in keys && k !in todo
      invariant forall i, j :: 0 <= i < j < |items| ==> items[i] != items[j]
    {
      var k :| k in todo;
      items := items + [k];
      todo := todo - {k};
    }
  }

  // ---- the API server ----

  class ApiServer {
    const name: string
    var spec: AppSpec
    var annotations: Annotations
    var status: AppStatus
    var builds: map<string, BuildJob>
    var expiring: set<string>
    var cleanups: map<CleanupMode, CleanupJob>
    var measures: map<Volume, MeasureJob>
    var nextUid: nat

    constructor (c: Cluster)
      ensures View() == c
    {
      name, spec, annotations, status := c.name, c.spec, c.annotations, c.status;
      builds, expiring, cleanups := c.builds, c.expiring, c.cleanups;
      measures, nextUid := c.measures, c.nextUid;
    }

    function View(): Cluster
      reads this
    {
      Cluster(name, spec, annotations, status, builds, expiring, cleanups, measures, nextUid)
    }

    /** AlreadyExists is success. */
    method CreateBuild(name: string, job: BuildJob)
      modifies `builds
      ensures builds == if name in old(builds) then old(builds) else old(builds)[name := job]
    {
      if name !in builds {
        builds := builds[name := job];
      }
    }

    method CreateCleanup(mode: CleanupMode)
      modifies `cleanups, `nextUid
      ensures cleanups == if mode in old(cleanups) then old(cleanups)
          else old(cleanups)[mode := CleanupJob(old(nextUid), Unfinished, None)]
      ensures nextUid == old(nextUid) + 1
    {
      if mode !in cleanups {
        cleanups := cleanups[mode := CleanupJob(nextUid, Unfinished, None)];
      }
      nextUid := nextUid + 1;
    }

    method CreateMeasure(volume: Volume)
      modifies `measures
      ensures measures == Operator.CreateMeasure(old(measures), volume)
    {
      if volume !in measures {
        measures := measures[volume := MeasureJob(Unfinished, None)];
      }
    }
  }

  // ---- the App in memory ----

  class App {
    const name: string
    const spec: AppSpec
    const annotations: Annotations
    var status: AppStatus

    constructor (c: Cluster)
      ensures name == c.name && spec == c.spec && annotations == c.annotations && status == c.status
    {
      name, spec, annotations, status := c.name, c.spec, c.annotations, c.status;
    }

    method SetCondition(t: CondType, isTrue: bool, reason: string, message: string, now: int)
      modifies `status
      ensures status == old(status).(conditions := SetCond(old(status.conditions), t, isTrue, reason, message, now))
    {
      var conds := status.conditions;
      for i := 0 to |conds|
        invariant forall k :: 0 <= k < i ==> conds[k].ctype != t
        invariant status == old(status)
      {
        if conds[i].ctype == t {
          CondIndexIs(conds, t, i);
          var since := now;
          if conds[i].isTrue == isTrue && conds[i].reason == reason {
            since := conds[i].since;
          }
          status := status.(conditions := conds[i := Condition(t, isTrue, reason, message, since)]);
          return;
        }
      }
      CondIndexIs(conds, t, |conds|);
      status := status.(conditions := conds + [Condition(t, isTrue, reason, message, now)]);
    }

    method RefreshPhase(now: int)
      modifies `status
      ensures status == Status.RefreshPhase(old(status), now)
    {
      var phase := PhaseOf(status);
      status := status.(phase := phase);
      match phase
      case AppReady => SetCondition(Ready, true, "Ready", "serving current release", now);
      case Building => SetCondition(Ready, false, "Building", "build in progress", now);
      case AwaitingFirstBuild => SetCondition(Ready, false, "AwaitingFirstBuild", "awaiting first build", now);
      case _ =>
    }

    method RecordSize(key: string, bytes: int, now: int)
      modifies `status
      ensures status == old(status).(storage := Operator.RecordSize(old(status.storage), key, bytes, now))
    {
      var s := status.storage;
      if key in s.sizes {
        if s.sizes[key] == bytes {
          return;
        }
        s := s.(deltas := s.deltas[key := bytes - s.sizes[key]]);
      }
      s := s.(sizes := s.sizes[key := bytes]);
      status := status.(storage := s.(measuredAt := Some(now)));
    }
  }

  /** In-memory status over the live Jobs: the stages of the specification. */
  function InMemory(api: ApiServer, app: App): Cluster
    reads api, app
  {
    api.View().(status := app.status)
  }

  predicate Loads(api: ApiServer, app: App)
    reads api
  {
    app.name == api.name && app.spec == api.spec && app.annotations == api.annotations
  }

  // ---- build ----

  method IsBuildActive(builds: map<string, BuildJob>) returns (active: bool)
    ensures active == BuildActive(builds)
  {
    var jobs := ListKeys(builds.Keys);
    for i := 0 to |jobs|
      invariant forall k :: 0 <= k < i ==> !builds[jobs[k]].finish.Unfinished?
    {
      if builds[jobs[i]].finish.Unfinished? {
        return true;
      }
    }
    forall n | n in builds
      ensures !builds[n].finish.Unfinished?
    {
      assert n in jobs;
    }
    return false;
  }

  /** The record of a build about to run, from the App and the Job rendered for it. */
  method FreshRecord(app: App, name: string, job: BuildJob, now: int) returns (b: BuildStatus)
    requires name == BuildJobName(app.name, app.annotations.token) && job == NewBuildJob(app.spec)
    ensures forall c: Cluster ::
              c.name == app.name && c.spec == app.spec && c.annotations == app.annotations
                  && c.status.build == app.status.build
              ==> b == StartedBuild(c, now)
  {
    var trigger := ClassifyTrigger(app.annotations);
    var commit := "";
    if trigger == Commit {
      commit := app.annotations.commit;
    }
    var steps := P.DeriveBuildSteps(P.ApplicableSteps(app.spec.pipeline), None, false);
    b := BuildStatus(BuildPending, NoResult, name, "", Some(now), None, app.status.build.attempts + 1, trigger,
      app.annotations.user, commit, steps, None, "", "", None, job.images);
  }

  method StartBuild(api: ApiServer, app: App, now: int)
    requires Loads(api, app)
    modifies api`builds, app`status
    ensures InMemory(api, app) == Operator.StartBuild(old(InMemory(api, app)), now)
  {
    hide StartedBuild, BuildJobName;
    var token := app.annotations.token;
    var name := BuildJobName(app.name, token);
    var job := BuildJob(Unfinished, app.spec.hash, app.spec.images, None);
    api.CreateBuild(name, job);
    app.status := app.status.(lastProcessed := token);
    var b := FreshRecord(app, name, job, now);
    assert b == StartedBuild(old(InMemory(api, app)), now);
    app.status := app.status.(build := b);
    if app.annotations.user != "" {
      app.status := app.status.(lastManual := Some(ManualTrigger(app.annotations.user, now)));
    }
    app.status := app.status.(lastBuild := Some(now));
  }

  method MergeSizes(into: map<string, int>, sizes: map<string, int>) returns (r: map<string, int>)
    ensures r == (into + sizes) - {"source"}
  {
    r := into;
    var keys := ListKeys(sizes.Keys);
    for i := 0 to |keys|
      invariant forall k :: k in r <==> k in into || k in keys[..i]
      invariant forall k :: k in r ==> r[k] == if k in keys[..i] then sizes[k] else into[k]
    {
      assert keys[..i + 1] == keys[..i] + [keys[i]];
      r := r[keys[i] := sizes[keys[i]]];
    }
    assert keys[..|keys|] == keys;
    assert r == into + sizes;
    r := r - {"source"};
  }

  method ApplyCopierTermination(app: App, job: BuildJob, now: int)
    modifies app`status
    ensures app.status == ApplyCopier(old(app.status), job, now)
  {
    if job.pod.None? || job.pod.value.copier.None? {
      return;
    }
    var blob := job.pod.value.copier.value;
    if blob.release != "" {
      app.status := app.status.(release := app.status.release.(previous := app.status.release.current));
      app.status := app.status.(release := app.status.release.(current := blob.release));
      app.status := app.status.(servingSince := Some(now));
    }
    if blob.releaseCount > 0 {
      app.status := app.status.(storage := app.status.storage.(releaseCount := blob.releaseCount));
    }
    if |blob.sizes| > 0 {
      var sizes := MergeSizes(app.status.storage.sizes, blob.sizes);
      app.status := app.status.(storage := app.status.storage.(sizes := sizes, measuredAt := Some(now)));
    }
  }

  method MaybeStartMeasurement(api: ApiServer, app: App, previous: Option<int>, builds: map<string, BuildJob>,
                               failed: Option<Volume>, now: int)
    modifies api`measures
    ensures api.measures ==
            if (previous.None? || now - previous.value >= app.spec.measureInterval) && !BuildActive(builds)
            then CreateMeasures(old(api.measures), failed)
            else old(api.measures)
  {
    if previous.Some? && now - previous.value < app.spec.measureInterval {
      return;
    }
    var active := IsBuildActive(builds);
    if active {
      return;
    }
    if failed == Some(CacheVolume) {
      return;
    }
    api.CreateMeasure(CacheVolume);
    if failed == Some(DataCacheVolume) {
      return;
    }
    api.CreateMeasure(DataCacheVolume);
  }

  method StampStepMessage(steps: seq<P.BuildStep>, name: P.Step, message: string) returns (r: seq<P.BuildStep>)
    ensures r == StampMessage(steps, name, message)
  {
    for i := 0 to |steps|
      invariant forall k :: 0 <= k < i ==> steps[k].name != name
    {
      if steps[i].name == name {
        StampMessageAt(steps, name, message, i);
        return steps[i := steps[i].(message := message)];
      }
    }
    StampMessageAt(steps, name, message, |steps|);
    return steps;
  }

  /** The timeline, failed step and termination of an ended build. */
  method FinishRecord(app: App, job: BuildJob)
    requires !job.finish.Unfinished?
    modifies app`status
    ensures var before := old(app.status);
            app.status == before.(build := before.build.(
              podName := app.status.build.podName, steps := app.status.build.steps,
              failedStep := app.status.build.failedStep, termination := app.status.build.termination))
    ensures var ok := job.finish.JobComplete?;
            var b := app.status.build;
            var names := P.ApplicableSteps(app.spec.pipeline);
            var steps := if ok && job.pod.None? then P.AllSucceeded(names) else P.DeriveSteps(names, job.pod, ok);
            var term := if ok then None else DetectTermination(job.pod, P.FailedStep(steps));
            && b.podName == (if job.pod.Some? then job.pod.value.name else old(app.status.build.podName))
            && b.failedStep == P.FailedStep(steps)
            && b.steps == (if term.Some? && TerminationNote(term.value) != ""
                then StampMessage(steps, term.value.container, TerminationNote(term.value)) else steps)
            && b.termination == if term.Some? then term else old(app.status.build.termination)
  {
    var ok := job.finish.JobComplete?;
    var names := P.ApplicableSteps(app.spec.pipeline);
    if job.pod.Some? {
      app.status := app.status.(build := app.status.build.(podName := job.pod.value.name));
    }
    var steps;
    if ok && job.pod.None? {
      steps := P.AllSucceeded(names);
    } else {
      steps := P.DeriveBuildSteps(names, job.pod, ok);
    }
    var failed := P.FindFailedStep(steps);
    app.status := app.status.(build := app.status.build.(steps := steps, failedStep := failed));
    if !ok {
      var term := DetectTermination(job.pod, failed);
      if term.Some? {
        app.status := app.status.(build := app.status.build.(termination := term));
        var note := TerminationNote(term.value);
        if note != "" {
          steps := StampStepMessage(steps, term.value.container, note);
          app.status := app.status.(build := app.status.build.(steps := steps));
        }
      }
    }
  }

  method ObserveSuccess(api: ApiServer, app: App, job: BuildJob, builds: map<string, BuildJob>, e: Env)
    requires job.finish.JobComplete?
    modifies api`measures, api`expiring, app`status
    ensures app.status == RecordSuccess(old(app.status), app.spec, job, e.now).(
                          build := old(app.status.build).(result := ResultSucceeded),
                          conditions := SuccessConditions(old(app.status.conditions), e.now))
    ensures api.measures ==
            if MeasurementDue(old(app.status), app.spec, builds, e.now)
            then CreateMeasures(old(api.measures), e.failedMeasure)
            else old(api.measures)
    ensures api.expiring == if e.ttlFails then old(api.expiring)
        else old(api.expiring) + {old(app.status.build.jobName)}
  {
    hide SetCond, BuildActive, CreateMeasures;
    var hash := job.specHash;
    if hash == "" {
      hash := app.spec.hash;
    }
    app.status := app.status.(
      build := app.status.build.(result := ResultSucceeded), lastSuccess := Some(e.now),
      lastBuiltHash := hash, specStale := app.spec.hash != hash);
    var previous := app.status.storage.measuredAt;
    ApplyCopierTermination(app, job, e.now);
    MaybeStartMeasurement(api, app, previous, builds, e.failedMeasure, e.now);
    app.SetCondition(BuildSucceeded, true, "Ready", "build succeeded", e.now);
    app.SetCondition(Degraded, false, "Ready", "build succeeded", e.now);
    if app.status.build.jobName !in api.expiring && !e.ttlFails {
      api.expiring := api.expiring + {app.status.build.jobName};
    }
  }

  function SuccessConditions(conds: seq<Condition>, now: int): seq<Condition> {
    var done := SetCond(conds, BuildSucceeded, true, "Ready", "build succeeded", now);
    SetCond(done, Degraded, false, "Ready", "build succeeded", now)
  }

  lemma SuccessSparesBuild(st: AppStatus, b: BuildStatus, spec: AppSpec, job: BuildJob, now: int)
    ensures var r := RecordSuccess(st, spec, job, now);
            && RecordSuccess(st.(build := b), spec, job, now) == r.(build := b)
            && r.history == st.history && r.failedHistory == st.failedHistory && r.failureStreak == st.failureStreak
  {}

  method IsPlatformFault(reason: string, failed: Option<P.Step>) returns (r: bool)
    ensures r == PlatformFault(reason, failed)
  {
    if reason == "ConfigError" {
      return true;
    }
    if reason == "OOMKilled" {
      return failed == Some(P.Copier);
    }
    if reason != "BuildFailed" {
      return false;
    }
    if failed.Some? && failed.value in {P.Clone, P.Setup, P.Fetch, P.Build} {
      return false;
    }
    return true;
  }

  method ReportFailure(app: App, job: BuildJob, now: int) returns (reported: bool)
    requires job.finish.JobFailed? && app.status.build.result == ResultFailed
        && app.status.build.message == job.finish.message
    modifies app`status
    ensures app.status == old(app.status).(
                          conditions := OutcomeConditions(old(app.status.conditions), old(app.status.build), now))
    ensures reported == PlatformFault(OutcomeReason(app.status.build), app.status.build.failedStep)
  {
    hide SetCond, OomMessage, PlatformFault;
    var reason, message := "BuildFailed", job.finish.message;
    var term := app.status.build.termination;
    if term.Some? && term.value.reason == "OOMKilled" {
      reason, message := "OOMKilled", OomMessage(term.value);
    }
    app.SetCondition(BuildSucceeded, false, reason, message, now);
    app.SetCondition(Degraded, true, reason, message, now);
    reported := IsPlatformFault(reason, app.status.build.failedStep);
  }

  method ObserveOutcome(api: ApiServer, app: App, job: BuildJob, builds: map<string, BuildJob>, e: Env)
    returns (reported: bool)
    requires !job.finish.Unfinished?
    modifies api`measures, api`expiring, app`status
    ensures app.status == RecordOutcome(old(app.status), app.spec, job, e.now)
    ensures api.measures ==
            if job.finish.JobComplete? && MeasurementDue(old(app.status), app.spec, builds, e.now)
            then CreateMeasures(old(api.measures), e.failedMeasure)
            else old(api.measures)
    ensures api.expiring == if job.finish.JobComplete? && !e.ttlFails
                            then old(api.expiring) + {old(app.status.build.jobName)} else old(api.expiring)
    ensures reported <==> job.finish.JobFailed?
                          && PlatformFault(OutcomeReason(app.status.build), app.status.build.failedStep)
  {
    hide PlatformFault, SetCond, H.Append, H.AppendFailed, H.UpdateStreak, P.DeriveSteps, P.AllSucceeded, P.FailedStep,
      P.ApplicableSteps, DetectTermination, StampMessage, RecordSuccess, BuildActive, CreateMeasures, TerminationNote,
      OomMessage;
    var now := e.now;
    reported := false;
    app.status := app.status.(build := app.status.build.(phase := BuildComplete, completionTime := Some(now)));
    if job.finish.JobComplete? {
      SuccessSparesBuild(old(app.status), app.status.build, app.spec, job, now);
      ObserveSuccess(api, app, job, builds, e);
    } else {
      app.status := app.status.(build := app.status.build.(
        result := ResultFailed, message := job.finish.message, logsRef := app.status.build.jobName));
    }
    FinishRecord(app, job);
    assert app.status.build == TerminalBuild(old(app.status.build), app.spec, job, now);
    if app.status.build.result == ResultFailed {
      reported := ReportFailure(app, job, now);
    }
    RecordHistory(app);
  }

  method RecordHistory(app: App)
    modifies app`status
    ensures var st := old(app.status);
            app.status == st.(
              history := H.Append(st.history, st.build, app.spec.keepRecent),
              failedHistory := H.AppendFailed(st.failedHistory, st.build, app.spec.keepFailed),
              failureStreak := H.UpdateStreak(st.failureStreak, st.build))
  {
    var rec := app.status.build;
    var recent := H.AppendBuildHistory(app.status.history, rec, app.spec.keepRecent);
    var failed := app.status.failedHistory;
    if rec.result == ResultFailed {
      var trimmed := H.TrimToFailedStep(rec);
      failed := H.AppendBuildHistory(failed, trimmed, app.spec.keepFailed);
    }
    app.status := app.status.(history := recent, failedHistory := failed,
      failureStreak := H.UpdateStreak(app.status.failureStreak, rec));
  }

  method ObserveBuild(api: ApiServer, app: App, builds: map<string, BuildJob>, e: Env)
    modifies api`measures, api`expiring, app`status
    ensures app.status == Operator.ObserveBuild(old(app.status), app.spec, builds, e.now)
    ensures var done := Records(old(app.status), builds) && builds[old(app.status.build.jobName)].finish.JobComplete?;
            && api.measures == (if done && MeasurementDue(old(app.status), app.spec, builds, e.now)
                                then CreateMeasures(old(api.measures), e.failedMeasure) else old(api.measures))
            && api.expiring == if done && !e.ttlFails
                               then old(api.expiring) + {old(app.status.build.jobName)} else old(api.expiring)
  {
    var n := app.status.build.jobName;
    if n == "" || n !in builds {
      return;
    }
    var job := builds[n];
    if app.status.build.phase == BuildComplete
       && (app.status.build.result == ResultSucceeded || app.status.build.result == ResultFailed) {
      return;
    }
    if job.finish.Unfinished? {
      app.status := app.status.(build := app.status.build.(phase := BuildRunning));
      if job.pod.Some? {
        var steps := P.DeriveBuildSteps(P.ApplicableSteps(app.spec.pipeline), job.pod, false);
        app.status := app.status.(build := app.status.build.(podName := job.pod.value.name, steps := steps));
      }
      return;
    }
    var _ := ObserveOutcome(api, app, job, builds, e);
  }

  // ---- measurement ----

  /** Sizes of the volumes in `done` are merged. */
  function MeasuredSoFar(st: AppStatus, measures: map<Volume, MeasureJob>, done: set<Volume>, now: int): AppStatus {
    var s := if CacheVolume in done then HarvestMeasure(st, measures, CacheVolume, now) else st;
    if DataCacheVolume in done then HarvestMeasure(s, measures, DataCacheVolume, now) else s
  }

  /** The order in which Jobs are listed does not matter. */
  lemma MeasureAnyOrder(st: AppStatus, measures: map<Volume, MeasureJob>, done: set<Volume>, v: Volume, now: int)
    requires v !in done
    ensures HarvestMeasure(MeasuredSoFar(st, measures, done, now), measures, v, now)
        == MeasuredSoFar(st, measures, done + {v}, now)
  {
    if v == CacheVolume && DataCacheVolume in done {
      var x := if v in measures && Readable(measures[v]) then measures[v].bytes.value else 0;
      var d := DataCacheVolume;
      var y := if d in measures && Readable(measures[d]) then measures[d].bytes.value else 0;
      SizesCommute(st.storage, "cache", x, "dataCache", y, now);
    }
  }

  lemma SizesCommute(s: StorageStatus, k: string, x: int, l: string, y: int, now: int)
    requires k != l
    ensures RecordSize(RecordSize(s, k, x, now), l, y, now) == RecordSize(RecordSize(s, l, y, now), k, x, now)
  {
    assert s.sizes[k := x][l := y] == s.sizes[l := y][k := x];
    if k in s.sizes && l in s.sizes {
      assert s.deltas[k := x - s.sizes[k]][l := y - s.sizes[l]] == s.deltas[l := y - s.sizes[l]][k := x - s.sizes[k]];
    }
  }

  method ObserveMeasurement(app: App, measures: map<Volume, MeasureJob>, now: int) returns (harvested: seq<Volume>)
    modifies app`status
    ensures app.status == ObserveMeasurements(old(app.status), measures, now)
    ensures forall v :: v in harvested <==> v in HarvestedMeasures(measures)
  {
    harvested := [];
    var jobs := ListKeys(measures.Keys);
    ghost var done: set<Volume> := {};
    for i := 0 to |jobs|
      invariant done == set v | v in jobs[..i]
      invariant app.status == MeasuredSoFar(old(app.status), measures, done, now)
      invariant forall v :: v in harvested <==> v in jobs[..i] && Readable(measures[v])
    {
      var v := jobs[i];
      assert jobs[..i + 1] == jobs[..i] + [v];
      assert v !in jobs[..i];
      MeasureAnyOrder(old(app.status), measures, done, v, now);
      done := done + {v};
      if !measures[v].finish.JobComplete? || measures[v].bytes.None? {
        continue;
      }
      app.RecordSize(VolumeKey(v), measures[v].bytes.value, now);
      harvested := harvested + [v];
    }
    assert jobs[..|jobs|] == jobs;
  }

  // ---- cleanup ----

  function CleanedSoFar(st: AppStatus, cleanups: map<CleanupMode, CleanupJob>, done: set<CleanupMode>,
      now: int): AppStatus {
    var s := if CacheMode in done then Operator.ObserveCleanup(st, cleanups, CacheMode, now) else st;
    if ReleasesMode in done then Operator.ObserveCleanup(s, cleanups, ReleasesMode, now) else s
  }

  lemma WritebacksCommute(s: StorageStatus, x: CleanupJob, y: CleanupJob, now: int)
    ensures CleanupWriteback(CleanupWriteback(s, CacheMode, x, now), ReleasesMode, y, now)
            == CleanupWriteback(CleanupWriteback(s, ReleasesMode, y, now), CacheMode, x, now)
  {
    assert |"cache"| == 5 && |"outputTotal"| == 11;
    var after := if x.result.Some? then x.result.value.after else 0;
    var total := if y.result.Some? then y.result.value.after else 0;
    SizesCommute(s, "cache", after, "outputTotal", total, now);
  }

  /** The order in which cleanup Jobs are listed does not matter. */
  lemma CleanupAnyOrder(st: AppStatus, cleanups: map<CleanupMode, CleanupJob>, done: set<CleanupMode>,
      m: CleanupMode, now: int)
    requires m !in done
    ensures Operator.ObserveCleanup(CleanedSoFar(st, cleanups, done, now), cleanups, m, now)
        == CleanedSoFar(st, cleanups, done + {m}, now)
  {
    hide CleanupWriteback, CleanupOutcome;
    if m == CacheMode && ReleasesMode in done && CacheMode in cleanups && ReleasesMode in cleanups {
      WritebacksCommute(st.storage, cleanups[CacheMode], cleanups[ReleasesMode], now);
    }
  }

  method ReadResult(app: App, mode: CleanupMode, job: CleanupJob, now: int)
    requires !job.finish.Unfinished?
    modifies app`status
    ensures var st := old(app.status);
            app.status == WithAction(st, mode, CleanupOutcome(Action(st, mode), job, now))
            .(storage := CleanupWriteback(st.storage, mode, job, now))
  {
    var a := Action(app.status, mode).(completedAt := Some(now));
    if job.finish.JobComplete? {
      var res := if job.result.Some? then job.result.value else CleanupResult("", 0, 0, 0, 0, 0);
      a := a.(phase := CleanupSucceeded, reclaimed := res.reclaimed,
        message := if job.result.Some? then Summary(res) else Completed);
      if res.action != "skip" && res.before > 0 {
        app.RecordSize(SizeKey(mode), res.after, now);
      }
      if mode == ReleasesMode && res.action == "release-prune" && (res.kept > 0 || res.deleted > 0 || res.before == 0) {
        app.status := app.status.(storage := app.status.storage.(releaseCount := res.kept));
      }
    } else {
      a := a.(phase := CleanupFailed, reclaimed := 0, message := FailedWith(job.finish.message));
    }
    app.status := WithAction(app.status, mode, a);
  }

  method ObserveCleanup(app: App, cleanups: map<CleanupMode, CleanupJob>, now: int)
    returns (harvested: seq<CleanupMode>)
    modifies app`status
    ensures app.status == ObserveCleanups(old(app.status), cleanups, now)
    ensures forall m :: m in harvested <==> m in HarvestedCleanups(cleanups)
  {
    hide CleanupWriteback, CleanupOutcome;
    harvested := [];
    var jobs := ListKeys(cleanups.Keys);
    ghost var done: set<CleanupMode> := {};
    for i := 0 to |jobs|
      invariant done == set m | m in jobs[..i]
      invariant app.status == CleanedSoFar(old(app.status), cleanups, done, now)
      invariant forall m :: m in harvested <==> m in jobs[..i] && !cleanups[m].finish.Unfinished?
    {
      var mode := jobs[i];
      assert jobs[..i + 1] == jobs[..i] + [mode];
      assert mode !in jobs[..i];
      CleanupAnyOrder(old(app.status), cleanups, done, mode, now);
      done := done + {mode};
      if cleanups[mode].finish.Unfinished? {
        continue;
      }
      harvested := harvested + [mode];
      if ActionEnded(Action(app.status, mode)) {
        continue;
      }
      ReadResult(app, mode, cleanups[mode], now);
    }
    assert jobs[..|jobs|] == jobs;
  }

  method IsCleanupActive(cleanups: map<CleanupMode, CleanupJob>) returns (active: bool)
    ensures active == CleanupActive(cleanups)
  {
    var jobs := ListKeys(cleanups.Keys);
    for i := 0 to |jobs|
      invariant forall k :: 0 <= k < i ==> !cleanups[jobs[k]].finish.Unfinished?
    {
      if cleanups[jobs[i]].finish.Unfinished? {
        return true;
      }
    }
    forall m | m in cleanups
      ensures !cleanups[m].finish.Unfinished?
    {
      assert m in jobs;
    }
    return false;
  }

  /** One cleanup action and who asks for it. */
  datatype Request = Request(mode: CleanupMode, requestedAt: string, requestedBy: string)

  method StartCleanup(api: ApiServer, app: App, r: Request, now: int)
    requires Loads(api, app)
    requires r.requestedAt == RequestedToken(app.annotations, r.mode)
        && r.requestedBy == RequestedBy(app.annotations, r.mode)
    modifies api`cleanups, api`nextUid, app`status
    ensures InMemory(api, app) == Operator.StartCleanup(old(InMemory(api, app)), r.mode, now)
  {
    api.CreateCleanup(r.mode);
    var st := Action(app.status, r.mode);
    st := st.(requestedAt := r.requestedAt, requestedBy := r.requestedBy);
    st := st.(phase := CleanupRunning, startedAt := Some(now), completedAt := None);
    app.status := WithAction(app.status, r.mode, st);
  }

  /** Observe, then decide each action in turn; `stop` breaks off before the second. */
  method ReconcileCleanup(api: ApiServer, app: App, snap: Cluster, busy: bool, stop: bool, now: int)
    returns (harvested: seq<CleanupMode>)
    requires Loads(api, app)
    modifies api`cleanups, api`nextUid, app`status
    ensures var s := old(InMemory(api, app));
            var o := s.(status := ObserveCleanups(s.status, snap.cleanups, now));
            var first := CleanupAct(o, snap, busy, false, CacheMode, now);
            var started := CleanupChoice(o, snap, busy, false, CacheMode).StartCleanup?;
            InMemory(api, app) == if stop then first else CleanupAct(first, snap, busy, started, ReleasesMode, now)
    ensures forall m :: m in harvested <==> m in HarvestedCleanups(snap.cleanups)
  {
    hide CleanupActive, ObserveCleanups, HarvestedCleanups;
    harvested := ObserveCleanup(app, snap.cleanups, now);
    ghost var o := InMemory(api, app);
    var started := false;
    var a := app.annotations;
    var actions := [Request(CacheMode, a.cacheToken, a.cacheBy), Request(ReleasesMode, a.releasesToken, a.releasesBy)];
    for i := 0 to 2
      invariant i == 0 ==> InMemory(api, app) == o && !started
      invariant i == 1 ==> InMemory(api, app) == CleanupAct(o, snap, busy, false, CacheMode, now)
      invariant i == 1 ==> started == CleanupChoice(o, snap, busy, false, CacheMode).StartCleanup?
      invariant i == 2 ==> !stop && var first := CleanupAct(o, snap, busy, false, CacheMode, now);
                           InMemory(api, app) == CleanupAct(first, snap, busy,
                               CleanupChoice(o, snap, busy, false, CacheMode).StartCleanup?, ReleasesMode, now)
      invariant Loads(api, app)
    {
      if i == 1 && stop {
        return;
      }
      var r := actions[i];
      var active := IsCleanupActive(snap.cleanups);
      var st := Action(app.status, r.mode);
      match D.DecideCleanup(r.requestedAt, st.requestedAt, busy, active || started || r.mode in harvested)
      case StartCleanup =>
        StartCleanup(api, app, r, now);
        started := true;
      case WaitCleanup =>
        st := st.(phase := CleanupPending);
        if r.requestedBy != "" {
          st := st.(requestedBy := r.requestedBy);
        }
        app.status := WithAction(app.status, r.mode, st);
      case NoCleanup =>
    }
  }

  // ---- the pass ----

  method Fail(api: ApiServer, app: App, r: Rejection, fault: Fault, now: int) returns (reported: bool)
    modifies api`status, app`status
    ensures api.status == if fault.NoFault? then Rejected(old(app.status), r, now) else old(api.status)
    ensures reported == PlatformFault(r.reason, None)
  {
    app.SetCondition(Ready, false, r.reason, r.message, now);
    app.SetCondition(Degraded, true, r.reason, r.message, now);
    app.status := app.status.(phase := AppDegraded);
    reported := IsPlatformFault(r.reason, None);
    if fault.NoFault? {
      api.status := app.status;
    }
  }

  /** Background deletes, each of which may fail. */
  method DeleteJobs(api: ApiServer, measured: seq<Volume>, cleaned: seq<CleanupMode>, e: Env)
    modifies api`measures, api`cleanups
    ensures api.measures == old(api.measures) - ((set v | v in measured) - e.stuckMeasures)
    ensures api.cleanups == old(api.cleanups) - ((set m | m in cleaned) - e.stuckCleanups)
  {
    for i := 0 to |measured|
      invariant api.measures == old(api.measures) - ((set v | v in measured[..i]) - e.stuckMeasures)
      invariant api.cleanups == old(api.cleanups)
    {
      assert measured[..i + 1] == measured[..i] + [measured[i]];
      if measured[i] !in e.stuckMeasures {
        api.measures := api.measures - {measured[i]};
      }
    }
    assert measured[..|measured|] == measured;
    for i := 0 to |cleaned|
      invariant api.measures == old(api.measures) - ((set v | v in measured) - e.stuckMeasures)
      invariant api.cleanups == old(api.cleanups) - ((set m | m in cleaned[..i]) - e.stuckCleanups)
    {
      assert cleaned[..i + 1] == cleaned[..i] + [cleaned[i]];
      if cleaned[i] !in e.stuckCleanups {
        api.cleanups := api.cleanups - {cleaned[i]};
      }
    }
    assert cleaned[..|cleaned|] == cleaned;
  }

  /** One reconcile. */
  method ReconcileApp(api: ApiServer, e: Env)
    modifies api
    ensures api.View() == Reconcile(old(api.View()), e)
  {
    var snap := api.View();
    var app := new App(snap);
    if e.rejection.Some? {
      var _ := Fail(api, app, e.rejection.value, e.fault, e.now);
      return;
    }
    app.status := app.status.(specStale := app.spec.hash != app.status.lastBuiltHash);
    if e.fault.AtInfra? {
      return;
    }
    if PhaseOf(app.status) == AwaitingFirstBuild && app.annotations.token == "" {
      api.annotations := app.annotations.(token := e.seed, user := "", commit := "");
      return;
    }
    RunPass(api, app, snap, e);
  }

  method DecideAndStart(api: ApiServer, app: App, snap: Cluster, e: Env) returns (active: bool)
    requires Loads(api, app) && snap == api.View() && app.status == Loaded(snap).status
    modifies api`builds, app`status
    ensures InMemory(api, app) == AfterBuild(snap, e) && active == Busy(snap)
  {
    hide Operator.StartBuild, BuildActive;
    active := IsBuildActive(snap.builds);
    match D.DecideBuild(app.annotations.token, app.status.lastProcessed, active)
    case StartBuild =>
      StartBuild(api, app, e.now);
      active := true;
    case DeferBuild =>
    case NoBuild =>
  }

  method RunPass(api: ApiServer, app: App, snap: Cluster, e: Env)
    requires Loads(api, app) && snap == api.View() && app.status == Loaded(snap).status
    requires e.rejection.None? && !e.fault.AtInfra? && !NeedsSeed(snap)
    modifies api, app
    ensures api.View() == Reconcile(snap, e)
  {
    hide AfterBuild, Busy, Operator.ObserveBuild, ObserveMeasurements, ObserveCleanups, CleanupAct, CleanupActive,
      BuildActive, NeedsSeed, Starts, Committed, HarvestedCleanups, HarvestedMeasures, Status.RefreshPhase,
      Storage.Worst, MeasurementDue, Records;
    if e.fault.AtBuildDecision? {
      return;
    }
    var active := DecideAndStart(api, app, snap, e);
    if e.fault.AtObserve? {
      return;
    }
    ObserveBuild(api, app, snap.builds, e);
    assert InMemory(api, app) == AfterObserve(snap, e);
    if e.fault.AtMeasure? {
      return;
    }
    var measured := ObserveMeasurement(app, snap.measures, e.now);
    assert InMemory(api, app) == AfterMeasure(snap, e);
    if e.fault.AtCleanup? {
      return;
    }
    var cleaned := ReconcileCleanup(api, app, snap, active, e.fault.AtSecondCleanup?, e.now);
    if e.fault.AtSecondCleanup? {
      assert InMemory(api, app) == AfterCacheAction(snap, e);
      return;
    }
    assert InMemory(api, app) == AfterCleanup(snap, e);
    FinishPass(api, app, snap, measured, cleaned, e);
  }

  /** Threshold, phase, the status write, and only then the deletes. */
  method FinishPass(api: ApiServer, app: App, snap: Cluster, measured: seq<Volume>, cleaned: seq<CleanupMode>, e: Env)
    requires Loads(api, app) && app.spec == snap.spec
    requires forall v :: v in measured <==> v in HarvestedMeasures(snap.measures)
    requires forall m :: m in cleaned <==> m in HarvestedCleanups(snap.cleanups)
    requires e.fault.NoFault? || e.fault.AtStatusWrite?
    requires InMemory(api, app) == AfterCleanup(snap, e) && api.status == snap.status
    modifies api, app
    ensures api.View() == if e.fault.NoFault? then Committed(snap, e) else Dropped(snap, AfterCleanup(snap, e))
  {
    hide AfterCleanup, Status.RefreshPhase, Storage.Worst, HarvestedCleanups, HarvestedMeasures;
    var threshold := Storage.EvaluateThresholdState(app.status.storage.sizes, app.spec.storage);
    app.status := app.status.(storage := app.status.storage.(threshold := threshold));
    app.RefreshPhase(e.now);
    if e.fault.AtStatusWrite? {
      return;
    }
    api.status := app.status;
    assert (set v | v in measured) == HarvestedMeasures(snap.measures);
    assert (set m | m in cleaned) == HarvestedCleanups(snap.cleanups);
    DeleteJobs(api, measured, cleaned, e);
  }
}
