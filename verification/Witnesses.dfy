/** The states behind the scenarios do occur: each is reached by a run of a new App. */
module Witnesses {
  import opened Util
  import opened Status
  import opened Operator
  import opened Protocol
  import opened Invariant
  import opened Theorems
  import opened Convergence
  import opened Recovery
  import opened Scenarios
  import H = History
  import P = Pipeline
  import Storage

  const QUIET_ENV := Env(0, "seed", None, NoFault, {}, {}, None, false)

  lemma NewAppOf(pipeline: P.PipelineSpec) returns (w: World)
    ensures Initial(w) && Reachable(w) && w.c.annotations.token != "" && w.c.spec.pipeline == pipeline
    ensures w.c.annotations == Annotations("t", "", "", "", "", "", "")
  {
    var off := Storage.VolumeThresholds(0, 0, 0);
    var spec := AppSpec("h", pipeline, map[], Storage.StorageConfig(off, off, off), 1, 1, 1);
    var c := Cluster("app", spec, Annotations("t", "", "", "", "", "", ""), NEW_STATUS, map[], {}, map[], map[], 0);
    w := World(c, EMPTY_LOG.(used := {"t"}));
    assert RunTo([w], [], w);
  }

  lemma NewApp() returns (w: World)
    ensures Initial(w) && Reachable(w) && w.c.annotations.token != "" && !P.SetupRuns(w.c.spec.pipeline)
    ensures w.c.annotations == Annotations("t", "", "", "", "", "", "")
  {
    hide Initial, Reachable;
    var phase := P.PhaseSpec("", []);
    w := NewAppOf(P.PipelineSpec(false, phase, phase, 0));
  }

  lemma Settled() returns (w: World)
    ensures Reachable(w) && Converged(w.c)
  {
    hide Reachable, Converged, Calmly;
    var w0 := NewApp();
    AlwaysRecoverable(w0);
    w :| Calmly(w0, 13, w) && Converged(w.c);
    CalmlyReachable(w0, 13, w);
  }

  // ---- a cache cleanup from request to result ----

  lemma AskForCache(w: World) returns (r: World)
    requires Reachable(w) && Converged(w.c)
    ensures Reachable(r) && OnlyCacheAsked(r.c) && CacheMode !in r.c.cleanups && r.c.status == w.c.status
  {
    hide Reachable, PhaseOf, AllFinished;
    var t := Action(w.c.status, CacheMode).requestedAt + "+";
    var v := RequestCleanup(CacheMode, t, "");
    ReachableStep(w, v);
    r := Next(w, v);
    ConvergedSeeded(w.c);
    SameWork(w.c, r.c);
  }

  lemma ConvergedSeeded(c: Cluster)
    requires Converged(c)
    ensures BuildWork(c) == 0
  {}

  lemma SameWork(c: Cluster, d: Cluster)
    requires d.annotations.token == c.annotations.token && d.status == c.status
    requires d.builds == c.builds && d.cleanups == c.cleanups && d.measures == c.measures
    ensures BuildWork(d) == BuildWork(c) && AllFinished(d) == AllFinished(c)
  {}

  /** The cache cleanup runs, under its request, and nothing else is left. */
  ghost predicate CacheRunning(c: Cluster) {
    && BuildWork(c) == 0 && !BuildActive(c.builds) && !MeasureActive(c.measures)
    && Running(c.cleanups, CacheMode) && ReleasesMode !in c.cleanups
    && c.status.cache.phase == CleanupRunning && !Asked(c, CacheMode) && !Asked(c, ReleasesMode)
  }

  lemma StartCache(w: World) returns (r: World)
    requires Reachable(w) && OnlyCacheAsked(w.c) && CacheMode !in w.c.cleanups
    ensures Reachable(r) && CacheRunning(r.c)
  {
    hide Reachable, Reconcile, OnlyCacheAsked, Inv, NeedsSeed, NextLog, CacheRunning;
    ReachableInv(w);
    InvGrounds(w);
    PastSeeding(w.c);
    ReachableStep(w, Operate(QUIET_ENV));
    r := Next(w, Operate(QUIET_ENV));
    CacheStarts(w.c, QUIET_ENV);
  }

  lemma CacheStarts(c: Cluster, e: Env)
    requires OnlyCacheAsked(c) && Grounded(c) && Calm(e) && CacheMode !in c.cleanups
    ensures CacheRunning(Reconcile(c, e))
  {
    hide Reconcile, AfterBuild, Records, NeedsSeed, Grounded, StartsCache, StartsReleases;
    PastSeeding(c);
    CalmBuild(c, e);
    CalmStarts(c, e);
    CalmCleanup(c, e, CacheMode);
    CalmCleanup(c, e, ReleasesMode);
    CalmMeasures(c, e);
    BuildsAfter(c, e);
    CleanupsAfter(c, e);
    ActionAfter(c, e, CacheMode);
  }

  lemma FinishCache(w: World) returns (r: World)
    requires Reachable(w) && w.c.status.cache.phase == CleanupRunning && Running(w.c.cleanups, CacheMode)
    ensures Reachable(r) && ReadsResult(r.c.status, r.c.cleanups, CacheMode)
    ensures r.c == w.c.(cleanups := r.c.cleanups) && r.c.cleanups.Keys == w.c.cleanups.Keys && r.log == w.log
  {
    hide Reachable, Reconcile;
    var v := FinishCleanup(CacheMode, JobComplete, None);
    ReachableStep(w, v);
    r := Next(w, v);
  }

  lemma CacheEnds(c: Cluster, e: Env)
    requires Grounded(c) && Calm(e) && BuildWork(c) == 0 && AllFinished(c) && ReleasesMode !in c.cleanups
    requires ReadsResult(c.status, c.cleanups, CacheMode) && !Asked(c, CacheMode) && !Asked(c, ReleasesMode)
    ensures var r := Reconcile(c, e);
            && ActionEnded(r.status.cache) && r.cleanups == map[] && AllFinished(r) && BuildWork(r) == 0
            && !Asked(r, ReleasesMode) && r.annotations == c.annotations
  {
    hide Reconcile, AfterBuild, Records, Grounded, StartsCache, StartsReleases, ReadsResult;
    assert !NeedsSeed(c);
    CalmBuild(c, e);
    CalmStarts(c, e);
    CalmCleanup(c, e, CacheMode);
    CalmCleanup(c, e, ReleasesMode);
    CalmMeasures(c, e);
    BuildsAfter(c, e);
    WaitsIffAsked(c, e, CacheMode);
    var r := Reconcile(c, e);
    assert r.cleanups == map[] by {
      forall m ensures m !in r.cleanups { assert m == CacheMode || m == ReleasesMode; }
    }
  }

  /** An App at rest whose cache cleanup has ended and which is asked for another. */
  lemma AskAgain() returns (w: World)
    ensures Reachable(w) && OnlyCacheAsked(w.c) && CacheMode !in w.c.cleanups && ActionEnded(w.c.status.cache)
  {
    hide Reachable, Reconcile, Inv, CacheRunning, Converged, ReadsResult, Grounded, OnlyCacheAsked, NeedsSeed, NextLog;
    var rest := Settled();
    var asked := AskForCache(rest);
    var started := StartCache(asked);
    var ended := EndCache(started);
    var v := RequestCleanup(CacheMode, ended.c.status.cache.requestedAt + "+", "");
    ReachableStep(ended, v);
    w := Next(ended, v);
    assert OnlyCacheAsked(w.c) by { AskedAgain(ended.c, w.c); }
  }

  lemma AskedAgain(c: Cluster, d: Cluster)
    requires c.cleanups == map[] && AllFinished(c) && BuildWork(c) == 0 && !Asked(c, ReleasesMode)
    requires d == c.(annotations := c.annotations.(cacheToken := d.annotations.cacheToken, cacheBy := ""))
    requires d.annotations.cacheToken == c.status.cache.requestedAt + "+"
    ensures OnlyCacheAsked(d)
  {
    SameWork(c, d);
  }

  lemma EndCache(w: World) returns (r: World)
    requires Reachable(w) && CacheRunning(w.c)
    ensures Reachable(r) && ActionEnded(r.c.status.cache) && r.c.cleanups == map[] && AllFinished(r.c)
    ensures BuildWork(r.c) == 0 && !Asked(r.c, ReleasesMode)
  {
    hide Reachable, Reconcile, Inv, ReadsResult, Grounded, NeedsSeed, NextLog;
    var done := FinishCache(w);
    CacheFinished(w.c, done.c);
    ReachableInv(done);
    InvGrounds(done);
    ReachableStep(done, Operate(QUIET_ENV));
    r := Next(done, Operate(QUIET_ENV));
    CacheEnds(done.c, QUIET_ENV);
  }

  lemma CacheFinished(c: Cluster, d: Cluster)
    requires CacheRunning(c) && d == c.(cleanups := d.cleanups) && d.cleanups.Keys == c.cleanups.Keys
    requires ReadsResult(d.status, d.cleanups, CacheMode)
    ensures AllFinished(d) && !NeedsSeed(d) && BuildWork(d) == 0 && ReleasesMode !in d.cleanups
    ensures !Asked(d, CacheMode) && !Asked(d, ReleasesMode)
  {
    assert forall m :: m in d.cleanups ==> m in d.cleanups.Keys && m == CacheMode;
  }

  // ---- what happens ----

  /** A build and a cleanup run at the same time. */
  lemma BuildAndCleanupRunTogether()
    ensures exists w :: Reachable(w) && BuildActive(w.c.builds) && CleanupActive(w.c.cleanups)
  {
    hide Reachable, Reconcile, Inv, Converged, OnlyCacheAsked, Grounded, BuildActive, NextLog;
    var rest := Settled();
    var asked := AskForCache(rest);
    var w := StartCache(asked);
    ReachableInv(w);
    var u := FreshToken(w.log.used);
    var patched := Next(w, Patch(u, "", ""));
    ReachableStep(w, Patch(u, "", ""));
    FreshJob(w, u);
    PatchStarts(w.c, patched.c, u);
    ReachableStep(patched, Operate(QUIET_ENV));
    BuildStartsDespiteCleanup(patched.c, QUIET_ENV, CacheMode);
    assert Reachable(Next(patched, Operate(QUIET_ENV)));
  }

  lemma FreshJob(w: World, u: string)
    requires Inv(w) && u !in w.log.used && u != ""
    ensures BuildJobName(w.c.name, u) !in w.c.builds && u != w.c.status.lastProcessed
  {
    if BuildJobName(w.c.name, u) in w.c.builds {
      FreshTokenUncreated(w, u, BuildJobName(w.c.name, u));
    }
  }

  lemma PatchStarts(c: Cluster, d: Cluster, u: string)
    requires CacheRunning(c) && u != "" && u != c.status.lastProcessed
    requires d == c.(annotations := c.annotations.(token := u, user := "", commit := ""))
    ensures Starts(d) && !NeedsSeed(d) && CacheMode in d.cleanups && d.cleanups[CacheMode].finish.Unfinished?
  {}

  /** A cleanup Job is deleted and its result never enters status: its start was lost to a
      conflict over an action that had ended before. */
  lemma ResultDroppedUnread()
    ensures exists w, e, m ::
              && Reachable(w) && Enabled(w, Operate(e)) && m in w.c.cleanups && Asked(w.c, m)
              && m !in Next(w, Operate(e)).c.cleanups
              && w.c.cleanups[m].uid !in Next(w, Operate(e)).log.resulted
  {
    hide Reachable, Reconcile, Inv, OnlyCacheAsked, Grounded, NeedsSeed, ActionEnded, NextLog;
    var w0 := AskAgain();
    var w := LoseStart(w0);
    ReachableInv(w);
    PastSeeding(w.c);
    var e := QUIET_ENV;
    HarvestedGo(w.c, e, CacheMode);
    CleanupDurableBeforeDelete(w, e, CacheMode);
    assert Reachable(w) && Enabled(w, Operate(e));
  }

  /** The start of a cache cleanup conflicts, and its Job finishes. */
  lemma LoseStart(w: World) returns (r: World)
    requires Reachable(w) && OnlyCacheAsked(w.c) && CacheMode !in w.c.cleanups
    ensures Reachable(r) && OnlyCacheAsked(r.c) && r.c.status == w.c.status && Asked(r.c, CacheMode)
    ensures CacheMode in r.c.cleanups && !r.c.cleanups[CacheMode].finish.Unfinished?
    ensures r.c.cleanups[CacheMode].uid !in r.log.resulted
  {
    hide Reachable, Reconcile, Grounded, NeedsSeed, NextLog, Inv, OnlyCacheAsked, AllFinished;
    var e := QUIET_ENV.(fault := AtStatusWrite);
    ReachableInv(w);
    InvGrounds(w);
    PastSeeding(w.c);
    ConflictedStart(w.c, e);
    ReachableStep(w, Operate(e));
    var w1 := Next(w, Operate(e));
    ConflictKeepsResults(w, e);
    var v := FinishCleanup(CacheMode, JobComplete, None);
    ReachableStep(w1, v);
    r := Next(w1, v);
    OnlyCacheJob(w.c);
    StillOnlyCache(w.c, r.c);
    FinishKeepsLog(w1, v);
  }

  lemma ConflictKeepsResults(w: World, e: Env)
    requires Inv(w) && e.rejection.None? && e.fault.AtStatusWrite?
    ensures NextLog(w, Operate(e)).resulted == w.log.resulted && w.c.nextUid !in w.log.resulted
  {
    hide JobsInv, ActiveInv, StatusInv, LedgerInv, Recording, Creates, Seeds;
  }

  lemma FinishKeepsLog(w: World, v: Event)
    requires v.FinishCleanup?
    ensures NextLog(w, v) == w.log
  {}

  lemma OnlyCacheJob(c: Cluster)
    requires OnlyCacheAsked(c)
    ensures Asked(c, CacheMode) && ReleasesMode !in c.cleanups
  {}

  /** One request runs two Jobs, and status shows the result of neither the first nor, yet, the
      second: it still shows the cleanup before. */
  lemma RequestRunsTwice()
    ensures exists w, w1, w2, w3, w4 ::
              && Reachable(w) && ActionEnded(w.c.status.cache) && Asked(w.c, CacheMode)
              && Step(w, Operate(QUIET_ENV.(fault := AtStatusWrite)), w1)
              && Step(w1, FinishCleanup(CacheMode, JobComplete, None), w2)
              && Step(w2, Operate(QUIET_ENV), w3)
              && Step(w3, Operate(QUIET_ENV), w4)
              && CacheMode in w1.c.cleanups && CacheMode in w4.c.cleanups
              && w1.c.cleanups[CacheMode].uid < w4.c.cleanups[CacheMode].uid
              && w4.c.annotations == w.c.annotations && w3.c.status.cache.message == w.c.status.cache.message
  {
    hide Reachable, Inv, Step, ActionEnded;
    var w := AskAgain();
    ReachableInv(w);
    ConflictedCleanupRunsTwice(w, JobComplete, None, QUIET_ENV);
  }

  /** A cleanup result is read and stamped twice. */
  lemma ResultReadTwice()
    ensures exists w, e, m ::
              && Reachable(w) && Enabled(w, Operate(e)) && Persists(w.c, e)
              && ReadsResult(w.c.status, w.c.cleanups, m)
              && ReadsResult(Next(w, Operate(e)).c.status, Next(w, Operate(e)).c.cleanups, m)
  {
    hide Reachable, Reconcile, Inv, Converged, OnlyCacheAsked, Grounded, ReadsResult, NextLog;
    var rest := Settled();
    var asked := AskForCache(rest);
    var started := StartCache(asked);
    var v := RequestCleanup(CacheMode, started.c.status.cache.requestedAt + "+", "");
    ReachableStep(started, v);
    var again := Next(started, v);
    var w := FinishCache(again);
    assert !NeedsSeed(w.c) by { SameWork(started.c, again.c); }
    var e := QUIET_ENV.(stuckCleanups := {CacheMode});
    assert Asked(w.c, CacheMode);
    HeldRequestRereads(w.c, e, CacheMode);
    assert Next(w, Operate(e)).c == Reconcile(w.c, e);
    assert Reachable(w) && Enabled(w, Operate(e)) && Persists(w.c, e);
  }

  /** A cleared rebuild annotation gets a build of its own. */
  lemma EmptyTokenIsBuilt()
    ensures exists w ::
              Reachable(w) && w.c.annotations.token == "" && w.c.status.build.jobName == BuildJobName(w.c.name, "")
  {
    hide Reachable, Reconcile, Inv, PhaseOf, Initial, Recording, Creates, NewUids, ResultUids, AfterObserve,
      AfterCleanup;
    var w0 := NewApp();
    FirstPass(w0, QUIET_ENV);
    var n, w1 := NextJob(w0.c), Next(w0, Operate(QUIET_ENV));
    ReachableStep(w0, Operate(QUIET_ENV));
    var w2 := Next(w1, Patch("", "", ""));
    ReachableStep(w1, Patch("", "", ""));
    var w3 := Next(w2, FinishBuild(n, JobComplete));
    ReachableStep(w2, FinishBuild(n, JobComplete));
    assert !NeedsSeed(w3.c) by { PendingIsSeeded(w3.c); }
    ReachableStep(w3, Operate(QUIET_ENV));
    ClearedTokenStartsBuild(w3.c, QUIET_ENV);
    BuildsAfter(w3.c, QUIET_ENV);
    assert Reachable(Next(w3, Operate(QUIET_ENV)));
  }

  lemma PendingIsSeeded(c: Cluster)
    requires c.status.build.phase == BuildPending
    ensures !NeedsSeed(c)
  {}

  /** The timeline on display is not linear and points the console to a container that does not
      exist: setup was configured while a build without it was running. */
  lemma TimelineBreaks()
    ensures exists w, n, pod ::
              && Reachable(w) && n == w.c.status.build.jobName && n in w.c.builds && w.c.builds[n].pod == Some(pod)
              && !P.Linear(w.c.status.build.steps)
              && P.Chosen(P.ContainerSteps(w.c.status.build.steps)) == P.Setup && P.Lookup(pod, P.Setup) == None
  {
    hide Reachable, Reconcile, Inv, PhaseOf, Initial, P.Linear, P.Chosen, P.ContainerSteps, P.DeriveSteps, P.Reports,
      P.Seen, P.Lookup;
    var w0 := NewApp();
    FirstPass(w0, QUIET_ENV);
    var n, w1 := NextJob(w0.c), Next(w0, Operate(QUIET_ENV));
    ReachableStep(w0, Operate(QUIET_ENV));
    var p := w0.c.spec.pipeline;
    var pod, run := P.PodBeforeCopier(p, []);
    P.BrokenByEdit(p, [], "image", pod, run);
    var q := p.(skipSetup := false, setup := P.PhaseSpec("image", []));
    var w2 := Next(w1, UpdatePod(n, Some(pod)));
    ReachableStep(w1, UpdatePod(n, Some(pod)));
    var w3 := Next(w2, EditSpec(w0.c.spec.(pipeline := q)));
    ReachableStep(w2, EditSpec(w0.c.spec.(pipeline := q)));
    assert !NeedsSeed(w3.c) by { PendingIsSeeded(w3.c); }
    ReachableStep(w3, Operate(QUIET_ENV));
    var w := Next(w3, Operate(QUIET_ENV));
    StepsOnDisplay(w3.c, QUIET_ENV, n, pod);
    assert Reachable(w) && w.c.builds[n].pod == Some(pod);
  }

  /** A pass over a running build shows the pod through the live spec. */
  lemma StepsOnDisplay(c: Cluster, e: Env, n: string, pod: P.Pod)
    requires Persists(c, e) && n != "" && c.status.build.jobName == n && c.status.build.phase == BuildPending
    requires n in c.builds && c.builds[n].finish.Unfinished? && c.builds[n].pod == Some(pod)
    ensures Reconcile(c, e).status.build.steps == P.DeriveSteps(P.ApplicableSteps(c.spec.pipeline), Some(pod), false)
    ensures Reconcile(c, e).status.build.jobName == n && Reconcile(c, e).builds == c.builds
  {
    hide Reconcile, AfterCleanup, AfterMeasure, RecordOutcome, P.DeriveSteps;
    BuildsAfter(c, e);
    StatusAfter(c, e);
    DecidedBuild(c, e);
  }

  /** A pass that records the end of the Job status names. */
  lemma EndRecorded(w: World, e: Env, n: string)
    requires Persists(w.c, e) && n != "" && w.c.status.build.jobName == n && w.c.status.build.phase == BuildPending
    requires w.c.status.lastProcessed == w.c.annotations.token
    requires n in w.c.builds && !w.c.builds[n].finish.Unfinished?
    ensures Recording(w.c, e) && Reconcile(w.c, e).builds == w.c.builds
    ensures AfterObserve(w.c, e).status.build == TerminalBuild(w.c.status.build, w.c.spec, w.c.builds[n], e.now)
    ensures AfterObserve(w.c, e).status.lastProcessed == w.c.status.lastProcessed
    ensures RecordedJob(w.c, e) == w.c.builds[n]
  {
    hide Reconcile, AfterCleanup, AfterMeasure, TerminalBuild;
    BuildsAfter(w.c, e);
    DecidedBuild(w.c, e);
  }

  lemma SkippedSetup(p: P.PipelineSpec)
    requires p.skipSetup
    ensures P.Setup !in P.ApplicableSteps(p)
  {}

  /** Setup breaks and is edited out of the spec before the operator sees the end of the build. */
  lemma BrokenSetupEditedOut(p: P.PipelineSpec) returns (w: World, n: string)
    ensures Reachable(w) && n == w.c.status.build.jobName != "" && w.c.status.build.phase == BuildPending
    ensures w.c.status.build.termination == None && w.c.status.lastProcessed == w.c.annotations.token
    ensures n in w.c.builds && w.c.builds[n].finish.JobFailed? && w.c.builds[n].pod == Some(P.BROKEN_SETUP)
    ensures w.c.spec.pipeline == p.(skipSetup := true) && w.log.recorded == []
  {
    hide Reachable, Reconcile, PhaseOf, Initial, AfterObserve, NewUids, ResultUids, Recording, Creates, Seeds;
    var w0 := NewAppOf(p);
    n := NextJob(w0.c);
    FirstPass(w0, QUIET_ENV);
    var w1 := Next(w0, Operate(QUIET_ENV));
    ReachableStep(w0, Operate(QUIET_ENV));
    var w2 := Next(w1, UpdatePod(n, Some(P.BROKEN_SETUP)));
    ReachableStep(w1, UpdatePod(n, Some(P.BROKEN_SETUP)));
    var w3 := Next(w2, FinishBuild(n, JobFailed("")));
    ReachableStep(w2, FinishBuild(n, JobFailed("")));
    var v := EditSpec(w3.c.spec.(pipeline := p.(skipSetup := true)));
    w := Next(w3, v);
    ReachableStep(w3, v);
  }

  /** The user's setup broke, and the failure is reported as the platform's. */
  lemma WronglyReported()
    ensures exists w, n, pod ::
              && Reachable(w) && n in w.c.builds && w.c.builds[n].pod == Some(pod) && P.Broke(P.Seen(pod, P.Setup))
              && w.log.recorded != []
              && var rec := w.log.recorded[|w.log.recorded| - 1];
                 rec.jobName == n && PlatformFault(OutcomeReason(rec), rec.failedStep)
  {
    hide Reachable, Reconcile, PhaseOf, AfterObserve, NewUids, ResultUids, Recording, Creates, P.Reports, P.Sequential,
      P.Seen, P.Broke, PlatformFault, OutcomeReason, TerminalBuild, P.Containers, P.ApplicableSteps;
    var phase := P.PhaseSpec("image", []);
    var p := P.PipelineSpec(false, phase, phase, 0);
    var w0, n := BrokenSetupEditedOut(p);
    PendingIsSeeded(w0.c);
    EndRecorded(w0, QUIET_ENV, n);
    var w := Next(w0, Operate(QUIET_ENV));
    ReachableStep(w0, Operate(QUIET_ENV));
    var run := P.SetupBreaks(p, []);
    SkippedSetup(w0.c.spec.pipeline);
    BrokenContainerBlamed(w0.c.status.build, w0.c.spec, w0.c.builds[n], 0, p, [], run, 2);
    assert w.log.recorded == [] + [AfterObserve(w0.c, QUIET_ENV).status.build];
    assert Reachable(w) && w.c.builds[n].pod == Some(P.BROKEN_SETUP);
  }

  /** A build runs into its deadline, its pod is gone, and the failure is reported as the platform's. */
  lemma TimeoutReported()
    ensures exists w, n ::
              && Reachable(w) && n in w.c.builds && w.c.builds[n].finish == JobFailed("DeadlineExceeded")
              && w.c.builds[n].pod == None && w.log.recorded != []
              && var rec := w.log.recorded[|w.log.recorded| - 1];
                 rec.jobName == n && PlatformFault(OutcomeReason(rec), rec.failedStep)
  {
    hide Reachable, Reconcile, PhaseOf, Initial, AfterObserve, NewUids, ResultUids, Recording, Creates, PlatformFault,
      OutcomeReason, TerminalBuild;
    var w0 := NewApp();
    FirstPass(w0, QUIET_ENV);
    var n, w1 := NextJob(w0.c), Next(w0, Operate(QUIET_ENV));
    ReachableStep(w0, Operate(QUIET_ENV));
    var v := FinishBuild(n, JobFailed("DeadlineExceeded"));
    var w2 := Next(w1, v);
    ReachableStep(w1, v);
    PendingIsSeeded(w2.c);
    EndRecorded(w2, QUIET_ENV, n);
    var w := Next(w2, Operate(QUIET_ENV));
    ReachableStep(w2, Operate(QUIET_ENV));
    UnexplainedFailure(w2.c.status.build, w2.c.spec, w2.c.builds[n], 0, w2.c.spec.pipeline, [], []);
    assert w.log.recorded == [] + [AfterObserve(w2.c, QUIET_ENV).status.build];
    assert Reachable(w) && w.c.builds[n].pod == None;
  }

  // ---- Ready and Degraded ----

  lemma EndLogged(w: World, e: Env)
    requires Recording(w.c, e)
    ensures var log, rec := NextLog(w, Operate(e)), AfterObserve(w.c, e).status.build;
            && log.recorded == w.log.recorded + [rec] && log.used == w.log.used
            && log.verdicts == w.log.verdicts + [!RecordedJob(w.c, e).finish.JobComplete?]
  {
    hide AfterObserve, NewUids, ResultUids, Creates, Reconcile, AfterBuild, NeedsSeed;
  }

  /** Where a recording pass leads: a terminal record, the verdict on it, and the phase that follows. */
  lemma EndShown(w: World, n: string) returns (r: World)
    requires Reachable(w) && n != "" && w.c.status.build.jobName == n && w.c.status.build.phase == BuildPending
    requires w.c.status.lastProcessed == w.c.annotations.token
    requires n in w.c.builds && !w.c.builds[n].finish.Unfinished?
    ensures var ok := w.c.builds[n].finish.JobComplete?;
            && Enabled(w, Operate(QUIET_ENV)) && r == Next(w, Operate(QUIET_ENV)) && Reachable(r)
            && r.c.status.build.jobName == n && r.c.status.phase == (if ok then AppReady else AppDegraded)
            && r.c.builds == w.c.builds && r.c.annotations == w.c.annotations && r.c.name == w.c.name
            && r.c.status.lastProcessed == w.c.status.lastProcessed && r.log.used == w.log.used
            && (ok ==> AnySuccess(r.log.recorded))
            && (Holds(r.c.status.conditions, Ready) <==> ok || Holds(w.c.status.conditions, Ready))
            && (Holds(r.c.status.conditions, Degraded) <==> !ok)
            && (r.log.verdicts != [] && r.log.verdicts[|r.log.verdicts| - 1] <==> !ok)
  {
    hide Reachable, Reconcile, PhaseOf, AfterObserve, NextLog, Holds, Recording, Creates, P.DeriveSteps, P.FailedStep,
      DetectTermination, StampMessage, AnySuccess;
    var e := QUIET_ENV;
    PendingIsSeeded(w.c);
    EndRecorded(w, e, n);
    EndLogged(w, e);
    r := Next(w, Operate(e));
    ReachableStep(w, Operate(e));
    BuildsAfter(w.c, e);
    StatusAfter(w.c, e);
    ReadyMoves(w.c, e);
    PersistedPhase(w.c, e);
    PhaseTellsTheStory(r);
    DegradedIsLatestVerdict(r);
    PushSuccess(w.log.recorded, AfterObserve(w.c, e).status.build);
  }

  /** A pass that starts the next build after a success keeps showing Ready. */
  lemma StartShown(w: World) returns (r: World)
    requires Reachable(w) && Starts(w.c) && NextJob(w.c) !in w.c.builds && w.c.annotations.token != ""
    requires AnySuccess(w.log.recorded) && !(w.log.verdicts != [] && w.log.verdicts[|w.log.verdicts| - 1])
    ensures Reachable(r) && r.c.status.build.jobName == NextJob(w.c) && r.c.status.build.phase == BuildPending
    ensures r.c.status.lastProcessed == r.c.annotations.token && Holds(r.c.status.conditions, Ready)
    ensures NextJob(w.c) in r.c.builds && r.c.builds[NextJob(w.c)].finish.Unfinished?
  {
    hide Reachable, Reconcile, PhaseOf, NewUids, ResultUids, Holds, RecordOutcome, AfterCleanup, H.NotIn;
    var e := QUIET_ENV;
    r := Next(w, Operate(e));
    ReachableStep(w, Operate(e));
    BuildsAfter(w.c, e);
    StatusAfter(w.c, e);
    DecidedBuild(w.c, e);
    ReadyMoves(w.c, e);
    PersistedPhase(w.c, e);
    PhaseTellsTheStory(r);
  }

  /** Ready and Degraded both hold: a build started after a success was not seen running before it
      was seen failed, and neither pass clears Ready. */
  lemma ReadyAndDegraded()
    ensures exists w ::
              Reachable(w) && Holds(w.c.status.conditions, Ready) && Holds(w.c.status.conditions, Degraded)
                  && w.c.status.phase == AppDegraded
  {
    hide Reachable, Reconcile, PhaseOf, Initial, Recording, Creates, NewUids, ResultUids, AfterObserve, Holds,
      AnySuccess;
    var w0 := NewApp();
    var n := NextJob(w0.c);
    FirstPass(w0, QUIET_ENV);
    var w1 := Next(w0, Operate(QUIET_ENV));
    ReachableStep(w0, Operate(QUIET_ENV));
    var w2 := Next(w1, FinishBuild(n, JobComplete));
    ReachableStep(w1, FinishBuild(n, JobComplete));
    var w3 := EndShown(w2, n);
    var w := BreaksNext(w3, n);
  }

  lemma BreaksNext(w: World, n: string) returns (r: World)
    requires Reachable(w) && w.c.builds.Keys == {n} && !w.c.builds[n].finish.Unfinished?
    requires n == BuildJobName(w.c.name, "t") && w.c.status.lastProcessed == "t" && w.log.used == {"t"}
    requires AnySuccess(w.log.recorded) && !(w.log.verdicts != [] && w.log.verdicts[|w.log.verdicts| - 1])
    ensures Reachable(r) && Holds(r.c.status.conditions, Ready) && Holds(r.c.status.conditions, Degraded)
        && r.c.status.phase == AppDegraded
  {
    hide Reachable, Reconcile, PhaseOf, Recording, Creates, NewUids, ResultUids, AfterObserve, Holds, AnySuccess;
    var w1 := Next(w, Patch("u", "", ""));
    ReachableStep(w, Patch("u", "", ""));
    BuildJobNameInjective(w.c.name, "t", "u");
    assert forall m :: m in w1.c.builds ==> m in w1.c.builds.Keys;
    var m := NextJob(w1.c);
    var w2 := StartShown(w1);
    var w3 := Next(w2, FinishBuild(m, JobFailed("")));
    ReachableStep(w2, FinishBuild(m, JobFailed("")));
    r := EndShown(w3, m);
  }

  // ---- observed, but not recorded ----

  /** A pass that sees a success and loses its status write leaves a TTL and nothing else. */
  lemma LostObservation(c: Cluster, e: Env, n: string)
    requires Passes(c, e) && e.fault.AtStatusWrite? && !e.ttlFails && n in c.builds && c.builds[n].finish.JobComplete?
    requires if Starts(c) then n == NextJob(c) else n == c.status.build.jobName != "" && !Terminal(c.status.build)
    ensures var r := Reconcile(c, e);
            && n in r.expiring && r.status == c.status && r.builds == c.builds
            && r.annotations == c.annotations && r.name == c.name
    ensures !Creates(c, e) && !Recording(c, e)
  {
    hide Reconcile;
    ExpiringAfter(c, e);
    BuildsAfter(c, e);
    StatusAfter(c, e);
    DecidedBuild(c, e);
  }

  /** The first build succeeds, and the pass that sees it loses its write. */
  lemma SeenUnrecorded() returns (w: World, n: string)
    ensures Reachable(w) && n in w.c.expiring && n in w.c.builds && !WasRecorded(w.log, n)
    ensures w.c.status.build.jobName == n && !Terminal(w.c.status.build)
    ensures w.c.status.lastProcessed == w.c.annotations.token
  {
    hide Reachable, Reconcile, PhaseOf, Recording, Creates, NewUids, ResultUids, AfterObserve;
    var e := QUIET_ENV.(fault := AtStatusWrite);
    var w0 := NewApp();
    n := NextJob(w0.c);
    FirstPass(w0, QUIET_ENV);
    ReachableStep(w0, Operate(QUIET_ENV));
    var w1 := Next(w0, Operate(QUIET_ENV));
    var w2 := Next(w1, FinishBuild(n, JobComplete));
    ReachableStep(w1, FinishBuild(n, JobComplete));
    PendingIsSeeded(w2.c);
    LostObservation(w2.c, e, n);
    w := Next(w2, Operate(e));
    ReachableStep(w2, Operate(e));
  }

  /** A Job may carry a TTL before its outcome is recorded. */
  lemma TtlWithoutRecord()
    ensures exists w, n :: Reachable(w) && n in w.c.expiring && !WasRecorded(w.log, n)
  {
    hide Reachable, WasRecorded;
    var w, n := SeenUnrecorded();
  }

  /** And then expire: status shows a build in flight for good. */
  lemma DeadEndHappens()
    ensures exists w :: Reachable(w) && DeadEnd(w.c)
  {
    hide Reachable, Reconcile, NextLog, WasRecorded;
    var w, n := SeenUnrecorded();
    ReachableInv(w);
    assert !w.c.builds[n].finish.Unfinished? by { ExpiringAreFinished(w, n); }
    ReachableStep(w, ReapBuild(n));
    assert Reachable(Next(w, ReapBuild(n)));
  }

  lemma ExpiringAreFinished(w: World, n: string)
    requires Inv(w) && n in w.c.expiring
    ensures n in w.c.builds && w.c.builds[n].finish.JobComplete?
  {
    hide JobsInv, ActiveInv, StatusInv, LedgerInv, CleanupInv, PhaseInv;
  }

  /** The pass that creates the first build's Job loses its write, and the Job finishes. */
  lemma UnadoptedFirst(finish: Finish) returns (w: World, n: string)
    requires !finish.Unfinished?
    ensures Reachable(w) && w.c.status == NEW_STATUS && n == NextJob(w.c) && w.c.annotations.token != ""
    ensures w.c.builds == map[n := NewBuildJob(w.c.spec).(finish := finish)] && w.log.created == [n]
  {
    hide Reachable, Reconcile, PhaseOf, Recording, Creates, NewUids, ResultUids, AfterObserve;
    var e := QUIET_ENV.(fault := AtStatusWrite);
    var w0 := NewApp();
    n := NextJob(w0.c);
    ConflictedFirstPass(w0, e);
    BuildsAfter(w0.c, e);
    ReachableStep(w0, Operate(e));
    var w1 := Next(w0, Operate(e));
    w := Next(w1, FinishBuild(n, finish));
    ReachableStep(w1, FinishBuild(n, finish));
  }

  lemma StartsUnadopted(c: Cluster)
    requires c.status == NEW_STATUS && c.annotations.token != ""
    requires forall m :: m in c.builds ==> !c.builds[m].finish.Unfinished?
    ensures Starts(c) && !NeedsSeed(c)
  {}

  /** One token, two Jobs: the first one expired before a pass adopted it into status. */
  lemma TokenBuiltTwice()
    ensures exists w, i: nat, j: nat :: Reachable(w) && i < j < |w.log.created| && w.log.created[i] == w.log.created[j]
  {
    hide Reachable, Reconcile, Recording, NewUids, ResultUids, AfterObserve, WasRecorded, PhaseOf, NewBuildJob, Starts,
      DeadEnd;
    var e := QUIET_ENV.(fault := AtStatusWrite);
    var w0, n := UnadoptedFirst(JobComplete);
    StartsUnadopted(w0.c);
    LostObservation(w0.c, e, n);
    var w1 := Next(w0, Operate(e));
    ReachableStep(w0, Operate(e));
    var w2 := Next(w1, ReapBuild(n));
    ReachableStep(w1, ReapBuild(n));
    assert w2.c.builds == map[];
    StartsUnadopted(w2.c);
    var w := Next(w2, Operate(QUIET_ENV));
    ReachableStep(w2, Operate(QUIET_ENV));
    assert w.log.created == [n] + [n];
    assert Reachable(w) && w.log.created[0] == w.log.created[1];
  }

  /** The images on record are not those the build ran with: the spec was edited between the
      pass that created the Job and the one that adopted it. */
  lemma OtherImages()
    ensures exists w, e ::
              && Reachable(w) && Enabled(w, Operate(e)) && Persists(w.c, e) && Starts(w.c)
              && var r := Next(w, Operate(e)).c;
                 r.status.build.jobName in r.builds
                     && r.status.build.images != r.builds[r.status.build.jobName].images
  {
    hide Reachable, Reconcile, NextLog;
    var e := QUIET_ENV;
    var w0, n := UnadoptedFirst(JobComplete);
    var other := if P.Build in w0.c.spec.images then map[] else w0.c.spec.images[P.Build := "other"];
    var v := EditSpec(w0.c.spec.(images := other));
    var w := Next(w0, v);
    ReachableStep(w0, v);
    StartsUnadopted(w.c);
    AdoptedImages(w.c, e);
    assert other != w0.c.spec.images;
    assert Next(w, Operate(e)).c == Reconcile(w.c, e);
    assert Reachable(w) && Enabled(w, Operate(e)) && Persists(w.c, e);
  }
}
