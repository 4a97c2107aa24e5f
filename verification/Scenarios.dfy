/** Runs that show where stronger promises would be false: what the code does not guarantee,
    each on a whole family of states or from a new App on. */
module Scenarios {
  import opened Util
  import opened Status
  import opened Operator
  import opened Protocol
  import opened Invariant
  import opened Theorems
  import opened Convergence
  import H = History

  ghost predicate Step(w: World, v: Event, w': World) {
    Enabled(w, v) && w' == Next(w, v)
  }

  // ---- builds ----

  /** The first pass over a new App whose manifest carries a token creates its Job. */
  lemma FirstPass(w: World, e: Env)
    requires Initial(w) && w.c.annotations.token != "" && Calm(e)
    ensures Enabled(w, Operate(e))
    ensures var w', n := Next(w, Operate(e)), NextJob(w.c);
            && w'.c.builds == map[n := NewBuildJob(w.c.spec)]
                && w'.c.annotations == w.c.annotations && w'.c.name == w.c.name
            && w'.c.status.build.jobName == n && w'.c.status.lastProcessed == w.c.annotations.token
                && w'.c.status.build.phase == BuildPending && w'.c.status.build.termination == None
            && w'.log.created == [n] && w'.log.recorded == [] && w'.log.used == {w.c.annotations.token}
  {
    hide Reconcile, AfterCleanup, AfterMeasure, RecordOutcome;
    BuildsAfter(w.c, e);
    StatusAfter(w.c, e);
    DecidedBuild(w.c, e);
    ObservedBuild(w.c, e);
    assert w.log.created + [NextJob(w.c)] == [NextJob(w.c)];
  }

  /** A pass while a build Job runs starts nothing and records nothing. */
  lemma BusyPass(w: World, e: Env)
    requires Inv(w) && Persists(w.c, e)
    requires w.c.status.build.jobName in w.c.builds && w.c.builds[w.c.status.build.jobName].finish.Unfinished?
    ensures Enabled(w, Operate(e))
    ensures var w' := Next(w, Operate(e));
            && w'.c.builds == w.c.builds && w'.c.annotations == w.c.annotations && w'.c.name == w.c.name
            && w'.c.status.build.jobName == w.c.status.build.jobName
                && w'.c.status.lastProcessed == w.c.status.lastProcessed
            && w'.log.created == w.log.created && w'.log.recorded == w.log.recorded && w'.log.used == w.log.used
  {
    hide Reconcile, AfterCleanup, AfterMeasure, RecordOutcome, Inv;
    BuildsAfter(w.c, e);
    StatusAfter(w.c, e);
    DecidedBuild(w.c, e);
    ObservedBuild(w.c, e);
  }

  lemma SupersedingStep(w: World, e: Env, n: string)
    requires Inv(w) && Calm(e) && w.c.annotations.token != "" && Starts(w.c)
    requires n in w.log.created && !WasRecorded(w.log, n) && n == w.c.status.build.jobName
    ensures Enabled(w, Operate(e)) && Superseded(Next(w, Operate(e)), n)
    ensures Next(w, Operate(e)).c.annotations.token == w.c.annotations.token
        == Next(w, Operate(e)).c.status.lastProcessed
    ensures n in w.c.builds ==> n in Next(w, Operate(e)).c.builds && Next(w, Operate(e)).c.builds[n] == w.c.builds[n]
  {
    hide Reconcile, AfterCleanup, AfterMeasure, RecordOutcome, LedgerInv, CleanupInv, ActiveInv, H.NotIn;
    BuildsAfter(w.c, e);
    StatusAfter(w.c, e);
    DecidedBuild(w.c, e);
    ObservedBuild(w.c, e);
    RecordedAfter(w, e, n);
    BuildJobNameInjective(w.c.name, w.c.status.lastProcessed, w.c.annotations.token);
  }

  /** First pass, second token, deferring pass. */
  lemma DeferredRun(w0: World, u: string, e: Env) returns (w1: World, w2: World, w3: World)
    requires Initial(w0) && w0.c.annotations.token != "" && u != "" && u != w0.c.annotations.token && Calm(e)
    ensures Step(w0, Operate(e), w1) && Step(w1, Patch(u, "", ""), w2) && Step(w2, Operate(e), w3)
    ensures var n := NextJob(w0.c);
            && Inv(w3) && w3.c.annotations.token == u && w3.c.status.lastProcessed != u
            && w3.c.builds == map[n := NewBuildJob(w0.c.spec)] && w3.c.status.build.jobName == n
            && w3.log.created == [n] && w3.log.recorded == []
  {
    hide Reconcile, Inv, Initial, PhaseOf;
    InitialInv(w0);
    FirstPass(w0, e);
    w1 := Next(w0, Operate(e));
    StepKeepsInv(w0, Operate(e));
    w2 := Next(w1, Patch(u, "", ""));
    StepKeepsInv(w1, Patch(u, "", ""));
    BusyPass(w2, e);
    w3 := Next(w2, Operate(e));
    StepKeepsInv(w2, Operate(e));
  }

  /** A rebuild requested while a build runs loses that build's outcome, whatever it was: the
      pass after it finishes starts the deferred build over it, and nothing will ever record
      it (`SupersededForever`). */
  lemma DeferredRebuildLosesOutcome(w0: World, u: string, finish: Finish, e: Env)
    requires Initial(w0) && w0.c.annotations.token != "" && u != "" && u != w0.c.annotations.token
    requires Calm(e) && !finish.Unfinished?
    ensures var n := NextJob(w0.c);
            exists w1, w2, w3, w4, w5 ::
              && Step(w0, Operate(e), w1)
              && Step(w1, Patch(u, "", ""), w2)
              && Step(w2, Operate(e), w3)
              && Step(w3, FinishBuild(n, finish), w4)
              && Step(w4, Operate(e), w5)
              && Superseded(w5, n) && n in w5.c.builds && w5.c.builds[n].finish == finish
  {
    hide Reconcile, Inv, Superseded, Initial, AfterObserve, AfterCleanup, Records, NewUids, ResultUids;
    var n := NextJob(w0.c);
    var w1, w2, w3 := DeferredRun(w0, u, e);
    var w4 := Next(w3, FinishBuild(n, finish));
    StepKeepsInv(w3, FinishBuild(n, finish));
    SupersedingStep(w4, e, n);
    var w5 := Next(w4, Operate(e));
    assert Step(w3, FinishBuild(n, finish), w4) && Step(w4, Operate(e), w5);
  }

  /** The first pass of a new App with its status write lost. */
  lemma ConflictedFirstPass(w: World, e: Env)
    requires Initial(w) && w.c.annotations.token != "" && e.rejection.None? && e.fault.AtStatusWrite?
    ensures Enabled(w, Operate(e))
    ensures var w', n := Next(w, Operate(e)), NextJob(w.c);
            && w'.c.builds == map[n := NewBuildJob(w.c.spec)] && w'.c.annotations == w.c.annotations
            && w'.c.name == w.c.name && w'.c.status == w.c.status == NEW_STATUS
            && w'.log.created == [n] && w'.log.recorded == [] && w'.log.used == {w.c.annotations.token}
  {
    hide Reconcile, AfterCleanup, AfterMeasure, RecordOutcome;
    BuildsAfter(w.c, e);
    StatusAfter(w.c, e);
    assert w.log.created + [NextJob(w.c)] == [NextJob(w.c)];
  }

  /** The other way to lose one: the status write that would have named the Job conflicts, and the
      next token arrives before a later pass adopts it. Status never named it. */
  lemma UnadoptedJobIsLost(w0: World, u: string, finish: Finish, e: Env)
    requires Initial(w0) && w0.c.annotations.token != "" && u != w0.c.annotations.token
    requires Calm(e) && !finish.Unfinished?
    ensures var n := NextJob(w0.c);
            exists w1, w2, w3 ::
              && Step(w0, Operate(e.(fault := AtStatusWrite)), w1)
              && Step(w1, FinishBuild(n, finish), w2)
              && Step(w2, Patch(u, "", ""), w3)
              && w1.c.status == w2.c.status == w3.c.status == w0.c.status
              && Superseded(w3, n) && n in w3.c.builds && w3.c.builds[n].finish == finish
  {
    hide Reconcile, Initial, AfterObserve, AfterCleanup, Records, Recording, Creates, Seeds, NewUids, ResultUids;
    var n, conflict := NextJob(w0.c), e.(fault := AtStatusWrite);
    ConflictedFirstPass(w0, conflict);
    var w1 := Next(w0, Operate(conflict));
    var w2 := Next(w1, FinishBuild(n, finish));
    var w3 := Next(w2, Patch(u, "", ""));
    BuildJobNameInjective(w0.c.name, w0.c.annotations.token, u);
    assert Step(w0, Operate(conflict), w1) && Step(w1, FinishBuild(n, finish), w2) && Step(w2, Patch(u, "", ""), w3);
  }

  /** The images on record are those of the Job the pass rendered. They are the images the build
      runs with exactly when the Job was created by this pass or its spec was not edited since. */
  lemma AdoptedImages(c: Cluster, e: Env)
    requires Persists(c, e) && Starts(c)
    ensures var r := Reconcile(c, e);
            && r.status.build.jobName in r.builds
            && (r.status.build.images == r.builds[r.status.build.jobName].images
                <==> NextJob(c) !in c.builds || c.builds[NextJob(c)].images == c.spec.images)
  {
    hide Reconcile, AfterCleanup, AfterMeasure;
    BuildsAfter(c, e);
    StatusAfter(c, e);
    DecidedBuild(c, e);
    ObservedBuild(c, e);
  }

  /** The last human who rebuilt stays on display until the next human does. */
  lemma ManualTriggerKept(c: Cluster, e: Env)
    ensures Reconcile(c, e).status.lastManual ==
            if Persists(c, e) && Starts(c) && c.annotations.user != ""
            then Some(ManualTrigger(c.annotations.user, e.now))
            else c.status.lastManual
  {
    hide Reconcile, AfterCleanup, AfterMeasure, TerminalBuild;
    StatusAfter(c, e);
    DecidedBuild(c, e);
    ObservedBuild(c, e);
  }

  /** Tokens must be fresh: a pass that starts a build records an outcome at once exactly when
      the token's Job is still there, be it recorded before or not. */
  lemma ReusedTokenIsRecordedAgain(c: Cluster, e: Env)
    requires Persists(c, e) && Starts(c)
    ensures Recording(c, e) <==> NextJob(c) in c.builds
    ensures Recording(c, e) ==> AfterObserve(c, e).status.build.jobName == NextJob(c)
  {}

  /** Clearing the rebuild annotation starts a build; clearing a cleanup request starts none. */
  lemma ClearedTokenStartsBuild(c: Cluster, e: Env)
    requires Persists(c, e) && !BuildActive(c.builds) && c.annotations.token == "" && c.status.lastProcessed != ""
    ensures var r := Reconcile(c, e);
            r.status.build.jobName == BuildJobName(c.name, "") && r.status.build.jobName in r.builds
                && r.status.lastProcessed == ""
    ensures forall m :: RequestedToken(c.annotations, m) == "" ==> !StartsMode(c, e, m)
  {
    hide Reconcile, AfterCleanupObserve, AfterMeasure, RecordOutcome;
    BuildsAfter(c, e);
    StatusAfter(c, e);
    DecidedBuild(c, e);
    ObservedBuild(c, e);
    LateFrame(c, e);
  }

  // ---- cleanup ----

  /** Exclusion is one-sided: a build starts over a running cleanup. */
  lemma BuildStartsDespiteCleanup(c: Cluster, e: Env, m: CleanupMode)
    requires Persists(c, e) && Starts(c) && NextJob(c) !in c.builds
    requires m in c.cleanups && c.cleanups[m].finish.Unfinished?
    ensures var r := Reconcile(c, e);
            BuildActive(r.builds) && m in r.cleanups && r.cleanups[m].finish.Unfinished?
  {
    hide Reconcile, StartsCache, StartsReleases;
    BuildsAfter(c, e);
    CleanupsAfter(c, e);
    assert Reconcile(c, e).builds[NextJob(c)].finish.Unfinished?;
  }

  /** A finished Job over an action that is already terminal is deleted unread. If its own
      request is still open (its start was never persisted), that request runs again. */
  lemma TerminalActionDropsResult(c: Cluster, e: Env, m: CleanupMode)
    requires Persists(c, e) && Calm(e) && ActionEnded(Action(c.status, m))
    requires m in c.cleanups && !c.cleanups[m].finish.Unfinished?
    ensures var a, f := Action(c.status, m), Action(Reconcile(c, e).status, m);
            && m !in Reconcile(c, e).cleanups
            && f.completedAt == a.completedAt && f.reclaimed == a.reclaimed && f.message == a.message
            && (Asked(c, m) <==> Asked(Reconcile(c, e), m))
  {
    hide Reconcile, StartsCache, StartsReleases;
    CleanupJobs(c, e);
    ActionAfter(c, e, m);
    BuildsAfter(c, e);
    HarvestedGo(c, e, m);
  }

  lemma HarvestedGo(c: Cluster, e: Env, m: CleanupMode)
    requires Persists(c, e) && m in c.cleanups && !c.cleanups[m].finish.Unfinished?
    ensures m in Reconcile(c, e).cleanups <==> m in e.stuckCleanups
  {
    hide StartsCache, StartsReleases, AfterCacheAction, AfterCleanup, RefreshPhase, CleanupActive, Busy;
    CleanupJobs(c, e);
  }

  /** While the final delete of a read Job fails, the Job is read and stamped again exactly
      when another request of its mode is open: waiting puts the phase back to Pending. */
  lemma HeldRequestRereads(c: Cluster, e: Env, m: CleanupMode)
    requires Persists(c, e) && ReadsResult(c.status, c.cleanups, m) && m in e.stuckCleanups
    ensures var r := Reconcile(c, e); ReadsResult(r.status, r.cleanups, m) <==> Asked(c, m)
  {
    hide Reconcile, StartsCache, StartsReleases, Busy, AfterCleanup;
    CleanupJobs(c, e);
    CleanupsAfter(c, e);
    HarvestedGo(c, e, m);
    WaitsIffAsked(c, e, m);
  }

  /** With its last Job still there an action never starts; it waits iff its request is open. */
  lemma HeldAction(c: Cluster, snap: Cluster, busy: bool, started: bool, m: CleanupMode, now: int)
    requires m in HarvestedCleanups(snap.cleanups) && ActionEnded(Action(c.status, m))
    ensures ActionEnded(Action(CleanupAct(c, snap, busy, started, m, now).status, m)) <==> !Asked(c, m)
  {}

  lemma WaitsIffAsked(c: Cluster, e: Env, m: CleanupMode)
    requires Persists(c, e) && ReadsResult(c.status, c.cleanups, m)
    ensures ActionEnded(Action(Reconcile(c, e).status, m)) <==> !Asked(c, m)
  {
    hide AfterCleanupObserve, CleanupAct, RefreshPhase, StartsCache, CleanupActive, BuildActive;
    var o, k := AfterCleanupObserve(c, e), AfterCacheAction(c, e);
    ActionsObserved(c, e, m);
    LateFrame(c, e);
    FinalFrame(c, e);
    CleanupActFrame(o, c, Busy(c), false, CacheMode, e.now);
    CleanupActFrame(k, c, Busy(c), StartsCache(c, e), ReleasesMode, e.now);
    if m == CacheMode {
      HeldAction(o, c, Busy(c), false, m, e.now);
    } else {
      HeldAction(k, c, Busy(c), StartsCache(c, e), m, e.now);
    }
  }

  // A cleanup start whose status write conflicts.

  /** Nothing is left to do but one cache cleanup. */
  ghost predicate OnlyCacheAsked(c: Cluster) {
    AllFinished(c) && BuildWork(c) == 0 && Asked(c, CacheMode) && !Asked(c, ReleasesMode) && ReleasesMode !in c.cleanups
  }

  lemma ConflictedStart(c: Cluster, e: Env)
    requires OnlyCacheAsked(c) && Grounded(c) && CacheMode !in c.cleanups
    requires e.rejection.None? && e.fault.AtStatusWrite?
    ensures Reconcile(c, e) == c.(cleanups := c.cleanups[CacheMode := FreshCleanup(c)], nextUid := c.nextUid + 1)
  {
    hide AfterCleanupObserve, AfterMeasure, BuildActive, CleanupActive, CleanupAct, HarvestedCleanups, RecordOutcome;
    CalmStarts(c, e);
    CleanupJobs(c, e);
    LateFrame(c, e);
    DecidedBuild(c, e);
    ObservedBuild(c, e);
  }

  /** A calm pass over a left-over cache Job takes it away and leaves the request open. */
  lemma LeftoverPass(c: Cluster, e: Env)
    requires OnlyCacheAsked(c) && Grounded(c) && Calm(e) && CacheMode in c.cleanups
    ensures var r := Reconcile(c, e);
            OnlyCacheAsked(r) && CacheMode !in r.cleanups && c.nextUid <= r.nextUid && r.annotations == c.annotations
  {
    hide Reconcile, AfterBuild, Records, Starts, NeedsSeed, Grounded, StartsCache, StartsReleases;
    PastSeeding(c);
    CalmBuild(c, e);
    CalmStarts(c, e);
    CalmCleanup(c, e, CacheMode);
    CalmCleanup(c, e, ReleasesMode);
    CalmMeasures(c, e);
    BuildsAfter(c, e);
    CleanupsAfter(c, e);
  }

  lemma PastSeeding(c: Cluster)
    requires OnlyCacheAsked(c)
    ensures !NeedsSeed(c)
  {}

  /** Cleanup is at least once: when the status write that starts a cleanup conflicts, the same
      request runs a second Job, however the first one ended. Over an action that was terminal
      before, the first Job's result is never shown. */
  lemma ConflictedCleanupRunsTwice(w: World, finish: Finish, result: Option<CleanupResult>, e: Env)
    requires Inv(w) && OnlyCacheAsked(w.c) && CacheMode !in w.c.cleanups && Calm(e) && !finish.Unfinished?
    ensures exists w1, w2, w3, w4 ::
              && Step(w, Operate(e.(fault := AtStatusWrite)), w1)
              && Step(w1, FinishCleanup(CacheMode, finish, result), w2)
              && Step(w2, Operate(e), w3)
              && Step(w3, Operate(e), w4)
              && CacheMode in w1.c.cleanups && CacheMode in w4.c.cleanups
              && w1.c.cleanups[CacheMode].uid < w4.c.cleanups[CacheMode].uid
              && w4.c.annotations == w.c.annotations
              && (ActionEnded(Action(w.c.status, CacheMode)) ==>
                    Action(w3.c.status, CacheMode).message == Action(w.c.status, CacheMode).message
                    && Action(w3.c.status, CacheMode).reclaimed == Action(w.c.status, CacheMode).reclaimed)
  {
    hide Reconcile, Inv, Grounded, NextLog, Seeds, CleanupActive, BuildActive, BuildWork;
    var e1 := e.(fault := AtStatusWrite);
    InvGrounds(w);
    PastSeeding(w.c);
    ConflictedStart(w.c, e1);
    SeededPasses(w.c, e1);
    var w1 := Next(w, Operate(e1));
    StepKeepsInv(w, Operate(e1));
    var w2 := Next(w1, FinishCleanup(CacheMode, finish, result));
    StepKeepsInv(w1, FinishCleanup(CacheMode, finish, result));
    StillOnlyCache(w.c, w2.c);
    SecondStart(w2, e);
    PastSeeding(w2.c);
    if ActionEnded(Action(w.c.status, CacheMode)) {
      TerminalActionDropsResult(w2.c, e, CacheMode);
    }
    var w3 := Next(w2, Operate(e));
    var w4 := Next(w3, Operate(e));
    assert Step(w, Operate(e1), w1) && Step(w1, FinishCleanup(CacheMode, finish, result), w2);
    assert Step(w2, Operate(e), w3) && Step(w3, Operate(e), w4);
  }

  lemma SeededPasses(c: Cluster, e: Env)
    requires !NeedsSeed(c)
    ensures !Seeds(c, e)
  {}

  lemma StillOnlyCache(c: Cluster, d: Cluster)
    requires OnlyCacheAsked(c)
    requires d == c.(cleanups := d.cleanups, nextUid := d.nextUid)
    requires forall m :: m in d.cleanups ==> m == CacheMode && !d.cleanups[m].finish.Unfinished?
    ensures OnlyCacheAsked(d)
  {
    hide PhaseOf;
  }

  lemma SecondStart(w: World, e: Env)
    requires Inv(w) && OnlyCacheAsked(w.c) && Calm(e) && CacheMode in w.c.cleanups
    ensures Enabled(w, Operate(e))
    ensures var w1 := Next(w, Operate(e));
            && Enabled(w1, Operate(e))
            && var r := Next(w1, Operate(e)).c;
               CacheMode in r.cleanups && w.c.nextUid <= r.cleanups[CacheMode].uid && r.annotations == w.c.annotations
  {
    hide Reconcile, Inv, Grounded, NextLog, StartsCache, StartsReleases, OnlyCacheAsked, NeedsSeed;
    InvGrounds(w);
    PastSeeding(w.c);
    LeftoverPass(w.c, e);
    var w1 := Next(w, Operate(e));
    StepKeepsInv(w, Operate(e));
    InvGrounds(w1);
    PastSeeding(w1.c);
    FreshStart(w1.c, e);
  }

  lemma FreshStart(c: Cluster, e: Env)
    requires OnlyCacheAsked(c) && Grounded(c) && Calm(e) && CacheMode !in c.cleanups
    ensures var r := Reconcile(c, e);
            CacheMode in r.cleanups && r.cleanups[CacheMode].uid == c.nextUid && r.annotations == c.annotations
  {
    hide Reconcile, AfterBuild, Records, Starts, NeedsSeed, Grounded, StartsCache, StartsReleases;
    PastSeeding(c);
    CalmBuild(c, e);
    CalmStarts(c, e);
    CalmCleanup(c, e, CacheMode);
    CleanupsAfter(c, e);
  }
}
