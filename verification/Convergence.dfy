/** Once users stop asking, nothing is rejected and no write fails, the operator settles: after
    at most thirteen reconciles every request has been served and nothing runs, and one
    reconcile later status no longer changes. */
module Convergence {
  import opened Util
  import opened Status
  import opened Operator
  import opened Protocol
  import opened Invariant
  import opened Theorems
  import H = History
  import Storage

  // ---- calm runs ----

  predicate Calm(e: Env) {
    e.rejection.None? && e.fault.NoFault? && e.stuckCleanups == {} && e.stuckMeasures == {}
  }

  ghost predicate MeasureActive(measures: map<Volume, MeasureJob>) {
    exists v :: v in measures && measures[v].finish.Unfinished?
  }

  ghost predicate AllFinished(c: Cluster) {
    !BuildActive(c.builds) && !CleanupActive(c.cleanups) && !MeasureActive(c.measures)
  }

  /** Jobs end, pods change, recorded or expired Jobs go; the operator runs at any time and every
      pass goes through. */
  predicate CalmEvent(v: Event) {
    !v.Patch? && !v.RequestCleanup? && !v.EditSpec? && (v.Operate? ==> Calm(v.env))
  }

  ghost predicate CalmRun(ws: seq<World>, vs: seq<Event>) {
    IsRun(ws, vs) && forall k :: 0 <= k < |vs| ==> CalmEvent(vs[k])
  }

  /** Reconciles of a run that met only finished Jobs; others may come in between. */
  ghost function Reconciles(ws: seq<World>, vs: seq<Event>): nat
    requires |ws| == |vs| + 1
  {
    if vs == [] then 0
    else
      var k := |vs| - 1;
      Reconciles(ws[..k + 1], vs[..k]) + if vs[k].Operate? && AllFinished(ws[k].c) then 1 else 0
  }

  // ---- what is left to do ----

  predicate Asked(c: Cluster, mode: CleanupMode) {
    RequestedToken(c.annotations, mode) != ""
        && RequestedToken(c.annotations, mode) != Action(c.status, mode).requestedAt
  }

  function BuildWork(c: Cluster): nat {
    if NeedsSeed(c) then 3
    else if c.annotations.token != c.status.lastProcessed then 2
    else if !Terminal(c.status.build) && !Stranded(c) then 1
    else 0
  }

  function CleanupWork(c: Cluster, mode: CleanupMode): nat {
    (if Asked(c, mode) then 2 else 0) + if mode in c.cleanups then 1 else 0
  }

  ghost function Rank(c: Cluster): (r: nat)
    ensures r <= 13
  {
    2 * BuildWork(c) + CleanupWork(c, CacheMode) + CleanupWork(c, ReleasesMode)
    + if MeasureActive(c.measures) then 1 else 0
  }

  /** Every request is served: the build marker and both cleanup markers equal their tokens (or
      the cleanup token is empty), and no Job is unfinished. */
  ghost predicate AtRest(c: Cluster) {
    && c.status.lastProcessed == c.annotations.token
    && (forall m ::
          RequestedToken(c.annotations, m) == "" || RequestedToken(c.annotations, m) == Action(c.status, m).requestedAt)
    && AllFinished(c)
    && c.cleanups == map[]
  }

  /** At rest with the last build on record. */
  ghost predicate Converged(c: Cluster) { AtRest(c) && Terminal(c.status.build) }

  // ---- one calm pass ----

  /** What the invariant says about the record of a state without unfinished Jobs. */
  predicate Grounded(c: Cluster) {
    var b := c.status.build;
    && (b.phase == BuildComplete ==> Terminal(b))
    && (b.jobName == "" ==> c.status.lastProcessed == "" && b.phase == NoBuildPhase && !HasSucceededOnce(c.status))
    && (b.jobName != "" ==> b.phase != NoBuildPhase)
  }

  lemma InvGrounds(w: World)
    requires Inv(w)
    ensures Grounded(w.c)
  {
    hide CleanupInv, ActiveInv, H.NewestFirst, H.FailedNewestFirst, H.Streak;
  }

  lemma SeedingPass(c: Cluster, e: Env)
    requires Calm(e) && Grounded(c) && NeedsSeed(c) && e.seed != ""
    ensures Rank(Reconcile(c, e)) < Rank(c)
  {}

  /** When a cleanup starts, exactly. */
  lemma CalmStarts(c: Cluster, e: Env)
    ensures StartsCache(c, e) <==>
            Asked(c, CacheMode) && !Busy(c) && !CleanupActive(c.cleanups) && CacheMode !in c.cleanups
    ensures StartsReleases(c, e) <==>
            && Asked(c, ReleasesMode) && !Busy(c) && !CleanupActive(c.cleanups) && ReleasesMode !in c.cleanups
            && !StartsCache(c, e)
  {
    hide AfterCleanupObserve, ObserveCleanups, CleanupOutcome, CleanupWriteback, StartBuild, Busy;
    ActionsObserved(c, e, CacheMode);
    ActionsObserved(c, e, ReleasesMode);
    LateFrame(c, e);
    CleanupActFrame(AfterCleanupObserve(c, e), c, Busy(c), false, CacheMode, e.now);
  }

  predicate Running(cleanups: map<CleanupMode, CleanupJob>, mode: CleanupMode) {
    mode in cleanups && cleanups[mode].finish.Unfinished?
  }

  lemma CalmCleanupJobs(c: Cluster, e: Env, mode: CleanupMode)
    requires Persists(c, e) && Calm(e)
    ensures mode in Reconcile(c, e).cleanups <==> StartsMode(c, e, mode) || Running(c.cleanups, mode)
  {
    hide StartsCache, StartsReleases, AfterCacheAction, AfterCleanup, BuildActive, RefreshPhase;
    CleanupJobs(c, e);
  }

  lemma CalmCleanup(c: Cluster, e: Env, mode: CleanupMode)
    requires Persists(c, e) && Calm(e)
    ensures var r := Reconcile(c, e);
            && (mode in r.cleanups <==> StartsMode(c, e, mode) || Running(c.cleanups, mode))
            && Action(r.status, mode).requestedAt
                == (if StartsMode(c, e, mode) then RequestedToken(c.annotations, mode)
                  else Action(c.status, mode).requestedAt)
            && r.annotations == c.annotations
  {
    hide Reconcile, StartsMode, Running;
    CalmCleanupJobs(c, e, mode);
    ActionAfter(c, e, mode);
    BuildsAfter(c, e);
  }

  lemma CalmCleanupWork(c: Cluster, e: Env)
    requires Persists(c, e) && Calm(e)
    ensures var r := Reconcile(c, e);
            var before, after := CleanupWork(c, CacheMode) + CleanupWork(c, ReleasesMode),
                CleanupWork(r, CacheMode) + CleanupWork(r, ReleasesMode);
            && after <= before
            && (AllFinished(c) && before > 0 && !Starts(c) ==> after < before)
  {
    hide Reconcile, StartsCache, StartsReleases, Starts;
    CalmStarts(c, e);
    CalmCleanup(c, e, CacheMode);
    CalmCleanup(c, e, ReleasesMode);
  }

  /** A calm pass leaves a measure Job running only if one ran before or it created one. */
  lemma CalmMeasures(c: Cluster, e: Env)
    requires Persists(c, e) && Calm(e)
    ensures MeasureActive(Reconcile(c, e).measures) ==>
              MeasureActive(c.measures) || (Records(AfterBuild(c, e).status, c.builds) && !BuildActive(c.builds))
  {
    hide AfterBuild, AfterCleanup, BuildActive, CleanupActive, Records, ObserveBuild;
    FinalFrame(c, e);
  }

  lemma CalmHarvest(c: Cluster, e: Env)
    requires Persists(c, e) && Calm(e)
    ensures HarvestedMeasures(Reconcile(c, e).measures) == {}
  {
    hide AfterObserve, AfterCleanup, Later, Final, NeedsSeed;
    ObservedMeasures(c, e);
    FinalFrame(c, e);
    assert Final(c, e).measures == AfterObserve(c, e).measures by { FinalMeasures(c, e); }
  }

  lemma FinalMeasures(c: Cluster, e: Env)
    ensures Final(c, e).measures == AfterObserve(c, e).measures
  {
    hide AfterObserve, AfterCleanup;
    LateFrame(c, e);
  }

  /** Old measure Jobs stay as they are, new ones are unfinished. */
  ghost predicate MeasuresGrew(from: map<Volume, MeasureJob>, to: map<Volume, MeasureJob>) {
    forall v :: v in to ==> (v in from && to[v] == from[v]) || to[v].finish.Unfinished?
  }

  lemma CreateMeasuresGrow(measures: map<Volume, MeasureJob>, failed: Option<Volume>)
    ensures MeasuresGrew(measures, CreateMeasures(measures, failed))
  {}

  lemma ObservedMeasures(c: Cluster, e: Env)
    ensures MeasuresGrew(c.measures, AfterObserve(c, e).measures)
  {
    hide AfterBuild, Records, MeasurementDue, CreateMeasures, ObserveBuild, Expires;
    CreateMeasuresGrow(c.measures, e.failedMeasure);
  }

  lemma CalmBuild(c: Cluster, e: Env)
    requires Persists(c, e) && Grounded(c)
    ensures var r := Reconcile(c, e);
            && BuildWork(r) <= BuildWork(c)
            && (BuildWork(c) > 0 && !BuildActive(c.builds) ==> BuildWork(r) < BuildWork(c))
            && (BuildWork(c) == 0 ==>
                  !Starts(c) && !Records(AfterBuild(c, e).status, c.builds) && r.status.build == c.status.build)
  {
    hide Reconcile, RecordOutcome, AfterCleanup;
    BuildsAfter(c, e);
    StatusAfter(c, e);
    DecidedBuild(c, e);
    ObservedBuild(c, e);
  }

  /** A calm pass never adds to what is left, and over finished Jobs it does some of it. */
  lemma CalmPassDescends(c: Cluster, e: Env)
    requires Calm(e) && Grounded(c) && (NeedsSeed(c) ==> e.seed != "")
    ensures Rank(Reconcile(c, e)) <= Rank(c)
    ensures AllFinished(c) && Rank(c) > 0 ==> Rank(Reconcile(c, e)) < Rank(c)
  {
    hide Reconcile, AfterBuild, BuildActive, CleanupActive, MeasureActive, Records, Starts, NeedsSeed, Grounded,
        CleanupWork, BuildWork;
    if NeedsSeed(c) {
      SeedingPass(c, e);
    } else {
      CalmBuild(c, e);
      CalmCleanupWork(c, e);
      CalmMeasures(c, e);
    }
  }

  // ---- calm runs descend ----

  lemma FewerJobsRankLower(c: Cluster, d: Cluster)
    requires d.annotations == c.annotations && d.status == c.status
    requires forall m :: m in d.cleanups ==> m in c.cleanups
    requires forall v :: v in d.measures && d.measures[v].finish.Unfinished? ==>
                           v in c.measures && c.measures[v].finish.Unfinished?
    requires forall n :: n in d.builds ==> n in c.builds
    ensures Rank(d) <= Rank(c)
  {
    hide PhaseOf, Terminal;
  }

  lemma WaitingDoesNotAdd(w: World, v: Event)
    requires Inv(w) && Enabled(w, v) && CalmEvent(v) && !v.Operate?
    ensures Rank(Next(w, v).c) <= Rank(w.c)
    ensures Next(w, v).c.status == w.c.status
  {
    hide Inv, Rank, AllFinished, Reconcile, NextLog, WasRecorded;
    FewerJobsRankLower(w.c, Next(w, v).c);
  }

  lemma CalmStep(w: World, v: Event)
    requires Inv(w) && Enabled(w, v) && CalmEvent(v)
    ensures Inv(Next(w, v)) && Rank(Next(w, v).c) <= Rank(w.c)
    ensures v.Operate? && AllFinished(w.c) && Rank(w.c) > 0 ==> Rank(Next(w, v).c) < Rank(w.c)
  {
    hide Inv, Rank, AllFinished, NextLog, Grounded, NeedsSeed, Reconcile;
    StepKeepsInv(w, v);
    if v.Operate? {
      InvGrounds(w);
      CalmPassDescends(w.c, v.env);
    } else {
      WaitingDoesNotAdd(w, v);
    }
  }

  lemma CalmPrefix(ws: seq<World>, vs: seq<Event>, k: nat)
    requires CalmRun(ws, vs) && k <= |vs|
    ensures CalmRun(ws[..k + 1], vs[..k])
  {
    hide Enabled, CalmEvent, Next;
  }

  lemma {:induction false} CalmRunDescends(ws: seq<World>, vs: seq<Event>)
    requires CalmRun(ws, vs) && Inv(ws[0])
    ensures Inv(ws[|vs|])
    ensures Rank(ws[|vs|].c) == 0 || Rank(ws[|vs|].c) + Reconciles(ws, vs) <= Rank(ws[0].c)
  {
    hide Inv, Rank, Enabled, CalmEvent, NextCluster, NextLog;
    if vs == [] {
    } else {
      var k := |vs| - 1;
      CalmPrefix(ws, vs, k);
      CalmRunDescends(ws[..k + 1], vs[..k]);
      CalmStep(ws[k], vs[k]);
    }
  }

  lemma DoneIsAtRest(w: World)
    requires Inv(w) && Rank(w.c) == 0
    ensures AtRest(w.c) && (Converged(w.c) || DeadEnd(w.c))
  {
    hide LedgerInv, CleanupInv;
    var c := w.c;
    assert CleanupWork(c, CacheMode) == 0 && CleanupWork(c, ReleasesMode) == 0;
    assert c.cleanups == map[] by {
      forall m ensures m !in c.cleanups { assert m == CacheMode || m == ReleasesMode; }
    }
  }

  /** No Job of the run expires before it is recorded. */
  ghost predicate NoneExpires(ws: seq<World>, vs: seq<Event>)
    requires |ws| == |vs| + 1
  {
    forall k :: 0 <= k < |vs| && vs[k].ReapBuild? ==> WasRecorded(ws[k].log, vs[k].job)
  }

  /** A pass that goes through reaches no dead end. */
  lemma LivePass(w: World, e: Env)
    requires Inv(w) && Calm(e) && !DeadEnd(w.c)
    ensures !DeadEnd(Reconcile(w.c, e))
  {
    hide Reconcile, RecordOutcome, AfterCleanup, Inv, NeedsSeed;
    BuildsAfter(w.c, e);
    StatusAfter(w.c, e);
    DecidedBuild(w.c, e);
    ObservedBuild(w.c, e);
    if w.c.status.build.jobName != "" {
      StartedIsSeeded(w);
    }
  }

  lemma LiveStep(w: World, v: Event)
    requires Inv(w) && Enabled(w, v) && CalmEvent(v) && !DeadEnd(w.c)
    requires v.ReapBuild? ==> WasRecorded(w.log, v.job)
    ensures !DeadEnd(Next(w, v).c)
  {
    hide Reconcile, JobsInv, ActiveInv, LedgerInv, CleanupInv, PhaseInv, RetentionInv, NextLog;
    if v.Operate? {
      LivePass(w, v.env);
    }
  }

  lemma {:induction false} StaysLive(ws: seq<World>, vs: seq<Event>)
    requires CalmRun(ws, vs) && Inv(ws[0]) && !DeadEnd(ws[0].c) && NoneExpires(ws, vs)
    ensures !DeadEnd(ws[|vs|].c)
  {
    hide Inv, Enabled, CalmEvent, NextCluster, NextLog, DeadEnd, WasRecorded;
    if vs == [] {
    } else {
      var k := |vs| - 1;
      CalmPrefix(ws, vs, k);
      StaysLive(ws[..k + 1], vs[..k]);
      RunKeepsInv(ws, vs, k);
      LiveStep(ws[k], vs[k]);
    }
  }

  /** Convergence, from every reachable state: thirteen reconciles are enough to come to rest, with
      the last build on record unless its Job expired before it was recorded. If that had not
      happened before, and does not in this run, the last build is on record. */
  lemma Converges(ws: seq<World>, vs: seq<Event>)
    requires CalmRun(ws, vs) && Reachable(ws[0]) && Reconciles(ws, vs) >= 13
    ensures AtRest(ws[|vs|].c) && (Converged(ws[|vs|].c) <==> !DeadEnd(ws[|vs|].c))
    ensures !DeadEnd(ws[0].c) && NoneExpires(ws, vs) ==> Converged(ws[|vs|].c)
    ensures DeadEnd(ws[0].c) ==> DeadEnd(ws[|vs|].c)
  {
    hide Inv, Rank, Enabled, CalmEvent, NextCluster, NextLog, AtRest, Reachable, DeadEnd;
    ReachableInv(ws[0]);
    CalmRunDescends(ws, vs);
    DoneIsAtRest(ws[|vs|]);
    if DeadEnd(ws[0].c) {
      assert forall i :: 0 <= i < |vs| ==> !vs[i].Patch? by { CalmIsUnpatched(ws, vs); }
      DeadEndForever(ws, vs, |vs|);
    } else if NoneExpires(ws, vs) {
      StaysLive(ws, vs);
    }
    ConvergedIsLive(ws[|vs|].c);
  }

  lemma CalmIsUnpatched(ws: seq<World>, vs: seq<Event>)
    requires CalmRun(ws, vs)
    ensures forall i :: 0 <= i < |vs| ==> !vs[i].Patch?
  {
    hide Enabled, NextCluster, NextLog;
  }

  lemma ConvergedIsLive(c: Cluster)
    ensures Converged(c) ==> !DeadEnd(c)
  {}

  /** At rest no outcome is pending: every Job ever created was recorded, given up, or is the
      expired one of a dead end. */
  lemma RestRecordsAll(w: World, n: string)
    requires Reachable(w) && AtRest(w.c) && (Converged(w.c) || DeadEnd(w.c)) && n in w.log.created
    ensures WasRecorded(w.log, n) || Superseded(w, n) || (DeadEnd(w.c) && n == w.c.status.build.jobName)
  {
    hide Reachable, LedgerInv, CleanupInv;
    ReachableInv(w);
  }

  // ---- and then stay ----

  /** Converged, sizes merged, and status already says what a pass would derive. */
  ghost predicate Quiet(c: Cluster) {
    && Rank(c) == 0
    && HarvestedMeasures(c.measures) == {}
    && c.status.specStale == (c.spec.hash != c.status.lastBuiltHash)
    && c.status.storage.threshold == Storage.Worst(c.status.storage.sizes, c.spec.storage)
    && (exists st, now :: c.status == RefreshPhase(st, now))
  }

  /** A calm pass over a state without work only merges sizes and derives flags. */
  lemma IdlePass(c: Cluster, e: Env)
    requires Calm(e) && AllFinished(c) && Grounded(c) && Rank(c) == 0
    ensures var st := ObserveMeasurements(Loaded(c).status, c.measures, e.now);
            var r := Reconcile(c, e);
            && r == c.(status := r.status, measures := r.measures)
            && r.status == RefreshPhase(st.(storage := st.storage.(threshold := Storage.Worst(st.storage.sizes,
                c.spec.storage))), e.now)
  {
    assert c.cleanups == map[] by {
      assert CleanupWork(c, CacheMode) == 0 && CleanupWork(c, ReleasesMode) == 0;
      forall m ensures m !in c.cleanups { assert m == CacheMode || m == ReleasesMode; }
    }
    CalmBuild(c, e);
    CalmStarts(c, e);
  }

  lemma IdlePassQuiets(c: Cluster, e: Env)
    requires Calm(e) && AllFinished(c) && Grounded(c) && Rank(c) == 0
    ensures Quiet(Reconcile(c, e))
  {
    hide Reconcile, Rank, AllFinished, Grounded, HarvestedMeasures;
    var r := Reconcile(c, e);
    assert !NeedsSeed(c) by { RankZeroSeeded(c); }
    IdlePass(c, e);
    CalmPassDescends(c, e);
    CalmHarvest(c, e);
    ObserveFrames(Loaded(c).status, c.measures, c.cleanups, e.now);
    var st := ObserveMeasurements(Loaded(c).status, c.measures, e.now);
    assert r.status == RefreshPhase(st.(storage := st.storage.(threshold := Storage.Worst(st.storage.sizes,
        c.spec.storage))), e.now);
  }

  lemma RankZeroSeeded(c: Cluster)
    requires Rank(c) == 0
    ensures !NeedsSeed(c)
  {}

  /** A quiet state is a fixed point of the reconcile. */
  lemma QuietPass(c: Cluster, e: Env)
    requires Calm(e) && AllFinished(c) && Grounded(c) && Quiet(c)
    ensures Reconcile(c, e) == c
  {
    hide Rank, AllFinished, Grounded, RefreshPhase, Storage.Worst;
    RankZeroSeeded(c);
    IdlePass(c, e);
    FinalFrame(c, e);
    assert Loaded(c) == c;
    NothingToHarvest(c.status, c.measures, e.now);
    var st, now :| c.status == RefreshPhase(st, now);
    RefreshPhaseIdempotent(st, now, e.now);
    CalmBuild(c, e);
  }

  lemma NothingToHarvest(st: AppStatus, measures: map<Volume, MeasureJob>, now: int)
    requires HarvestedMeasures(measures) == {}
    ensures ObserveMeasurements(st, measures, now) == st
  {
    assert forall v :: v in measures && Readable(measures[v]) ==> v in HarvestedMeasures(measures);
  }

  lemma QuietWaits(w: World, v: Event)
    requires Inv(w) && Enabled(w, v) && CalmEvent(v) && !v.Operate? && Quiet(w.c)
    ensures Quiet(Next(w, v).c) && Next(w, v).c.status == w.c.status
  {
    hide Inv, Reconcile, NextLog, WasRecorded;
    WaitingDoesNotAdd(w, v);
  }

  lemma QuietIsFinished(w: World)
    requires Inv(w) && Quiet(w.c)
    ensures AllFinished(w.c)
  {
    DoneIsAtRest(w);
  }

  lemma QuietStep(w: World, v: Event)
    requires Inv(w) && Enabled(w, v) && CalmEvent(v) && Quiet(w.c)
    ensures Quiet(Next(w, v).c) && Next(w, v).c.status == w.c.status
  {
    hide Inv, Reconcile, NextLog, Quiet, AllFinished, Grounded;
    if v.Operate? {
      InvGrounds(w);
      QuietIsFinished(w);
      QuietPass(w.c, v.env);
    } else {
      QuietWaits(w, v);
    }
  }

  lemma {:induction false} QuietAfter(ws: seq<World>, vs: seq<Event>)
    requires CalmRun(ws, vs) && Inv(ws[0]) && Reconciles(ws, vs) >= 14
    ensures Inv(ws[|vs|]) && Quiet(ws[|vs|].c)
  {
    hide Inv, Rank, Enabled, Quiet, NextLog, AllFinished, Reconcile;
    var k := |vs| - 1;
    CalmPrefix(ws, vs, k);
    CalmRunDescends(ws, vs);
    CalmRunDescends(ws[..k + 1], vs[..k]);
    if vs[k].Operate? && AllFinished(ws[k].c) {
      InvGrounds(ws[k]);
      IdlePassQuiets(ws[k].c, vs[k].env);
    } else {
      QuietAfter(ws[..k + 1], vs[..k]);
      QuietStep(ws[k], vs[k]);
    }
  }

  /** After the fourteenth reconcile status never changes again. */
  lemma {:induction false} StatusSettles(ws: seq<World>, vs: seq<Event>, k: nat)
    requires CalmRun(ws, vs) && Reachable(ws[0]) && k <= |vs| && Reconciles(ws[..k + 1], vs[..k]) >= 14
    ensures ws[|vs|].c.status == ws[k].c.status && Quiet(ws[|vs|].c)
    decreases |vs| - k
  {
    hide Inv, Enabled, Quiet, CalmEvent, NextCluster, NextLog, Reachable;
    ReachableInv(ws[0]);
    CalmPrefix(ws, vs, k);
    QuietAfter(ws[..k + 1], vs[..k]);
    if k == |vs| {
      assert vs[..k] == vs && ws[..k + 1] == ws;
    } else {
      QuietStep(ws[k], vs[k]);
      assert vs[..k + 1][..k] == vs[..k] && ws[..k + 2][..k + 1] == ws[..k + 1];
      StatusSettles(ws, vs, k + 1);
    }
  }
}
