/** Which release is served and which one the operator believes is. A build that completes points
    the site at its release at once; status learns of the release when the outcome is recorded.
    A releases cleanup protects the two releases status names (internal/controller/cleanup.go:202-214). */
module Served {
  import opened Util
  import opened Status
  import opened Operator
  import opened Protocol
  import opened Invariant
  import opened Theorems
  import opened Convergence
  import opened Scenarios
  import opened Witnesses
  import opened Causes
  import H = History

  /** Position of the latest creation of a Job, -1 if there was none. */
  function Age(created: seq<string>, n: string): (r: int)
    ensures -1 <= r < |created|
    ensures n in created <==> r >= 0
    ensures r >= 0 ==> created[r] == n
  {
    if created == [] then -1
    else if created[|created| - 1] == n then |created| - 1
    else Age(created[..|created| - 1], n)
  }

  predicate Newest(created: seq<string>, n: string) { created != [] && created[|created| - 1] == n }

  lemma AgeGrows(created: seq<string>, x: string, n: string)
    ensures Age(created + [x], n) == if n == x then |created| else Age(created, n)
  {
    assert (created + [x])[..|created|] == created;
  }

  /** The pending token's Job and the unfinished one are the newest; status names none older than
      a recorded one; no completed Job is newer than the one served. */
  ghost predicate OrderInv(w: World) {
    var created := w.log.created;
    && (NextJob(w.c) in created ==> Newest(created, NextJob(w.c)))
    && (forall n :: n in w.c.builds && w.c.builds[n].finish.Unfinished? ==> Newest(created, n))
    && (forall n :: WasRecorded(w.log, n) ==> Age(created, n) <= Age(created, w.c.status.build.jobName))
    && (forall n :: n in w.c.builds && w.c.builds[n].finish.JobComplete? ==>
          w.log.served.Some? && Age(created, n) <= Age(created, w.log.served.value))
  }

  /** The Job that reported last. */
  predicate ReportedLast(log: Log, n: string) {
    log.releasedBy != [] && log.releasedBy[|log.releasedBy| - 1] == n
  }

  /** A release on record is a recorded Job's, and the served one is the current one once it is there. */
  ghost predicate ReleaseInv(log: Log) {
    && |log.releasedBy| == |log.released|
    && (forall n :: n in log.releasedBy ==> WasRecorded(log, n))
    && (log.served.Some? && log.served.value in log.releasedBy ==> ReportedLast(log, log.served.value))
  }

  // ---- order ----

  /** A pass that launches a build makes its Job the newest, created just now or before. */
  lemma NewestAfterPass(w: World, e: Env)
    requires Inv(w) && OrderInv(w) && Enabled(w, Operate(e))
    ensures var w' := Next(w, Operate(e));
            && (NextJob(w'.c) in w'.log.created ==> Newest(w'.log.created, NextJob(w'.c)))
            && (forall n :: n in w'.c.builds && w'.c.builds[n].finish.Unfinished? ==> Newest(w'.log.created, n))
    ensures Launches(w.c, e) ==> Newest(Next(w, Operate(e)).log.created, NextJob(w.c))
  {
    hide Reconcile, LedgerInv, CleanupInv, PhaseInv, RetentionInv, ActiveInv, H.NotIn, Age, Recording;
    BuildsAfter(w.c, e);
    if Seeds(w.c, e) && BuildJobName(w.c.name, e.seed) in w.log.created {
      FreshTokenUncreated(w, e.seed, BuildJobName(w.c.name, e.seed));
    }
    if Creates(w.c, e) {
      forall n | n in w.c.builds ensures !w.c.builds[n].finish.Unfinished? { NotActive(w.c.builds, n); }
    }
  }

  lemma NewestIsOldest(created: seq<string>, n: string, m: string)
    requires Newest(created, n)
    ensures Age(created, m) <= Age(created, n)
  {}

  lemma AgesAfterPass(w: World, e: Env, n: string)
    ensures Age(NextLog(w, Operate(e)).created, n) ==
            if Creates(w.c, e) && n == NextJob(w.c) then |w.log.created| else Age(w.log.created, n)
  {
    AgeGrows(w.log.created, NextJob(w.c), n);
  }

  lemma RecordedOrder(w: World, e: Env, n: string)
    requires Inv(w) && OrderInv(w) && Enabled(w, Operate(e)) && WasRecorded(NextLog(w, Operate(e)), n)
    ensures var w' := Next(w, Operate(e));
            Age(w'.log.created, n) <= Age(w'.log.created, w'.c.status.build.jobName)
  {
    hide Reconcile, LedgerInv, CleanupInv, PhaseInv, RetentionInv, ActiveInv, H.NotIn, Age, RecordOutcome;
    var w' := Next(w, Operate(e));
    StatusAfter(w.c, e);
    DecidedBuild(w.c, e);
    ObservedBuild(w.c, e);
    RecordedAfter(w, e, n);
    AgesAfterPass(w, e, n);
    AgesAfterPass(w, e, w'.c.status.build.jobName);
    NewestAfterPass(w, e);
    if Persists(w.c, e) && Starts(w.c) {
      NewestIsOldest(w'.log.created, NextJob(w.c), n);
    } else if Creates(w.c, e) {
      StartsUnrecorded(w);
    }
  }

  lemma CompletedOrder(w: World, e: Env, n: string)
    requires Inv(w) && OrderInv(w) && Enabled(w, Operate(e))
    requires n in Reconcile(w.c, e).builds && Reconcile(w.c, e).builds[n].finish.JobComplete?
    ensures var log := NextLog(w, Operate(e));
            log.served.Some? && Age(log.created, n) <= Age(log.created, log.served.value)
  {
    hide Reconcile, LedgerInv, CleanupInv, PhaseInv, RetentionInv, ActiveInv, H.NotIn, Age;
    BuildsAfter(w.c, e);
    AgesAfterPass(w, e, n);
    AgesAfterPass(w, e, w.log.served.value);
    NewestAfterPass(w, e);
  }

  lemma OrderAfterPass(w: World, e: Env)
    requires Inv(w) && OrderInv(w) && Enabled(w, Operate(e))
    ensures OrderInv(Next(w, Operate(e)))
  {
    hide Reconcile, Inv, NextLog, WasRecorded, Newest, Age;
    var w' := Next(w, Operate(e));
    NewestAfterPass(w, e);
    forall n | WasRecorded(w'.log, n)
      ensures Age(w'.log.created, n) <= Age(w'.log.created, w'.c.status.build.jobName)
    {
      RecordedOrder(w, e, n);
    }
    forall n | n in w'.c.builds && w'.c.builds[n].finish.JobComplete?
      ensures w'.log.served.Some? && Age(w'.log.created, n) <= Age(w'.log.created, w'.log.served.value)
    {
      CompletedOrder(w, e, n);
    }
  }

  lemma OrderAfterBuildEvent(w: World, v: Event)
    requires Inv(w) && OrderInv(w) && Enabled(w, v) && (v.FinishBuild? || v.UpdatePod? || v.ReapBuild?)
    ensures OrderInv(Next(w, v))
  {
    hide Reconcile, Inv, H.NotIn, Age;
    if v.FinishBuild? {
      forall n ensures Age(w.log.created, n) <= Age(w.log.created, v.job) { NewestIsOldest(w.log.created, v.job, n); }
    }
  }

  lemma OrderStep(w: World, v: Event)
    requires Inv(w) && OrderInv(w) && Enabled(w, v)
    ensures OrderInv(Next(w, v))
  {
    hide Reconcile, ActiveInv, StatusInv, LedgerInv, CleanupInv, PhaseInv, RetentionInv, H.NotIn, Age;
    match v
    case Operate(e) => OrderAfterPass(w, e);
    case Patch(token, _, _) =>
      if BuildJobName(w.c.name, token) in w.log.created {
        FreshTokenUncreated(w, token, BuildJobName(w.c.name, token));
      }
    case FinishBuild(_, _) => OrderAfterBuildEvent(w, v);
    case UpdatePod(_, _) => OrderAfterBuildEvent(w, v);
    case ReapBuild(_) => OrderAfterBuildEvent(w, v);
    case _ =>
  }

  // ---- releases ----

  /** A pass records a success only as long as the Job that completed last is not on record. */
  lemma SuccessIsNews(w: World, e: Env)
    requires Inv(w) && OrderInv(w) && Recording(w.c, e) && RecordedJob(w.c, e).finish.JobComplete?
    ensures w.log.served.Some? && !WasRecorded(w.log, w.log.served.value)
  {
    hide Reconcile, LedgerInv, CleanupInv, PhaseInv, RetentionInv, ActiveInv, H.NotIn, RecordOutcome;
    RecordingFacts(w, e);
    DecidedBuild(w.c, e);
    ObservedBuild(w.c, e);
    var n, s := AfterObserve(w.c, e).status.build.jobName, w.log.served.value;
    if Starts(w.c) {
      NewestIsOldest(w.log.created, n, s);
    }
    assert WasRecorded(w.log, s) ==> Age(w.log.created, n) == Age(w.log.created, s);
  }

  lemma LoggedReleases(w: World, e: Env)
    ensures var log, n := NextLog(w, Operate(e)), AfterObserve(w.c, e).status.build.jobName;
            && log.served == w.log.served
            && (if Recording(w.c, e) && NewRelease(w.c, e) != []
                then log.releasedBy == w.log.releasedBy + [n] && |log.released| == |w.log.released| + 1
                else log.releasedBy == w.log.releasedBy && log.released == w.log.released)
  {
    hide Recording, Creates, Seeds, Persists, NewUids, ResultUids, AfterObserve, CopierReport;
  }

  lemma ReleaseAfterPass(w: World, e: Env)
    requires Inv(w) && OrderInv(w) && ReleaseInv(w.log) && Enabled(w, Operate(e))
    ensures ReleaseInv(NextLog(w, Operate(e)))
  {
    hide Inv, OrderInv, NextLog, WasRecorded, Enabled, AfterObserve, Recording;
    var log' := NextLog(w, Operate(e));
    LoggedReleases(w, e);
    forall n | n in log'.releasedBy
      ensures WasRecorded(log', n)
    {
      RecordedAfter(w, e, n);
    }
    if Recording(w.c, e) && NewRelease(w.c, e) != [] && w.log.served.Some? && w.log.served.value in w.log.releasedBy {
      SuccessIsNews(w, e);
    }
  }

  lemma ReleaseStep(w: World, v: Event)
    requires Inv(w) && OrderInv(w) && ReleaseInv(w.log) && Enabled(w, v)
    ensures ReleaseInv(Next(w, v).log)
  {
    hide Reconcile, JobsInv, StatusInv, LedgerInv, CleanupInv, PhaseInv, RetentionInv, H.NotIn, OrderInv;
    if v.Operate? {
      ReleaseAfterPass(w, v.env);
    }
  }

  lemma {:induction false} RunKeepsOrder(ws: seq<World>, vs: seq<Event>, k: nat)
    requires IsRun(ws, vs) && Initial(ws[0]) && k < |ws|
    ensures OrderInv(ws[k]) && ReleaseInv(ws[k].log)
  {
    hide Inv, Enabled, NextCluster, NextLog, OrderInv, ReleaseInv;
    if k == 0 {
      NothingServed(ws[0]);
    } else {
      RunKeepsOrder(ws, vs, k - 1);
      InitialInv(ws[0]);
      RunKeepsInv(ws, vs, k - 1);
      OrderStep(ws[k - 1], vs[k - 1]);
      ReleaseStep(ws[k - 1], vs[k - 1]);
    }
  }

  lemma NothingServed(w: World)
    requires Initial(w)
    ensures OrderInv(w) && ReleaseInv(w.log)
  {}

  // ---- what status knows ----

  /** The Jobs of the two releases a releases cleanup protects. */
  function ProtectedJobs(log: Log): set<string> {
    var jobs := log.releasedBy;
    (if |jobs| > 0 then {jobs[|jobs| - 1]} else {}) + if |jobs| > 1 then {jobs[|jobs| - 2]} else {}
  }

  lemma ServedIsLast(w: World, s: string)
    requires Reachable(w) && w.log.served == Some(s)
    ensures |w.log.releasedBy| == |w.log.released| && w.c.status.release == LastTwo(w.log.released)
    ensures s in w.log.releasedBy ==> ReportedLast(w.log, s)
  {
    hide Initial, Enabled, NextCluster, NextLog, JobsInv, ActiveInv, StatusInv, CleanupInv, PhaseInv, RetentionInv,
      OrderInv, WasRecorded;
    ReachableInv(w);
    var ws, vs :| RunTo(ws, vs, w);
    RunKeepsOrder(ws, vs, |vs|);
  }

  /** In every reachable state, for the Job that completed last: the release status calls current
      is the one that Job reported exactly when it is on record with that report, and only then
      does a releases cleanup protect its release. */
  lemma ServedIsCurrentIff(w: World, s: string)
    requires Reachable(w) && w.log.served == Some(s)
    ensures |w.log.evidence| == |w.log.recorded|
    ensures ReportedLast(w.log, s) <==> exists release :: OnRecord(w.log, s, release)
    ensures s in ProtectedJobs(w.log) <==> exists release :: OnRecord(w.log, s, release)
    ensures forall release :: OnRecord(w.log, s, release) ==> w.c.status.release.current == release
    ensures !WasRecorded(w.log, s) ==> s !in ProtectedJobs(w.log)
  {
    hide Reachable, OnRecord, WasRecorded;
    var current, k := w.c.status.release.current, |w.log.released| - 1;
    ServedIsLast(w, s);
    ReleasesAreReports(w, s, current);
    if s in w.log.releasedBy {
      assert w.log.releasedBy[k] == s && w.log.released[k] == current;
    }
    forall release | OnRecord(w.log, s, release)
      ensures s in w.log.releasedBy && WasRecorded(w.log, s) && release == current
    {
      ReleasesAreReports(w, s, release);
      OnRecordOnce(w, s, release, current);
    }
  }

  // ---- a cleanup that does not protect the site ----

  /** Nothing but builds was ever asked for. */
  predicate OnlyBuilds(c: Cluster) {
    && c.cleanups == map[] && c.annotations.cacheToken == "" && c.annotations.releasesToken == ""
    && c.status.cache.requestedAt == "" && c.status.releases.requestedAt == ""
  }

  lemma OnlyBuildsPass(c: Cluster, e: Env)
    requires Persists(c, e) && Calm(e) && OnlyBuilds(c)
    ensures OnlyBuilds(Reconcile(c, e))
  {
    hide Reconcile, StartsCache, StartsReleases;
    CalmStarts(c, e);
    CalmCleanup(c, e, CacheMode);
    CalmCleanup(c, e, ReleasesMode);
    assert Reconcile(c, e).cleanups == map[] by {
      forall m ensures m !in Reconcile(c, e).cleanups { assert m == CacheMode || m == ReleasesMode; }
    }
  }

  /** A build completes while the next token is already there. */
  lemma CompletesUnderToken() returns (w: World, s: string)
    ensures Reachable(w) && w.log.served == Some(s) && s == w.c.status.build.jobName && OnlyBuilds(w.c)
    ensures w.c.builds.Keys == {s} && w.c.builds[s].finish.JobComplete? && !WasRecorded(w.log, s)
    ensures w.c.annotations.token != "" && w.c.annotations.token != w.c.status.lastProcessed
    ensures NextJob(w.c) != s && w.c.status.build.phase == BuildPending && s in w.log.created
  {
    hide Reachable, Reconcile, PhaseOf, OnlyBuilds, Recording, Creates, NewUids, ResultUids, AfterObserve;
    var e := QUIET_ENV;
    var w0 := NewApp();
    s := NextJob(w0.c);
    FirstPass(w0, e);
    assert OnlyBuilds(w0.c) by { NewIsIdle(w0); }
    OnlyBuildsPass(w0.c, e);
    var w1 := Next(w0, Operate(e));
    ReachableStep(w0, Operate(e));
    var w2 := Next(w1, Patch("u", "", ""));
    ReachableStep(w1, Patch("u", "", ""));
    w := Next(w2, FinishBuild(s, JobComplete));
    ReachableStep(w2, FinishBuild(s, JobComplete));
    SameAsked(w1.c, w.c);
    BuildJobNameInjective(w0.c.name, "t", "u");
  }

  lemma NewIsIdle(w: World)
    requires Initial(w) && w.c.annotations == Annotations("t", "", "", "", "", "", "")
    ensures OnlyBuilds(w.c)
  {}

  lemma SameAsked(c: Cluster, d: Cluster)
    requires OnlyBuilds(c) && d.cleanups == c.cleanups && d.status == c.status
    requires d.annotations == c.annotations.(token := d.annotations.token, user := "", commit := "")
    ensures OnlyBuilds(d)
  {}

  /** Its release is served, and the next pass starts the other build over it. */
  lemma ServedAndSuperseded() returns (w: World, s: string)
    ensures Reachable(w) && w.log.served == Some(s) && Superseded(w, s) && OnlyBuilds(w.c)
    ensures w.c.builds.Keys == {s, NextJob(w.c)} && s != NextJob(w.c)
    ensures w.c.builds[NextJob(w.c)].finish.Unfinished? && !w.c.builds[s].finish.Unfinished?
    ensures w.c.status.lastProcessed == w.c.annotations.token != ""
  {
    hide Reachable, Reconcile, Inv, PhaseOf, OnlyBuilds, Superseded, Recording, NewUids, ResultUids, AfterObserve;
    var e := QUIET_ENV;
    var w0;
    w0, s := CompletesUnderToken();
    assert !BuildActive(w0.c.builds) by {
      assert forall n :: n in w0.c.builds ==> n in w0.c.builds.Keys;
    }
    PendingIsSeeded(w0.c);
    ReachableInv(w0);
    assert NextJob(w0.c) !in w0.c.builds.Keys;
    SupersedingStep(w0, e, s);
    OnlyBuildsPass(w0.c, e);
    BuildsAfter(w0.c, e);
    w := Next(w0, Operate(e));
    ReachableStep(w0, Operate(e));
  }

  lemma ReleasesStart(c: Cluster, e: Env)
    requires c.status.lastProcessed == c.annotations.token && c.cleanups == map[] && !BuildActive(c.builds)
    requires c.annotations.cacheToken == "" && c.annotations.releasesToken != c.status.releases.requestedAt == ""
    ensures StartsReleases(c, e)
  {
    hide StartsCache, StartsReleases;
    CalmStarts(c, e);
  }

  lemma StillSuperseded(w: World, v: Event, s: string)
    requires Reachable(w) && Enabled(w, v) && Superseded(w, s)
    ensures Superseded(Next(w, v), s) && !WasRecorded(Next(w, v).log, s)
  {
    hide Reachable, Inv, Enabled, NextCluster, NextLog, WasRecorded;
    ReachableInv(w);
    SupersededStep(w, v, s);
  }

  /** The release of a superseded build is served, and a releases cleanup starts that does not
      protect it. */
  lemma ServedIsUnprotected()
    ensures exists w, e, s ::
              && Reachable(w) && Enabled(w, Operate(e)) && Persists(w.c, e) && StartsReleases(w.c, e)
              && w.log.served == Some(s) && s !in ProtectedJobs(Next(w, Operate(e)).log)
  {
    hide Reachable, Reconcile, Inv, PhaseOf, Superseded, StartsReleases, ProtectedJobs, H.NotIn;
    var e := QUIET_ENV;
    var w0, s := ServedAndSuperseded();
    var v1, v2 := FinishBuild(NextJob(w0.c), JobFailed("")), RequestCleanup(ReleasesMode, "r", "");
    var w1 := Next(w0, v1);
    var w := Next(w1, v2);
    ReachableStep(w0, v1);
    ReachableStep(w1, v2);
    assert !BuildActive(w.c.builds) by {
      assert forall n :: n in w.c.builds ==> n in w0.c.builds.Keys;
    }
    ReleasesStart(w.c, e);
    ReachableStep(w, Operate(e));
    var w' := Next(w, Operate(e));
    StillSuperseded(w0, v1, s);
    StillSuperseded(w1, v2, s);
    StillSuperseded(w, Operate(e), s);
    ServedIsCurrentIff(w', s);
    assert Reachable(w) && Enabled(w, Operate(e)) && Persists(w.c, e);
  }
}
