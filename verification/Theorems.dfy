/** What the invariant means for users of the operator, over every reachable state. */
module Theorems {
  import opened Util
  import opened Status
  import opened Operator
  import opened Protocol
  import opened Invariant
  import H = History
  import P = Pipeline

  ghost predicate RunTo(ws: seq<World>, vs: seq<Event>, w: World) {
    IsRun(ws, vs) && Initial(ws[0]) && ws[|vs|] == w
  }

  ghost predicate Reachable(w: World) {
    exists ws, vs :: RunTo(ws, vs, w)
  }

  lemma ReachableInv(w: World)
    requires Reachable(w)
    ensures Inv(w)
  {
    hide Inv, Initial;
    var ws, vs :| RunTo(ws, vs, w);
    InitialInv(ws[0]);
    RunKeepsInv(ws, vs, |vs|);
  }

  lemma ReachableStep(w: World, v: Event)
    requires Reachable(w) && Enabled(w, v)
    ensures Reachable(Next(w, v))
  {
    hide Enabled, Initial, NextCluster, NextLog;
    var ws, vs :| RunTo(ws, vs, w);
    var ws', vs' := ws + [Next(w, v)], vs + [v];
    forall k | 0 <= k < |vs'|
      ensures Enabled(ws'[k], vs'[k]) && ws'[k + 1] == Next(ws'[k], vs'[k])
    {
      if k < |vs| {
        assert ws'[k] == ws[k] && ws'[k + 1] == ws[k + 1] && vs'[k] == vs[k];
      }
    }
    assert RunTo(ws', vs', Next(w, v));
  }

  lemma {:induction false} RunReachable(ws: seq<World>, vs: seq<Event>, k: nat)
    requires IsRun(ws, vs) && Reachable(ws[0]) && k < |ws|
    ensures Reachable(ws[k])
  {
    hide Reachable, Enabled, NextCluster, NextLog;
    if k == 0 {
    } else {
      RunReachable(ws, vs, k - 1);
      ReachableStep(ws[k - 1], vs[k - 1]);
    }
  }

  // ---- builds ----

  /** At most one build Job is unfinished. */
  lemma SingleActiveBuild(w: World, n: string, m: string)
    requires Reachable(w)
    requires n in w.c.builds && w.c.builds[n].finish.Unfinished?
    requires m in w.c.builds && w.c.builds[m].finish.Unfinished?
    ensures n == m
  {
    ReachableInv(w);
  }

  /** Over the whole run one Job at most was created per token, conflicts or not, unless the
      cluster deleted it before it was recorded. */
  lemma OneJobPerToken(w: World, t: string, i: nat, j: nat)
    requires Reachable(w) && i < |w.log.created| && j < |w.log.created|
    requires w.log.created[i] == BuildJobName(w.c.name, t) == w.log.created[j]
    ensures (i == j || BuildJobName(w.c.name, t) in w.log.expired) && t in w.log.used
  {
    ReachableInv(w);
    assert TokenJob(w, w.log.created[i]);
    var u :| u in w.log.used && w.log.created[i] == BuildJobName(w.c.name, u);
    BuildJobNameInjective(w.c.name, t, u);
  }

  /** A Job's outcome enters persisted status at most once, and the release pointers are
      always the last two releases so recorded. */
  lemma RecordedAtMostOnce(w: World)
    requires Reachable(w)
    ensures H.DistinctJobs(w.log.recorded)
    ensures w.c.status.release == LastTwo(w.log.released)
    ensures w.c.status.build.jobName != "" ==>
        w.c.status.build.jobName == BuildJobName(w.c.name, w.c.status.lastProcessed)
    ensures w.c.status.build.jobName != "" ==>
        (Terminal(w.c.status.build) <==> WasRecorded(w.log, w.c.status.build.jobName))
  {
    ReachableInv(w);
  }

  /** A finished Job named in status is recorded by the next persisted pass exactly when that
      pass does not start another build; otherwise status moves on without its outcome. */
  lemma RecordedUnlessSuperseded(w: World, e: Env)
    requires Reachable(w) && Enabled(w, Operate(e)) && Persists(w.c, e)
    requires Records(w.c.status, w.c.builds)
    ensures var n, w' := w.c.status.build.jobName, Next(w, Operate(e));
            && (WasRecorded(w'.log, n) <==> !Starts(w.c))
            && (w'.c.status.build.jobName == n <==> !Starts(w.c))
            && (!Starts(w.c) ==> Terminal(w'.c.status.build))
  {
    hide Reconcile, LedgerInv, CleanupInv, RecordOutcome;
    ReachableInv(w);
    var n := w.c.status.build.jobName;
    DecidedBuild(w.c, e);
    ObservedBuild(w.c, e);
    StatusAfter(w.c, e);
    RecordedAfter(w, e, n);
    BuildJobNameInjective(w.c.name, w.c.status.lastProcessed, w.c.annotations.token);
  }

  /** No other step takes an unrecorded Job out of status. */
  lemma OnlyStartSupersedes(w: World, v: Event)
    requires Reachable(w) && Enabled(w, v)
    requires w.c.status.build.jobName != "" && Next(w, v).c.status.build.jobName != w.c.status.build.jobName
    ensures v.Operate? && Persists(w.c, v.env) && Starts(w.c)
  {
    if v.Operate? {
      SupersedingPass(w.c, v.env);
    }
  }

  lemma SupersedingPass(c: Cluster, e: Env)
    requires Reconcile(c, e).status.build.jobName != c.status.build.jobName
    ensures Persists(c, e) && Starts(c)
  {
    hide Reconcile, ObserveBuild;
    StatusAfter(c, e);
    DecidedBuild(c, e);
    ObservedBuild(c, e);
  }

  /** A created Job that neither status nor the pending token names. */
  ghost predicate Superseded(w: World, n: string) {
    n in w.log.created && !WasRecorded(w.log, n) && n != w.c.status.build.jobName && n != NextJob(w.c)
  }

  /** Such a Job stays unrecorded for the rest of every run. */
  lemma SupersededStep(w: World, v: Event, n: string)
    requires Inv(w) && Enabled(w, v) && Superseded(w, n)
    ensures Superseded(Next(w, v), n)
  {
    match v
    case Operate(e) => SupersededPass(w, e, n);
    case Patch(token, _, _) => FreshTokenUncreated(w, token, n);
    case _ =>
  }

  lemma FreshTokenUncreated(w: World, t: string, n: string)
    requires JobsInv(w) && t !in w.log.used && n in w.log.created
    ensures n != BuildJobName(w.c.name, t)
  {
    var u :| u in w.log.used && n == BuildJobName(w.c.name, u);
    BuildJobNameInjective(w.c.name, t, u);
  }

  lemma SupersededPass(w: World, e: Env, n: string)
    requires Inv(w) && Enabled(w, Operate(e)) && Superseded(w, n)
    ensures Superseded(Next(w, Operate(e)), n)
  {
    hide Reconcile, NextLog, JobsInv, ActiveInv, StatusInv, LedgerInv, CleanupInv, PhaseInv, RetentionInv, AfterBuild,
      AfterObserve, Recording, Starts, NeedsSeed, WasRecorded, Creates;
    LoggedJobs(w, e);
    NamesMove(w.c, e);
    RecordedAfter(w, e, n);
    if Seeds(w.c, e) {
      FreshTokenUncreated(w, e.seed, n);
    }
  }

  lemma {:induction false} SupersededForever(ws: seq<World>, vs: seq<Event>, n: string, k: nat)
    requires IsRun(ws, vs) && Reachable(ws[0]) && Superseded(ws[0], n) && k < |ws|
    ensures Superseded(ws[k], n)
  {
    hide Inv, Enabled, NextCluster, NextLog, Superseded;
    if k == 0 {
    } else {
      SupersededForever(ws, vs, n, k - 1);
      ReachableInv(ws[0]);
      RunKeepsInv(ws, vs, k - 1);
      SupersededStep(ws[k - 1], vs[k - 1], n);
    }
  }

  /** The three ways to lose an outcome, and no fourth. A created, unrecorded Job that status or the
      pending token still names is given up exactly by a persisted pass that starts another build
      over it in status, or by a new token requested before a pass adopted it into status; and it
      goes exactly when it expires. */
  lemma LostExactly(w: World, v: Event, n: string)
    requires Reachable(w) && Enabled(w, v)
    requires n in w.log.created && !WasRecorded(w.log, n) && !Superseded(w, n)
    ensures Superseded(Next(w, v), n) <==>
            || (v.Operate? && Persists(w.c, v.env) && Starts(w.c) && n == w.c.status.build.jobName)
            || (v.Patch? && n == NextJob(w.c) && n != w.c.status.build.jobName)
    ensures n in w.c.builds ==>
              && (n !in Next(w, v).c.builds <==> v == ReapBuild(n))
              && (v == ReapBuild(n) ==> n in w.c.expiring && n in Next(w, v).log.expired)
  {
    hide Reachable, Reconcile, LedgerInv, CleanupInv, PhaseInv, ActiveInv;
    ReachableInv(w);
    match v
    case Operate(e) => LostByPass(w, e, n);
    case Patch(token, _, _) => FreshTokenUncreated(w, token, n);
    case _ =>
  }

  lemma LostByPass(w: World, e: Env, n: string)
    requires Inv(w) && Enabled(w, Operate(e))
    requires n in w.log.created && !WasRecorded(w.log, n) && !Superseded(w, n)
    ensures Superseded(Next(w, Operate(e)), n) <==> Persists(w.c, e) && Starts(w.c) && n == w.c.status.build.jobName
    ensures n in w.c.builds ==> n in Reconcile(w.c, e).builds
  {
    hide Reconcile, NextLog, JobsInv, ActiveInv, LedgerInv, CleanupInv, PhaseInv, RetentionInv, AfterBuild,
      AfterObserve, Recording, Starts, PhaseOf, WasRecorded, Creates;
    LoggedJobs(w, e);
    BuildsAfter(w.c, e);
    NamesMove(w.c, e);
    RecordedAfter(w, e, n);
    BuildJobNameInjective(w.c.name, w.c.status.lastProcessed, w.c.annotations.token);
    if Seeds(w.c, e) {
      FreshTokenUncreated(w, e.seed, n);
      StartedIsSeeded(w);
    }
  }

  /** Asymmetric retention: in every reachable state a Job with a TTL completed, so a failed Job
      is kept. */
  lemma FailedJobsAreRetained(w: World, n: string)
    requires Reachable(w) && n in w.c.builds && !w.c.builds[n].finish.JobComplete?
    ensures n !in w.c.expiring
  {
    hide JobsInv, ActiveInv, StatusInv, LedgerInv, CleanupInv, PhaseInv;
    ReachableInv(w);
  }

  /** A TTL appears only when a pass observes the success, and then at once: if that pass does not
      persist it, the Job may expire before it is recorded. */
  lemma TtlPrecedesTheRecord(w: World, e: Env, n: string)
    requires Reachable(w) && Enabled(w, Operate(e)) && n !in w.c.expiring && n in Next(w, Operate(e)).c.expiring
    ensures n in w.c.builds && w.c.builds[n].finish.JobComplete? && !WasRecorded(w.log, n)
    ensures WasRecorded(Next(w, Operate(e)).log, n) <==> Persists(w.c, e)
  {
    hide Reconcile, ActiveInv, LedgerInv, CleanupInv, PhaseInv, RecordOutcome, H.NotIn;
    ReachableInv(w);
    ExpiringAfter(w.c, e);
    DecidedBuild(w.c, e);
    ObservedBuild(w.c, e);
    RecordedAfter(w, e, n);
    if Starts(w.c) {
      StartsUnrecorded(w);
    }
  }

  // ---- expired builds ----

  /** Status shows a build in flight whose Job is gone. */
  predicate Stranded(c: Cluster) {
    c.status.build.jobName != "" && !Terminal(c.status.build) && c.status.build.jobName !in c.builds
  }

  /** And no new token is there to replace it. */
  predicate DeadEnd(c: Cluster) { Stranded(c) && c.status.lastProcessed == c.annotations.token }

  lemma StrandedHasExpired(w: World)
    requires Reachable(w) && Stranded(w.c)
    ensures w.c.status.build.jobName in w.log.expired && !WasRecorded(w.log, w.c.status.build.jobName)
  {
    hide Reachable, ActiveInv, LedgerInv, CleanupInv, PhaseInv, RetentionInv;
    ReachableInv(w);
  }

  /** Observing ignores a missing Job, so every pass leaves the record in flight and starts nothing. */
  lemma DeadEndPass(w: World, e: Env)
    requires Inv(w) && Enabled(w, Operate(e)) && DeadEnd(w.c)
    ensures var r := Reconcile(w.c, e);
            DeadEnd(r) && r.status.build == w.c.status.build && r.builds == w.c.builds
                && !Creates(w.c, e) && !Recording(w.c, e)
  {
    hide Reconcile, JobsInv, ActiveInv, CleanupInv, RetentionInv, RecordOutcome;
    BuildsAfter(w.c, e);
    StatusAfter(w.c, e);
    DecidedBuild(w.c, e);
    assert !NeedsSeed(w.c) by { StartedIsSeeded(w); }
  }

  lemma StartedIsSeeded(w: World)
    requires Inv(w)
    ensures w.c.status.build.jobName != "" ==> !NeedsSeed(w.c)
  {
    hide JobsInv, ActiveInv, CleanupInv, RetentionInv, Ledger;
  }

  /** A dead end is left exactly by a new token. */
  lemma DeadEndStep(w: World, v: Event)
    requires Inv(w) && Enabled(w, v) && DeadEnd(w.c)
    ensures DeadEnd(Next(w, v).c) <==> !v.Patch?
    ensures Next(w, v).c.status.build == w.c.status.build
    ensures Next(w, v).log.created == w.log.created && Next(w, v).log.recorded == w.log.recorded
  {
    hide Reconcile, JobsInv, ActiveInv, LedgerInv, CleanupInv, PhaseInv, RetentionInv, AfterObserve;
    if v.Operate? {
      DeadEndPass(w, v.env);
    }
  }

  /** Until then the build shows in flight, unchanged, however often the operator reconciles. */
  lemma {:induction false} DeadEndForever(ws: seq<World>, vs: seq<Event>, k: nat)
    requires IsRun(ws, vs) && Reachable(ws[0]) && DeadEnd(ws[0].c) && k < |ws|
    requires forall i :: 0 <= i < k ==> !vs[i].Patch?
    ensures DeadEnd(ws[k].c) && ws[k].c.status.build == ws[0].c.status.build
    ensures ws[k].log.created == ws[0].log.created && ws[k].log.recorded == ws[0].log.recorded
  {
    hide Inv, Enabled, NextCluster, NextLog, DeadEnd;
    if k == 0 {
    } else {
      DeadEndForever(ws, vs, k - 1);
      ReachableInv(ws[0]);
      RunKeepsInv(ws, vs, k - 1);
      DeadEndStep(ws[k - 1], vs[k - 1]);
    }
  }

  /** A pass creates a Job for the second time exactly when it expired unrecorded; no pass had
      adopted it into status then. */
  lemma CreatedAgainIff(w: World, e: Env)
    requires Reachable(w) && Enabled(w, Operate(e)) && Creates(w.c, e)
    ensures NextJob(w.c) in w.log.created <==> NextJob(w.c) in w.log.expired
    ensures NextJob(w.c) != w.c.status.build.jobName
  {
    hide Reachable, ActiveInv, LedgerInv, CleanupInv, PhaseInv, RetentionInv;
    ReachableInv(w);
    StartsUnrecorded(w);
    BuildJobNameInjective(w.c.name, w.c.status.lastProcessed, w.c.annotations.token);
  }

  // ---- ledger ----

  /** Histories, streak, success flag and conditions say what was recorded, no more. */
  lemma StatusTellsTheLog(w: World)
    requires Reachable(w)
    ensures w.c.status.history <= H.NewestFirst(w.log.recorded) && H.DistinctJobs(w.c.status.history)
    ensures w.c.status.failedHistory <= H.FailedNewestFirst(w.log.recorded)
    ensures forall i :: 0 <= i < |w.c.status.failedHistory| ==> |w.c.status.failedHistory[i].steps| <= 1
    ensures w.c.status.failureStreak == H.Streak(w.log.recorded)
    ensures HasSucceededOnce(w.c.status) <==> AnySuccess(w.log.recorded)
  {
    ReachableInv(w);
    H.HistoryJobsDistinct(w.log.recorded, w.c.status.history);
    forall i | 0 <= i < |w.c.status.failedHistory|
      ensures |w.c.status.failedHistory[i].steps| <= 1
    {
      H.FailedEntriesTrimmed(w.log.recorded, i);
    }
  }

  /** Condition types are unique, and Degraded holds exactly when the latest persisted event
      among rejections and recorded builds was a rejection or a failure. */
  lemma DegradedIsLatestVerdict(w: World)
    requires Reachable(w)
    ensures UniqueTypes(w.c.status.conditions)
    ensures Holds(w.c.status.conditions, Degraded) <==> w.log.verdicts != [] && w.log.verdicts[|w.log.verdicts| - 1]
  {
    ReachableInv(w);
  }

  lemma {:induction false} SuccessNeverReverts(ws: seq<World>, vs: seq<Event>, k: nat)
    requires IsRun(ws, vs) && Reachable(ws[0]) && HasSucceededOnce(ws[0].c.status) && k < |ws|
    ensures HasSucceededOnce(ws[k].c.status)
  {
    hide Enabled, NextCluster, NextLog, JobsInv, ActiveInv, StatusInv, CleanupInv, PhaseInv, RetentionInv;
    if k == 0 {
    } else {
      SuccessNeverReverts(ws, vs, k - 1);
      ReachableInv(ws[0]);
      RunKeepsInv(ws, vs, k - 1);
      RunKeepsInv(ws, vs, k);
      RecordedGrows(ws[k - 1], vs[k - 1]);
    }
  }

  lemma RecordedGrows(w: World, v: Event)
    requires Enabled(w, v)
    ensures AnySuccess(w.log.recorded) ==> AnySuccess(Next(w, v).log.recorded)
  {
    if v.Operate? {
      PushSuccess(w.log.recorded, AfterObserve(w.c, v.env).status.build);
    }
  }

  /** What the derived phase says in every reachable state: awaiting exactly until something was
      started, degraded exactly when the latest verdict was bad and a build has ended once, ready
      exactly when it was good and none is observed running. */
  lemma PhaseTellsTheStory(w: World)
    requires Reachable(w)
    ensures var st, bad := w.c.status, w.log.verdicts != [] && w.log.verdicts[|w.log.verdicts| - 1];
            var ended := AnySuccess(w.log.recorded) || Terminal(st.build);
            && (PhaseOf(st) == AwaitingFirstBuild <==> st.build.jobName == "")
            && (PhaseOf(st) == AppDegraded <==> ended && bad)
            && (PhaseOf(st) == AppReady <==> ended && !bad && st.build.phase != BuildRunning)
            && (PhaseOf(st) == Building <==>
                st.build.jobName != "" && (ended ==> !bad && st.build.phase == BuildRunning))
  {
    hide JobsInv, ActiveInv, CleanupInv, H.NewestFirst, H.FailedNewestFirst, H.Streak, Holds;
    ReachableInv(w);
  }

  /** The phase on display, in every reachable state: none before the first status write,
      Degraded after a persisted rejection, and what status derives after a persisted pass. */
  lemma DisplayedPhase(w: World)
    requires Reachable(w)
    ensures w.c.status.phase == if w.log.writes == [] then NoAppPhase
                                else if w.log.writes[|w.log.writes| - 1].Refused? then AppDegraded
                                else PhaseOf(w.c.status)
  {
    hide Reachable, JobsInv, ActiveInv, StatusInv, LedgerInv, CleanupInv, RetentionInv, PhaseOf;
    ReachableInv(w);
  }

  /** Position of the latest write that was a rejection or showed another phase than Degraded. */
  function Deciding(writes: seq<Write>): (i: int)
    ensures -1 <= i < |writes|
    ensures i >= 0 ==> writes[i] != Accepted(AppDegraded)
    ensures forall k :: i < k < |writes| ==> writes[k] == Accepted(AppDegraded)
  {
    if writes == [] then -1
    else if writes[|writes| - 1] != Accepted(AppDegraded) then |writes| - 1
    else Deciding(writes[..|writes| - 1])
  }

  /** Ready, in every reachable state: it holds exactly when that write was a pass in phase Ready. */
  lemma ReadyIsDecided(w: World)
    requires Reachable(w)
    ensures Holds(w.c.status.conditions, Ready) <==>
            Deciding(w.log.writes) >= 0 && w.log.writes[Deciding(w.log.writes)] == Accepted(AppReady)
  {
    hide JobsInv, ActiveInv, StatusInv, LedgerInv, CleanupInv, RetentionInv, Holds;
    ReachableInv(w);
    ReadyIsLatest(w.log.writes);
  }

  lemma {:induction false} ReadyIsLatest(writes: seq<Write>)
    ensures ReadyAfter(writes) <==> Deciding(writes) >= 0 && writes[Deciding(writes)] == Accepted(AppReady)
  {
    if writes == [] {
    } else {
      ReadyIsLatest(writes[..|writes| - 1]);
    }
  }

  /** What the record of a failed build says, for every pod the kubelet can produce under the
      spec `p` it was built from and whatever the live spec is: the container that broke and how,
      exactly when the live timeline lists it, and otherwise nothing. */
  lemma FailureIsExplained(b: BuildStatus, spec: AppSpec, job: BuildJob, now: int, p: P.PipelineSpec, dflt: seq<string>,
                           run: seq<P.ContainerState>, c: nat)
    requires job.finish.JobFailed? && job.pod.Some?
    requires P.Reports(job.pod.value, p, dflt, run) && P.Sequential(run) && c < |run| && P.Broke(run[c])
    ensures var r, broken := TerminalBuild(b, spec, job, now), P.Containers(p, dflt)[c];
            var exit := Termination(
                          run[c].reason, broken, run[c].exitCode, P.MemoryLimit(job.pod.value, broken),
                          run[c].finishedAt);
            if broken in P.ApplicableSteps(spec.pipeline)
            then r.failedStep == Some(broken) && r.termination == Some(exit)
            else r.failedStep == None && r.termination == b.termination
  {
    hide P.DeriveSteps, P.ApplicableSteps, StampMessage, P.Sequential;
    P.BlamedStep(p, spec.pipeline, dflt, job.pod.value, run, c, false);
    P.NoReleaseContainer(p, dflt, c);
  }

  /** Whom a failed build with a broken container is reported as: the platform exactly when that is
      the copier or one the live timeline does not list. That is right unless it is a setup or
      fetch container, edited out of the spec while the build ran or, for fetch, not configured. */
  lemma BrokenContainerBlamed(b: BuildStatus, spec: AppSpec, job: BuildJob, now: int, p: P.PipelineSpec,
                              dflt: seq<string>, run: seq<P.ContainerState>, c: nat)
    requires job.finish.JobFailed? && job.pod.Some? && b.termination == None
    requires P.Reports(job.pod.value, p, dflt, run) && P.Sequential(run) && c < |run| && P.Broke(run[c])
    ensures var r, broken := TerminalBuild(b, spec, job, now), P.Containers(p, dflt)[c];
            var listed, blamed := broken in P.ApplicableSteps(spec.pipeline),
                PlatformFault(OutcomeReason(r), r.failedStep);
            && (blamed <==> broken == P.Copier || !listed)
            && ((blamed <==> !UserStep(broken)) <==> (broken == P.Setup || broken == P.Fetch ==> listed))
  {
    hide TerminalBuild, P.Sequential;
    FailureIsExplained(b, spec, job, now, p, dflt, run, c);
    P.NoReleaseContainer(p, dflt, c);
  }

  /** A failed build whose pod is gone, or in which no container broke, blames no step: it ran into
      its deadline, or was stopped from outside. */
  lemma UnexplainedFailure(b: BuildStatus, spec: AppSpec, job: BuildJob, now: int, p: P.PipelineSpec,
                           dflt: seq<string>, run: seq<P.ContainerState>)
    requires job.finish.JobFailed? && b.termination == None
    requires job.pod.Some? ==>
               P.Reports(job.pod.value, p, dflt, run) && forall c :: 0 <= c < |run| ==> !P.Broke(run[c])
    ensures var r := TerminalBuild(b, spec, job, now);
            r.failedStep == None && r.termination == None && PlatformFault(OutcomeReason(r), r.failedStep)
  {
    hide P.ApplicableSteps, P.FailedStep, StampMessage;
    if job.pod.Some? {
      P.NobodyBlamed(p, spec.pipeline, dflt, job.pod.value, run, false);
    } else {
      P.NoEndNoFailure(P.DeriveSteps(P.ApplicableSteps(spec.pipeline), None, false));
    }
  }

  /** A step the user owns and the live timeline lists broke in the pod the Job left. */
  ghost predicate UserBroke(job: BuildJob, spec: AppSpec, p: P.PipelineSpec, dflt: seq<string>,
                            run: seq<P.ContainerState>)
    requires job.pod.Some? ==> P.Reports(job.pod.value, p, dflt, run)
  {
    job.pod.Some?
    && exists c :: 0 <= c < |run| && P.Broke(run[c]) && UserStep(P.Containers(p, dflt)[c])
                   && P.Containers(p, dflt)[c] in P.ApplicableSteps(spec.pipeline)
  }

  /** Every failed build is reported as the platform's, unless a listed step of the user broke: so
      are a timeout, a pod that is gone and a step edited out of the spec. */
  lemma PlatformBlamedIff(b: BuildStatus, spec: AppSpec, job: BuildJob, now: int, p: P.PipelineSpec, dflt: seq<string>,
                          run: seq<P.ContainerState>)
    requires job.finish.JobFailed? && b.termination == None
    requires job.pod.Some? ==> P.Reports(job.pod.value, p, dflt, run) && P.Sequential(run)
    ensures var r := TerminalBuild(b, spec, job, now);
            PlatformFault(OutcomeReason(r), r.failedStep) <==> !UserBroke(job, spec, p, dflt, run)
  {
    hide TerminalBuild, P.Reports, PlatformFault, P.ApplicableSteps;
    if c :| job.pod.Some? && 0 <= c < |run| && P.Broke(run[c]) {
      BrokenContainerBlamed(b, spec, job, now, p, dflt, run, c);
      OnlyBreak(job, p, dflt, run, c);
    } else {
      UnexplainedFailure(b, spec, job, now, p, dflt, run);
    }
  }

  /** No second container breaks, and one that did is a user's, the copier or the shim's. */
  lemma OnlyBreak(job: BuildJob, p: P.PipelineSpec, dflt: seq<string>, run: seq<P.ContainerState>, c: nat)
    requires job.pod.Some? && P.Reports(job.pod.value, p, dflt, run) && P.Sequential(run)
    requires c < |run| && P.Broke(run[c])
    ensures forall d :: 0 <= d < |run| && P.Broke(run[d]) ==> d == c
    ensures |run| == |P.Containers(p, dflt)|
    ensures UserStep(P.Containers(p, dflt)[c]) || P.Containers(p, dflt)[c] == P.Copier
        || P.Containers(p, dflt)[c] == P.ShimInstall
    ensures forall spec: AppSpec :: P.ShimInstall !in P.ApplicableSteps(spec.pipeline)
  {}

  // ---- cleanup ----

  /** A cleanup Job appears only through the operator, only when no build and no other cleanup
      Job is unfinished before or after the step, and only under a name that is free, so its
      Create never meets an existing Job. */
  lemma CleanupIsExclusive(w: World, v: Event, m: CleanupMode)
    requires Reachable(w) && Enabled(w, v)
    requires m in Next(w, v).c.cleanups && (m in w.c.cleanups ==> w.c.cleanups[m].uid != Next(w, v).c.cleanups[m].uid)
    ensures v.Operate? && m !in w.c.cleanups
    ensures !BuildActive(w.c.builds) && !BuildActive(Next(w, v).c.builds)
    ensures !CleanupActive(w.c.cleanups)
  {
    if v.Operate? {
      ExclusivePass(w.c, v.env, m);
    }
  }

  lemma ExclusivePass(c: Cluster, e: Env, m: CleanupMode)
    requires m in Reconcile(c, e).cleanups && (m in c.cleanups ==> c.cleanups[m].uid != Reconcile(c, e).cleanups[m].uid)
    ensures m !in c.cleanups && !BuildActive(c.builds) && !BuildActive(Reconcile(c, e).builds)
        && !CleanupActive(c.cleanups)
  {
    hide Reconcile, StartsCache, StartsReleases, CleanupActive, BuildActive;
    CleanupsAfter(c, e);
    BuildsAfter(c, e);
  }

  lemma SingleActiveCleanup(w: World, m: CleanupMode, k: CleanupMode)
    requires Reachable(w) && m in w.c.cleanups && k in w.c.cleanups
    requires w.c.cleanups[m].finish.Unfinished? && w.c.cleanups[k].finish.Unfinished?
    ensures m == k
  {
    ReachableInv(w);
  }

  // ---- durable before delete ----

  /** The bytes a finished cleanup Job freed, and its message: a failure frees none, and a result
      that cannot be read counts as none. */
  function Freed(job: CleanupJob): int {
    if job.finish.JobComplete? && job.result.Some? then job.result.value.reclaimed else 0
  }

  function Verdict(job: CleanupJob): CleanupMessage
    requires !job.finish.Unfinished?
  {
    if job.finish.JobFailed? then FailedWith(job.finish.message)
    else if job.result.Some? then Summary(job.result.value)
    else Completed
  }

  /** The result fields of an action say what this Job reported. */
  predicate Shows(a: CleanupAction, job: CleanupJob, at: int)
    requires !job.finish.Unfinished?
  {
    a.completedAt == Some(at) && a.reclaimed == Freed(job) && a.message == Verdict(job)
  }

  /** A result counted as persisted is there to be read. */
  lemma ResultIsVisible(w: World, e: Env, m: CleanupMode)
    requires Enabled(w, Operate(e)) && Persists(w.c, e) && ReadsResult(w.c.status, w.c.cleanups, m)
    ensures Shows(Action(Next(w, Operate(e)).c.status, m), w.c.cleanups[m], e.now)
    ensures w.c.cleanups[m].uid in Next(w, Operate(e)).log.resulted
  {
    hide Reconcile, StartsCache, StartsReleases, AfterMeasure, AfterCleanup, NewUids;
    ActionAfter(w.c, e, m);
    ActionsUntouched(w.c, e, m);
    CleanupJobs(w.c, e);
  }

  /** The operator deletes a cleanup Job only after a successful status write. Its result is
      persisted by then exactly when it was before or the action had not ended yet, and in
      particular when the Job's start was persisted. */
  lemma CleanupDurableBeforeDelete(w: World, e: Env, m: CleanupMode)
    requires Reachable(w) && Enabled(w, Operate(e))
    requires m in w.c.cleanups && m !in Next(w, Operate(e)).c.cleanups
    ensures Persists(w.c, e) && !w.c.cleanups[m].finish.Unfinished?
    ensures w.c.cleanups[m].uid in w.log.started ==> w.c.cleanups[m].uid in Next(w, Operate(e)).log.resulted
    ensures w.c.cleanups[m].uid in Next(w, Operate(e)).log.resulted
        <==> w.c.cleanups[m].uid in w.log.resulted || !ActionEnded(Action(w.c.status, m))
  {
    hide Reconcile, StartsCache, StartsReleases, NewUids, AfterMeasure, JobsInv, ActiveInv, StatusInv, LedgerInv,
        PhaseInv;
    ReachableInv(w);
    CleanupsAfter(w.c, e);
    ActionsUntouched(w.c, e, CacheMode);
    ActionsUntouched(w.c, e, ReleasesMode);
    if ReadsResult(w.c.status, w.c.cleanups, m) {
      ResultIsVisible(w, e, m);
    }
  }

  /** The operator deletes a measure Job only after a successful status write whose sizes hold
      the Job's bytes, or, for the cache, the size a cache prune reported in the same pass. */
  lemma MeasureDurableBeforeDelete(c: Cluster, e: Env, v: Volume)
    requires v in c.measures && v !in Reconcile(c, e).measures
    ensures Persists(c, e) && Readable(c.measures[v])
    ensures var sizes := Reconcile(c, e).status.storage.sizes;
            && VolumeKey(v) in sizes
            && (|| sizes[VolumeKey(v)] == c.measures[v].bytes.value
                || (&& v == CacheVolume && ReadsResult(c.status, c.cleanups, CacheMode)
                    && c.cleanups[CacheMode].result.Some?
                    && sizes[VolumeKey(v)] == c.cleanups[CacheMode].result.value.after))
  {
    MeasureDeleted(c, e, v);
    MeasureMerged(c, e, v);
    CleanupSizes(c, e, VolumeKey(v));
  }

  lemma MeasuresGrow(c: Cluster, e: Env, v: Volume)
    requires v in c.measures
    ensures v in AfterObserve(c, e).measures
  {}

  lemma ReachedMeasures(c: Cluster, e: Env, v: Volume)
    requires v in c.measures
    ensures v in Reached(c, e).measures
  {
    hide AfterBuild, AfterObserve, AfterMeasure, AfterCacheAction, AfterCleanup;
    MeasuresGrow(c, e, v);
    EarlyFrame(c, e);
    LateFrame(c, e);
  }

  lemma MeasureDeleted(c: Cluster, e: Env, v: Volume)
    requires v in c.measures && v !in Reconcile(c, e).measures
    ensures Persists(c, e) && Readable(c.measures[v])
  {
    hide Reached, AfterCleanup, AfterObserve, Final;
    ReachedMeasures(c, e, v);
    MeasuresGrow(c, e, v);
    FinalFrame(c, e);
  }

  lemma MeasureMerged(c: Cluster, e: Env, v: Volume)
    requires v in c.measures && Readable(c.measures[v])
    ensures var sizes := AfterMeasure(c, e).status.storage.sizes;
            VolumeKey(v) in sizes && sizes[VolumeKey(v)] == c.measures[v].bytes.value
  {
    hide AfterObserve;
    assert "cache" != "dataCache";
  }

  /** Sizes a pass writes after measuring. */
  lemma CleanupSizes(c: Cluster, e: Env, key: string)
    requires Persists(c, e) && key in {"cache", "dataCache"}
    ensures var m, f := AfterMeasure(c, e).status.storage.sizes, Reconcile(c, e).status.storage.sizes;
            key in m ==>
              && key in f
              && (|| f[key] == m[key]
                  || (&& key == "cache" && ReadsResult(c.status, c.cleanups, CacheMode)
                      && c.cleanups[CacheMode].result.Some?
                      && f[key] == c.cleanups[CacheMode].result.value.after))
  {
    hide AfterMeasure;
    var st := AfterMeasure(c, e).status;
    ActionsUntouched(c, e, CacheMode);
    WritebackSizes(st, c.cleanups, e.now, key);
    CleanupActFrame(AfterCleanupObserve(c, e), c, Busy(c), false, CacheMode, e.now);
    CleanupActFrame(AfterCacheAction(c, e), c, Busy(c), StartsCache(c, e), ReleasesMode, e.now);
  }

  lemma WritebackSizes(st: AppStatus, cleanups: map<CleanupMode, CleanupJob>, now: int, key: string)
    requires key in {"cache", "dataCache"}
    ensures var m, f := st.storage.sizes, ObserveCleanups(st, cleanups, now).storage.sizes;
            key in m ==>
              && key in f
              && (|| f[key] == m[key]
                  || (&& key == "cache" && ReadsResult(st, cleanups, CacheMode) && cleanups[CacheMode].result.Some?
                      && f[key] == cleanups[CacheMode].result.value.after))
  {}
}
