/** What a persisted pass leaves in status, field by field, in terms of the Jobs, annotations and spec
    it met. */
module Effects {
  import opened Util
  import opened Status
  import opened Operator
  import opened Protocol
  import opened Invariant
  import opened Theorems
  import opened Convergence
  import P = Pipeline
  import Storage

  // ---- cleanup actions ----

  /** An action after the decision: started for a request, waiting under one, or as it was. */
  function Decided(a: CleanupAction, starts: bool, asked: bool, token: string, user: string, now: int): CleanupAction {
    if starts then CleanupAction(token, user, CleanupRunning, Some(now), None, a.reclaimed, a.message)
    else if asked then
      CleanupAction(a.requestedAt, if user != "" then user else a.requestedBy, CleanupPending, a.startedAt,
        a.completedAt, a.reclaimed, a.message)
    else a
  }

  lemma ActionDecided(c: Cluster, snap: Cluster, busy: bool, started: bool, m: CleanupMode, now: int)
    ensures Action(CleanupAct(c, snap, busy, started, m, now).status, m)
        == Decided(Action(c.status, m), CleanupChoice(c, snap, busy, started, m).StartCleanup?, Asked(c, m),
             RequestedToken(c.annotations, m), RequestedBy(c.annotations, m), now)
  {}

  /** Observing a result does not change whether a request is open. */
  lemma AskedInMemory(c: Cluster, e: Env, m: CleanupMode)
    ensures Asked(AfterCleanupObserve(c, e), m) == Asked(c, m)
    ensures m == ReleasesMode ==>
              && Asked(AfterCacheAction(c, e), m) == Asked(c, m)
              && Action(AfterCacheAction(c, e).status, m) == ObservedAction(c, e, m)
    ensures AfterCleanupObserve(c, e).annotations == c.annotations == AfterCacheAction(c, e).annotations
  {
    hide AfterMeasure, CleanupAct, Busy;
    ActionsObserved(c, e, m);
    EarlyFrame(c, e);
    LateFrame(c, e);
    CleanupActFrame(AfterCleanupObserve(c, e), c, Busy(c), false, CacheMode, e.now);
  }

  lemma ActionWritten(c: Cluster, e: Env, m: CleanupMode)
    requires Persists(c, e)
    ensures Action(Reconcile(c, e).status, m)
        == Decided(ObservedAction(c, e, m), StartsMode(c, e, m), Asked(c, m), RequestedToken(c.annotations, m),
             RequestedBy(c.annotations, m), e.now)
  {
    hide AfterCleanupObserve, CleanupAct, RefreshPhase, CleanupChoice, Reconcile, Asked, Busy, Decided, ObservedAction,
      Later, Final;
    var o, k := AfterCleanupObserve(c, e), AfterCacheAction(c, e);
    ActionsObserved(c, e, m);
    FinalFrame(c, e);
    CommittedStatus(c, e);
    CleanupActFrame(k, c, Busy(c), StartsCache(c, e), ReleasesMode, e.now);
    AskedInMemory(c, e, m);
    if m == CacheMode {
      ActionDecided(o, c, Busy(c), false, m, e.now);
    } else {
      ActionDecided(k, c, Busy(c), StartsCache(c, e), m, e.now);
    }
  }

  // The two actions, spelled out.

  function Recorded(st: AppStatus, m: CleanupMode): CleanupAction {
    match m
    case CacheMode => st.cache
    case ReleasesMode => st.releases
  }

  function Token(a: Annotations, m: CleanupMode): string {
    match m
    case CacheMode => a.cacheToken
    case ReleasesMode => a.releasesToken
  }

  function Requester(a: Annotations, m: CleanupMode): string {
    match m
    case CacheMode => a.cacheBy
    case ReleasesMode => a.releasesBy
  }

  /** A request that the action has not been started for. */
  predicate Open(c: Cluster, m: CleanupMode) {
    Token(c.annotations, m) != "" && Token(c.annotations, m) != Recorded(c.status, m).requestedAt
  }

  /** A finished Job of the mode under an action that has not ended. */
  predicate Unread(c: Cluster, m: CleanupMode) {
    && m in c.cleanups && !c.cleanups[m].finish.Unfinished?
    && Recorded(c.status, m).phase != CleanupSucceeded && Recorded(c.status, m).phase != CleanupFailed
  }

  /** The pass starts a cleanup of the mode exactly for an open request, with no build running or
      started by it, no cleanup running, no Job of the mode left, and the cache first. */
  predicate Runs(c: Cluster, m: CleanupMode) {
    && Open(c, m) && m !in c.cleanups
    && (forall n :: n in c.builds ==> !c.builds[n].finish.Unfinished?)
    && c.annotations.token == c.status.lastProcessed
    && (forall k :: k in c.cleanups ==> !c.cleanups[k].finish.Unfinished?)
    && (m == ReleasesMode ==> !(Open(c, CacheMode) && CacheMode !in c.cleanups))
  }

  lemma SpelledOut(c: Cluster, e: Env, m: CleanupMode)
    ensures Recorded(c.status, m) == Action(c.status, m) && Token(c.annotations, m) == RequestedToken(c.annotations, m)
    ensures Requester(c.annotations, m) == RequestedBy(c.annotations, m)
    ensures Open(c, m) == Asked(c, m) && Unread(c, m) == ReadsResult(c.status, c.cleanups, m)
    ensures Runs(c, m) == StartsMode(c, e, m)
  {
    hide StartsCache, StartsReleases;
    CalmStarts(c, e);
  }

  /** The action of a mode after a pass: started, waiting, ended with the result read, or as it was. */
  lemma ActionAfterPass(c: Cluster, e: Env, m: CleanupMode)
    requires Persists(c, e)
    ensures var a, f := Recorded(c.status, m), Recorded(Reconcile(c, e).status, m);
            var token, user := Token(c.annotations, m), Requester(c.annotations, m);
            && f.requestedAt == (if Runs(c, m) then token else a.requestedAt)
            && f.requestedBy == (if Runs(c, m) || (Open(c, m) && user != "") then user else a.requestedBy)
            && f.phase == (if Runs(c, m) then CleanupRunning
                           else if Open(c, m) then CleanupPending
                           else if Unread(c, m) then (if c.cleanups[m].finish.JobComplete? then CleanupSucceeded
                                                      else CleanupFailed)
                           else a.phase)
            && f.startedAt == (if Runs(c, m) then Some(e.now) else a.startedAt)
            && f.completedAt == (if Runs(c, m) then None else if Unread(c, m) then Some(e.now) else a.completedAt)
            && f.reclaimed == (if Unread(c, m) then Freed(c.cleanups[m]) else a.reclaimed)
            && f.message == if Unread(c, m) then Verdict(c.cleanups[m]) else a.message
  {
    hide Reconcile, StartsMode, Asked, RequestedToken, RequestedBy, Persists, Runs, Open;
    ActionWritten(c, e, m);
    SpelledOut(c, e, m);
  }

  // ---- the build record ----

  /** A pass over a running build shows its pod and the timeline through the live spec, and nothing
      else of the record moves. */
  lemma RunningRecord(c: Cluster, e: Env, n: string)
    requires Persists(c, e) && !Starts(c) && n != "" && n == c.status.build.jobName && !Terminal(c.status.build)
    requires n in c.builds && c.builds[n].finish.Unfinished?
    ensures var b, r, pod := c.status.build, Reconcile(c, e).status.build, c.builds[n].pod;
            r == b.(phase := BuildRunning,
                    podName := if pod.Some? then pod.value.name else b.podName,
                    steps := if pod.Some? then P.DeriveSteps(P.ApplicableSteps(c.spec.pipeline), pod, false)
                             else b.steps)
  {
    hide Reconcile, AfterCleanup, P.DeriveSteps, P.ApplicableSteps;
    StatusAfter(c, e);
    DecidedBuild(c, e);
  }

  /** The Job a pass creates is rendered from the live spec and stamped with its hash; the others stay. */
  lemma CreatedJob(c: Cluster, e: Env)
    ensures var r := Reconcile(c, e).builds;
            && (Creates(c, e) ==>
                  && NextJob(c) !in c.builds && r.Keys == c.builds.Keys + {NextJob(c)}
                  && r[NextJob(c)] == BuildJob(Unfinished, c.spec.hash, c.spec.images, None))
            && (!Creates(c, e) ==> r.Keys == c.builds.Keys)
            && forall n :: n in c.builds ==> r[n] == c.builds[n]
  {
    hide Reconcile, Launches;
    BuildsAfter(c, e);
  }

  /** The build a pass looks at: the one it starts, else the one in status. */
  function Watched(c: Cluster): string { if Starts(c) then NextJob(c) else c.status.build.jobName }

  /** A TTL appears exactly when a pass gets to see the completed Job of a build not ended in status,
      and the patch works; none goes. */
  lemma TtlAfterPass(c: Cluster, e: Env, n: string)
    ensures n in Reconcile(c, e).expiring <==>
            || n in c.expiring
            || (&& Passes(c, e) && !e.fault.AtBuildDecision? && !e.fault.AtObserve? && !e.ttlFails
                && n == Watched(c) && n != "" && n in c.builds && c.builds[n].finish.JobComplete?
                && (Starts(c) || !Terminal(c.status.build)))
  {
    hide Reconcile, NeedsSeed;
    ExpiringAfter(c, e);
    DecidedBuild(c, e);
  }

  /** A pass that starts a build whose Job is not there leaves it pending with its steps pending. */
  lemma PendingRecord(c: Cluster, e: Env)
    requires Persists(c, e) && Starts(c) && NextJob(c) !in c.builds
    ensures var r, names := Reconcile(c, e).status.build, P.ApplicableSteps(c.spec.pipeline);
            && r.phase == BuildPending && r.result == NoResult && r.completionTime == None && r.podName == ""
            && r.failedStep == None && r.message == "" && r.logsRef == ""
            && |r.steps| == |names| && forall k :: 0 <= k < |names| ==> r.steps[k] == P.PlainStep(names[k], P.Pending)
  {
    hide Reconcile, AfterCleanup, P.ApplicableSteps;
    StatusAfter(c, e);
    DecidedBuild(c, e);
  }

  /** What ending a build writes into its record, beyond the timeline. */
  lemma EndedRecord(b: BuildStatus, spec: AppSpec, job: BuildJob, now: int)
    requires !job.finish.Unfinished?
    ensures var r, ok := TerminalBuild(b, spec, job, now), job.finish.JobComplete?;
            && r.completionTime == Some(now)
            && r.podName == (if job.pod.Some? then job.pod.value.name else b.podName)
            && (job.finish.JobFailed? ==> r.message == job.finish.message && r.logsRef == b.jobName)
            && (ok ==> r.message == b.message && r.logsRef == b.logsRef && r.termination == b.termination)
            && (ok && job.pod.None? ==> forall s :: s in r.steps ==> s.status == P.Succeeded)
            && (ok && job.pod.Some? ==> r.steps == P.DeriveSteps(P.ApplicableSteps(spec.pipeline), job.pod, true))
            && |r.steps| == |P.ApplicableSteps(spec.pipeline)|
  {
    hide P.DeriveStep, P.FailedStep, DetectTermination, P.ApplicableSteps, StampMessage, TerminationNote;
    var names := P.ApplicableSteps(spec.pipeline);
    var steps := if job.finish.JobComplete? && job.pod.None? then P.AllSucceeded(names)
                 else P.DeriveSteps(names, job.pod, job.finish.JobComplete?);
    var term := if job.finish.JobComplete? then None else DetectTermination(job.pod, P.FailedStep(steps));
    if term.Some? {
      StampKeepsNames(steps, term.value.container, TerminationNote(term.value));
    }
  }

  /** The timeline of a failed build: each listed step as the pod shows it, and on the one that broke
      how, with the memory limit if it has one. */
  lemma FailedTimeline(b: BuildStatus, spec: AppSpec, job: BuildJob, now: int, k: nat)
    requires job.finish.JobFailed? && k < |P.ApplicableSteps(spec.pipeline)|
    ensures var r := TerminalBuild(b, spec, job, now);
            var name := P.ApplicableSteps(spec.pipeline)[k];
            |r.steps| == |P.ApplicableSteps(spec.pipeline)|
            && r.steps[k] == P.DeriveStep(name, job.pod, false).(message :=
                 if job.pod.Some? && r.failedStep == Some(name) && name != P.Release
                 then BrokenNote(P.Seen(job.pod.value, name), P.MemoryLimit(job.pod.value, name)) else "")
  {
    hide P.DeriveStep, P.Seen, P.ApplicableSteps, P.MemoryLimit, StampMessage, P.FailedStep;
    var names := P.ApplicableSteps(spec.pipeline);
    var steps := P.DeriveSteps(names, job.pod, false);
    StepsAreDistinct(spec.pipeline);
    forall j | 0 <= j < |names| ensures steps[j].name == names[j] && steps[j].message == "" {
      PlainMessage(names[j], job.pod, false);
    }
    var failed := P.FailedStep(steps);
    if failed.Some? {
      var i := P.FailedStepAt(steps);
      var term := DetectTermination(job.pod, failed);
      if term.Some? {
        StampMessageAt(steps, names[i], TerminationNote(term.value), i);
      } else if failed.value != P.Release && job.pod.Some? {
        BrokenIsTerminated(names[i], job.pod.value);
      }
    }
  }

  /** The note on a container that broke. */
  function BrokenNote(s: P.ContainerState, limit: string): string {
    if !s.Terminated? || s.reason == "" then ""
    else if limit == "" then s.reason
    else s.reason + " (limit " + limit + ")"
  }

  lemma StepsAreDistinct(p: P.PipelineSpec)
    ensures var names := P.ApplicableSteps(p);
            forall i, j :: 0 <= i < j < |names| ==> names[i] != names[j]
  {}

  lemma PlainMessage(name: P.Step, pod: Option<P.Pod>, done: bool)
    ensures P.DeriveStep(name, pod, done).name == name && P.DeriveStep(name, pod, done).message == ""
  {}

  lemma BrokenIsTerminated(name: P.Step, pod: P.Pod)
    requires P.Ended(P.DeriveStep(name, Some(pod), false).status)
    ensures P.Seen(pod, name).Terminated?
  {}

  // ---- marks of a success ----

  /** The pass records that a Job completed. */
  predicate RecordsSuccess(c: Cluster, e: Env) { Recording(c, e) && RecordedJob(c, e).finish.JobComplete? }

  /** The hash stamped on a Job, or, where there is none, that of the live spec. */
  function BuiltHash(job: BuildJob, spec: AppSpec): string { if job.specHash == "" then spec.hash else job.specHash }

  lemma OutcomeMarks(st: AppStatus, spec: AppSpec, job: BuildJob, now: int)
    requires !job.finish.Unfinished?
    ensures var o, ok := RecordOutcome(st, spec, job, now), job.finish.JobComplete?;
            var served := ok && CopierReport(job).Some? && CopierReport(job).value.release != "";
            && o.lastProcessed == st.lastProcessed && o.lastBuild == st.lastBuild
            && o.lastSuccess == (if ok then Some(now) else st.lastSuccess)
            && o.lastBuiltHash == (if ok then BuiltHash(job, spec) else st.lastBuiltHash)
            && o.specStale == (if ok then spec.hash != o.lastBuiltHash else st.specStale)
            && o.servingSince == if served then Some(now) else st.servingSince
  {
    hide TerminalBuild, OutcomeConditions;
  }

  lemma MarksAfterPass(c: Cluster, e: Env)
    requires Persists(c, e)
    ensures var st, r := c.status, Reconcile(c, e).status;
            && r.lastProcessed == (if Starts(c) then c.annotations.token else st.lastProcessed)
            && r.lastBuild == (if Starts(c) then Some(e.now) else st.lastBuild)
            && r.lastSuccess == (if RecordsSuccess(c, e) then Some(e.now) else st.lastSuccess)
            && r.lastBuiltHash == (if RecordsSuccess(c, e) then BuiltHash(RecordedJob(c, e), c.spec)
                                   else st.lastBuiltHash)
            && r.specStale == (c.spec.hash != r.lastBuiltHash)
            && r.servingSince == (if RecordsSuccess(c, e) && NewRelease(c, e) != [] then Some(e.now)
                                  else st.servingSince)
  {
    hide Reconcile, AfterCleanup, RecordOutcome, ObserveBuild, CopierReport, NeedsSeed;
    StatusAfter(c, e);
    DecidedBuild(c, e);
    ObservedBuild(c, e);
    if Recording(c, e) {
      OutcomeMarks(AfterBuild(c, e).status, c.spec, RecordedJob(c, e), e.now);
    }
  }

  // ---- conditions ----

  /** The step that ran out of memory, and its limit if it has one. */
  function OomText(t: Termination): string {
    if t.memoryLimit == "" then "the " + P.StepName(t.container) + " step was OOMKilled"
    else "the " + P.StepName(t.container) + " step exceeded its " + t.memoryLimit + " memory limit"
  }

  lemma OomTextIs(t: Termination)
    ensures OomMessage(t) == OomText(t)
  {
    var step := "the " + P.StepName(t.container) + " step ";
    assert "the " + P.StepName(t.container) + " step was OOMKilled" == step + "was OOMKilled";
    assert "the " + P.StepName(t.container) + " step exceeded its " == step + "exceeded its ";
  }

  /** What an outcome sets: BuildSucceeded and its opposite Degraded, with one reason and message. */
  lemma OutcomeSays(conds: seq<Condition>, rec: BuildStatus, now: int)
    ensures var c, ok := OutcomeConditions(conds, rec, now), rec.result == ResultSucceeded;
            var oom := !ok && rec.termination.Some? && rec.termination.value.reason == "OOMKilled";
            var reason := if ok then "Ready" else if oom then "OOMKilled" else "BuildFailed";
            var message := if ok then "build succeeded" else if oom then OomText(rec.termination.value)
                           else rec.message;
            && Holds(c, BuildSucceeded) == ok && Says(c, BuildSucceeded, reason, message)
            && Holds(c, Degraded) == !ok && Says(c, Degraded, reason, message)
            && Cond(c, Ready) == Cond(conds, Ready)
  {
    hide Cond, Holds, SetCond, OomMessage, OomText;
    var ok := rec.result == ResultSucceeded;
    var reason, message := if ok then "Ready" else OutcomeReason(rec), OutcomeMessage(rec);
    if rec.termination.Some? {
      OomTextIs(rec.termination.value);
    }
    SetCondEffect(conds, BuildSucceeded, ok, reason, message, now);
    SetCondEffect(SetCond(conds, BuildSucceeded, ok, reason, message, now), Degraded, !ok, reason, message, now);
  }

  /** The persisted conditions: those of the outcome recorded, or the ones from before. */
  lemma ConditionsAfterPass(c: Cluster, e: Env)
    requires Persists(c, e)
    ensures var r := Reconcile(c, e).status.conditions;
            forall t :: t != Ready ==>
              Cond(r, t) == Cond(if Recording(c, e)
                                 then OutcomeConditions(c.status.conditions, Reconcile(c, e).status.build, e.now)
                                 else c.status.conditions, t)
  {
    hide Reconcile, OutcomeConditions, Cond, AfterCleanup, TerminalBuild;
    StatusAfter(c, e);
    DecidedBuild(c, e);
    ObservedBuild(c, e);
    FinalFrame(c, e);
    CommittedStatus(c, e);
    ReadyConditionsEffect(AfterObserve(c, e).status.conditions, Final(c, e).status.phase, e.now);
  }

  /** A rejection clears Ready and sets Degraded, with its reason and message, and nothing else. */
  lemma RejectionSays(st: AppStatus, r: Rejection, now: int)
    ensures var c := Rejected(st, r, now);
            && c == st.(phase := AppDegraded, conditions := c.conditions)
            && !Holds(c.conditions, Ready) && Says(c.conditions, Ready, r.reason, r.message)
            && Holds(c.conditions, Degraded) && Says(c.conditions, Degraded, r.reason, r.message)
            && Cond(c.conditions, BuildSucceeded) == Cond(st.conditions, BuildSucceeded)
  {
    hide Cond, Holds, SetCond;
    SetCondEffect(st.conditions, Ready, false, r.reason, r.message, now);
    SetCondEffect(SetCond(st.conditions, Ready, false, r.reason, r.message, now), Degraded, true, r.reason,
        r.message, now);
  }

  // ---- the first token ----

  /** The operator seeds a token exactly for an App that was never built and has none, and that is
      all such a pass does. */
  lemma SeedsIff(w: World, e: Env)
    requires Reachable(w)
    ensures Seeds(w.c, e) <==>
            && e.rejection.None? && !e.fault.AtInfra?
            && w.c.status.build.jobName == "" && w.c.annotations.token == ""
    ensures Seeds(w.c, e) ==>
              Reconcile(w.c, e) == w.c.(annotations := w.c.annotations.(token := e.seed, user := "", commit := ""))
    ensures !Seeds(w.c, e) ==> Reconcile(w.c, e).annotations == w.c.annotations
  {
    hide Reachable, PhaseOf, Reached, Committed;
    PhaseTellsTheStory(w);
    BuildsAfter(w.c, e);
  }

  // ---- measure Jobs ----

  /** When a pass asks for new sizes: it records a success, the last sizes are old enough or there are
      none, and no build runs. */
  predicate WantsSizes(c: Cluster, e: Env) {
    && RecordsSuccess(c, e)
    && (c.status.storage.measuredAt.None? || c.status.storage.measuredAt.value + c.spec.measureInterval <= e.now)
    && forall n :: n in c.builds ==> !c.builds[n].finish.Unfinished?
  }

  /** The Jobs of a round: cache first, up to the first Create that fails. */
  predicate Creatable(v: Volume, failed: Option<Volume>) {
    match failed
    case None => true
    case Some(f) => v == CacheVolume && f == DataCacheVolume
  }

  lemma MeasuresAfterPass(c: Cluster, e: Env, v: Volume)
    requires Persists(c, e)
    ensures var r := Reconcile(c, e).measures;
            if v in c.measures then
              if Readable(c.measures[v]) && v !in e.stuckMeasures then v !in r else v in r && r[v] == c.measures[v]
            else if WantsSizes(c, e) && Creatable(v, e.failedMeasure) then
              v in r && r[v] == MeasureJob(Unfinished, None)
            else v !in r
  {
    hide AfterCleanup, ObserveBuild, RefreshPhase, Storage.Worst;
    FinalFrame(c, e);
    DecidedBuild(c, e);
    RoundEffect(c.measures, e.failedMeasure, v);
  }

  lemma RoundEffect(measures: map<Volume, MeasureJob>, failed: Option<Volume>, v: Volume)
    ensures var r := CreateMeasures(measures, failed);
            if v in measures then v in r && r[v] == measures[v]
            else if Creatable(v, failed) then v in r && r[v] == MeasureJob(Unfinished, None)
            else v !in r
  {
    assert v == CacheVolume || v == DataCacheVolume;
    if failed.Some? {
      assert failed.value == CacheVolume || failed.value == DataCacheVolume;
    }
  }
}
