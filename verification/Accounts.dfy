/** What status says about builds as a function of what happened to them: the requests they were
    started for, how their Jobs ended, and the limits in force when they were recorded. */
module Accounts {
  import opened Util
  import opened Status
  import opened Operator
  import opened Protocol
  import opened Invariant
  import opened Theorems
  import opened Causes
  import H = History
  import P = Pipeline

  // ---- the request of a build ----

  /** The record is that of a build started for this request: by a user, else for a commit, else
      by the clock. */
  predicate StartedFor(b: BuildStatus, app: string, a: Annotations) {
    && b.jobName == BuildJobName(app, a.token)
    && (b.trigger == Manual <==> a.user != "")
    && (b.trigger == Commit <==> a.user == "" && a.commit != "")
    && (b.trigger == Scheduled <==> a.user == "" && a.commit == "")
    && b.triggeredBy == a.user
    && b.commit == if a.user == "" then a.commit else ""
  }

  /** Observing a build leaves alone what it was started with. */
  predicate SameStart(a: BuildStatus, b: BuildStatus) {
    && a.jobName == b.jobName && a.trigger == b.trigger && a.triggeredBy == b.triggeredBy && a.commit == b.commit
    && a.attempts == b.attempts && a.startTime == b.startTime && a.images == b.images
  }

  lemma ObservedStart(st: AppStatus, spec: AppSpec, builds: map<string, BuildJob>, now: int)
    ensures SameStart(ObserveBuild(st, spec, builds, now).build, st.build)
  {}

  /** A persisted pass that starts a build leaves the record of this request. */
  lemma StartedRecord(c: Cluster, e: Env)
    requires Persists(c, e) && Starts(c)
    ensures var b := Reconcile(c, e).status.build;
            && StartedFor(b, c.name, c.annotations)
            && b.startTime == Some(e.now) && b.attempts == c.status.build.attempts + 1 && b.images == c.spec.images
  {
    hide Reconcile, ObserveBuild, AfterCleanup;
    StatusAfter(c, e);
    DecidedBuild(c, e);
    ObservedStart(AfterBuild(c, e).status, c.spec, c.builds, e.now);
  }

  /** Any other pass leaves these fields as they are. */
  lemma StartKept(c: Cluster, e: Env)
    requires !(Persists(c, e) && Starts(c))
    ensures SameStart(Reconcile(c, e).status.build, c.status.build)
  {
    hide Reconcile, ObserveBuild, AfterCleanup;
    StatusAfter(c, e);
    DecidedBuild(c, e);
    ObservedStart(AfterBuild(c, e).status, c.spec, c.builds, e.now);
  }

  // ---- what follows from the evidence ----

  /** Failed requests of the clock since the last success. */
  function ClockStreak(evidence: seq<Evidence>): nat {
    if evidence == [] then 0
    else
      var before, last := ClockStreak(evidence[..|evidence| - 1]), evidence[|evidence| - 1];
      if last.job.finish.JobComplete? then 0
      else if last.request.user == "" && last.request.commit == "" then before + 1
      else before
  }

  /** Entries left in the history, each recording having cut it at the cap then in force. */
  function Kept(evidence: seq<Evidence>): nat {
    if evidence == [] then 0
    else H.Capped(Kept(evidence[..|evidence| - 1]), evidence[|evidence| - 1].spec.keepRecent)
  }

  function FailedKept(evidence: seq<Evidence>): nat {
    if evidence == [] then 0
    else
      var before, last := FailedKept(evidence[..|evidence| - 1]), evidence[|evidence| - 1];
      if last.job.finish.JobComplete? then before else H.Capped(before, last.spec.keepFailed)
  }

  predicate LastCompleted(evidence: seq<Evidence>) {
    evidence != [] && evidence[|evidence| - 1].job.finish.JobComplete?
  }

  ghost predicate AccountsInv(w: World) {
    var st, log := w.c.status, w.log;
    && st.build.attempts == |log.requests|
    && (st.build.jobName != "" ==> StartedFor(st.build, w.c.name, LastRequest(log)))
    && |log.evidence| == |log.recorded|
    && (forall i :: 0 <= i < |log.recorded| ==> StartedFor(log.recorded[i], w.c.name, log.evidence[i].request))
    && st.failureStreak == ClockStreak(log.evidence)
    && |st.history| == Kept(log.evidence) && |st.failedHistory| == FailedKept(log.evidence)
    && (Holds(st.conditions, BuildSucceeded) <==> LastCompleted(log.evidence))
  }

  // ---- one pass ----

  lemma LoggedRequest(w: World, e: Env)
    ensures NextLog(w, Operate(e)).requests
        == if Persists(w.c, e) && Starts(w.c) then w.log.requests + [w.c.annotations] else w.log.requests
  {
    hide Recording, Creates, Seeds, Persists, NewUids, ResultUids, AfterObserve, CopierReport;
  }

  /** What recording one outcome does to the accounts. */
  lemma OutcomeAccounts(st: AppStatus, spec: AppSpec, job: BuildJob, now: int, recorded: seq<BuildStatus>)
    requires !job.finish.Unfinished? && H.NotIn(st.build.jobName, recorded)
    requires st.history <= H.NewestFirst(recorded) && st.failedHistory <= H.FailedNewestFirst(recorded)
    ensures var o := RecordOutcome(st, spec, job, now);
            && |o.history| == H.Capped(|st.history|, spec.keepRecent)
            && |o.failedHistory| == (if job.finish.JobComplete? then |st.failedHistory|
                                     else H.Capped(|st.failedHistory|, spec.keepFailed))
            && (Holds(o.conditions, BuildSucceeded) <==> job.finish.JobComplete?)
            && o.failureStreak == (if job.finish.JobComplete? then 0
                                   else if st.build.trigger == Scheduled || st.build.trigger == NoTrigger
                                   then st.failureStreak + 1 else st.failureStreak)
  {
    hide H.Append, OutcomeConditions, Holds, DetectTermination, P.DeriveSteps, P.FailedStep, StampMessage,
      RecordSuccess;
    var rec := TerminalBuild(st.build, spec, job, now);
    H.NewestFirstNames(recorded);
    H.FailedNames(recorded, st.build.jobName);
    H.AppendEffect(st.history, rec, spec.keepRecent);
    H.AppendEffect(st.failedHistory, H.Trim(rec), spec.keepFailed);
    OutcomeConditionsEffect(st.conditions, rec, now);
  }

  /** The accounts in memory once the build has been observed. */
  lemma ObservedAccounts(w: World, e: Env)
    requires Inv(w) && AccountsInv(w) && Persists(w.c, e)
    ensures var o, c := AfterObserve(w.c, e).status, w.c.status;
            if Recording(w.c, e) then
              var ev := EvidenceOf(w, e);
              && |o.history| == H.Capped(|c.history|, ev.spec.keepRecent)
              && |o.failedHistory| == (if ev.job.finish.JobComplete? then |c.failedHistory|
                                       else H.Capped(|c.failedHistory|, ev.spec.keepFailed))
              && (Holds(o.conditions, BuildSucceeded) <==> ev.job.finish.JobComplete?)
              && o.failureStreak == (if ev.job.finish.JobComplete? then 0
                                     else if ev.request.user == "" && ev.request.commit == "" then c.failureStreak + 1
                                     else c.failureStreak)
              && StartedFor(o.build, w.c.name, ev.request)
            else
              && o.history == c.history && o.failedHistory == c.failedHistory && o.failureStreak == c.failureStreak
              && o.conditions == c.conditions
  {
    hide RecordOutcome, H.Append, Holds, JobsInv, ActiveInv, CleanupInv, PhaseInv, RetentionInv, ObserveBuild,
      H.NewestFirst, H.FailedNewestFirst, H.Streak, ClockStreak, Kept, FailedKept;
    DecidedBuild(w.c, e);
    ObservedBuild(w.c, e);
    var st := AfterBuild(w.c, e).status;
    if Recording(w.c, e) {
      assert H.NotIn(st.build.jobName, w.log.recorded) by { RecordingIsNew(w, e); }
      OutcomeAccounts(st, w.c.spec, RecordedJob(w.c, e), e.now, w.log.recorded);
      ObservedStart(st, w.c.spec, w.c.builds, e.now);
    }
  }

  lemma RecordingIsNew(w: World, e: Env)
    requires Inv(w) && Recording(w.c, e)
    ensures H.NotIn(AfterBuild(w.c, e).status.build.jobName, w.log.recorded)
  {
    hide ActiveInv, LedgerInv, CleanupInv, PhaseInv, RetentionInv;
    RecordingFacts(w, e);
    ObservedBuild(w.c, e);
  }

  /** A pass that is not persisted leaves the accounts alone, and so does a rejection. */
  lemma ConditionsKept(c: Cluster, e: Env)
    ensures Holds(Reconcile(c, e).status.conditions, BuildSucceeded)
        == Holds(if Persists(c, e) then AfterObserve(c, e).status.conditions else c.status.conditions, BuildSucceeded)
  {
    hide Reconcile, AfterObserve, Holds;
    StatusAfter(c, e);
    if Persists(c, e) {
      FinalFrame(c, e);
      CommittedStatus(c, e);
      ReadyConditionsEffect(AfterObserve(c, e).status.conditions, Final(c, e).status.phase, e.now);
    } else if Rejects(e) {
      RejectedEffect(c.status, e.rejection.value, e.now);
    }
  }

  lemma AccountsAfterPass(w: World, e: Env)
    requires Inv(w) && AccountsInv(w) && Enabled(w, Operate(e))
    ensures AccountsInv(Next(w, Operate(e)))
  {
    hide Reconcile, NextLog, Inv, Holds, RecordOutcome, Recording, AfterObserve, Starts, StartedFor, H.Capped;
    var w' := Next(w, Operate(e));
    LoggedRecord(w, e);
    LoggedRequest(w, e);
    StatusAfter(w.c, e);
    BuildsAfter(w.c, e);
    ConditionsKept(w.c, e);
    RecordingPersists(w.c, e);
    StartMoves(w, e);
    if Persists(w.c, e) {
      ObservedAccounts(w, e);
    }
    if Recording(w.c, e) {
      EvidencePush(w.log.evidence, EvidenceOf(w, e));
    }
  }

  lemma RecordingPersists(c: Cluster, e: Env)
    ensures Recording(c, e) ==> Persists(c, e)
  {}

  lemma EvidencePush(evidence: seq<Evidence>, ev: Evidence)
    ensures (evidence + [ev])[..|evidence|] == evidence && (evidence + [ev])[|evidence|] == ev
  {}

  /** The request of the build in status after a pass. */
  lemma StartMoves(w: World, e: Env)
    requires Inv(w) && AccountsInv(w) && Enabled(w, Operate(e))
    ensures var w' := Next(w, Operate(e));
            && w'.c.status.build.attempts == |w'.log.requests|
            && (w'.c.status.build.jobName != "" ==> StartedFor(w'.c.status.build, w'.c.name, LastRequest(w'.log)))
  {
    hide Reconcile, NextLog, Inv, Holds, ClockStreak, Kept, FailedKept;
    BuildsAfter(w.c, e);
    LoggedRequest(w, e);
    if Persists(w.c, e) && Starts(w.c) {
      StartedRecord(w.c, e);
    } else {
      StartKept(w.c, e);
    }
  }

  lemma AccountsStep(w: World, v: Event)
    requires Inv(w) && Enabled(w, v) && AccountsInv(w)
    ensures AccountsInv(Next(w, v))
  {
    hide Inv, Holds, Reconcile, StartedFor, ClockStreak, Kept, FailedKept;
    if v.Operate? {
      AccountsAfterPass(w, v.env);
    }
  }

  lemma {:induction false} RunKeepsAccounts(ws: seq<World>, vs: seq<Event>, k: nat)
    requires IsRun(ws, vs) && Initial(ws[0]) && k < |ws|
    ensures AccountsInv(ws[k])
  {
    hide Inv, Enabled, NextCluster, NextLog, AccountsInv;
    if k == 0 {
      NothingYet(ws[0]);
    } else {
      RunKeepsAccounts(ws, vs, k - 1);
      InitialInv(ws[0]);
      RunKeepsInv(ws, vs, k - 1);
      AccountsStep(ws[k - 1], vs[k - 1]);
    }
  }

  lemma NothingYet(w: World)
    requires Initial(w)
    ensures AccountsInv(w)
  {}

  lemma ReachableAccounts(w: World)
    requires Reachable(w)
    ensures AccountsInv(w)
  {
    hide Enabled, NextCluster, NextLog, AccountsInv, Initial;
    var ws, vs :| RunTo(ws, vs, w);
    RunKeepsAccounts(ws, vs, |vs|);
  }

  // ---- in every reachable state ----

  /** Every record, and the build in status, says what it was started for; the attempts are the
      builds status has named. */
  lemma RecordsTellTheRequest(w: World)
    requires Reachable(w)
    ensures |w.log.evidence| == |w.log.recorded|
    ensures forall i :: 0 <= i < |w.log.recorded| ==> StartedFor(w.log.recorded[i], w.c.name, w.log.evidence[i].request)
    ensures w.c.status.build.jobName != "" ==> StartedFor(w.c.status.build, w.c.name, LastRequest(w.log))
    ensures w.c.status.build.attempts == |w.log.requests|
  {
    hide Reachable, StartedFor, ClockStreak, Kept, FailedKept, Holds;
    ReachableAccounts(w);
  }

  /** The alert's counter is the number of requests of the clock that failed since the last
      success, and BuildSucceeded says how the last recorded Job ended. */
  lemma StreakCountsTheClock(w: World)
    requires Reachable(w)
    ensures w.c.status.failureStreak == ClockStreak(w.log.evidence)
    ensures Holds(w.c.status.conditions, BuildSucceeded) <==> LastCompleted(w.log.evidence)
  {
    hide Reachable, StartedFor, ClockStreak, Kept, FailedKept, Holds;
    ReachableAccounts(w);
  }

  function Shorter(n: nat, cap: int): nat { if cap < 0 || n <= cap then n else cap }

  lemma {:induction false} KeptUnderCap(evidence: seq<Evidence>, cap: int)
    requires forall i :: 0 <= i < |evidence| ==> evidence[i].spec.keepRecent == cap
    ensures Kept(evidence) == Shorter(|evidence|, cap)
  {
    if evidence == [] {
    } else {
      KeptUnderCap(evidence[..|evidence| - 1], cap);
    }
  }

  lemma {:induction false} FailedKeptUnderCap(recorded: seq<BuildStatus>, evidence: seq<Evidence>, cap: int)
    requires |recorded| == |evidence|
    requires forall i :: 0 <= i < |evidence| ==>
               evidence[i].spec.keepFailed == cap
               && (recorded[i].result == ResultFailed <==> !evidence[i].job.finish.JobComplete?)
    ensures FailedKept(evidence) == Shorter(|H.FailedNewestFirst(recorded)|, cap)
  {
    if evidence == [] {
    } else {
      FailedKeptUnderCap(H.Init(recorded), evidence[..|evidence| - 1], cap);
    }
  }

  lemma ToldResult(rec: BuildStatus, ev: Evidence)
    requires Told(rec, ev)
    ensures rec.result == ResultFailed <==> !ev.job.finish.JobComplete?
  {
    hide P.DeriveSteps, P.FailedStep, DetectTermination, StampMessage;
  }

  /** Under a cap that never changed the histories are complete up to it: the newest records, newest
      first, and the newest failures, each cut at the cap; without one (a negative cap) all of them. */
  lemma HistoryIsComplete(w: World, cap: int)
    requires Reachable(w)
    requires forall i :: 0 <= i < |w.log.evidence| ==> w.log.evidence[i].spec.keepRecent == cap
    ensures var all := H.NewestFirst(w.log.recorded); w.c.status.history == all[..Shorter(|all|, cap)]
  {
    hide Reachable, JobsInv, ActiveInv, StatusInv, CleanupInv, PhaseInv, RetentionInv, StartedFor, ClockStreak,
      FailedKept, Holds;
    ReachableInv(w);
    ReachableAccounts(w);
    KeptUnderCap(w.log.evidence, cap);
    H.NewestFirstNames(w.log.recorded);
  }

  lemma FailedHistoryIsComplete(w: World, cap: int)
    requires Reachable(w)
    requires forall i :: 0 <= i < |w.log.evidence| ==> w.log.evidence[i].spec.keepFailed == cap
    ensures var all := H.FailedNewestFirst(w.log.recorded); w.c.status.failedHistory == all[..Shorter(|all|, cap)]
  {
    hide Reachable, JobsInv, ActiveInv, StatusInv, CleanupInv, PhaseInv, RetentionInv, StartedFor, ClockStreak, Kept,
      FailedKept, Holds, Told, Releases, Reporters, H.FailedNewestFirst;
    ReachableInv(w);
    ReachableAccounts(w);
    ReachableCauses(w);
    forall i | 0 <= i < |w.log.recorded|
      ensures w.log.recorded[i].result == ResultFailed <==> !w.log.evidence[i].job.finish.JobComplete?
    {
      ToldResult(w.log.recorded[i], w.log.evidence[i]);
    }
    FailedKeptUnderCap(w.log.recorded, w.log.evidence, cap);
  }

  // ---- the step a failed entry keeps ----

  lemma {:induction false} FailedStepIsListed(steps: seq<P.BuildStep>) returns (i: nat)
    requires P.FailedStep(steps).Some?
    ensures i < |steps| && steps[i].name == P.FailedStep(steps).value
    ensures forall k :: 0 <= k < i ==> steps[k].name != steps[i].name
  {
    i := NameAt(steps, P.FailedStep(steps).value);
  }

  lemma {:induction false} NameAt(steps: seq<P.BuildStep>, name: P.Step) returns (i: nat)
    requires P.FailedStep(steps) == Some(name)
    ensures i < |steps| && steps[i].name == name && forall k :: 0 <= k < i ==> steps[k].name != name
  {
    if steps[0].name == name {
      i := 0;
    } else {
      i := NameAt(steps[1..], name);
      i := i + 1;
    }
  }

  /** The failed step of a terminal record is in its timeline. */
  lemma TerminalListsFailed(b: BuildStatus, spec: AppSpec, job: BuildJob, now: int) returns (i: nat)
    requires !job.finish.Unfinished? && TerminalBuild(b, spec, job, now).failedStep.Some?
    ensures var r := TerminalBuild(b, spec, job, now);
            && i < |r.steps| && r.failedStep == Some(r.steps[i].name)
            && forall k :: 0 <= k < i ==> r.steps[k].name != r.steps[i].name
  {
    hide P.FailedStep, DetectTermination, P.DeriveSteps, P.AllSucceeded, StampMessage, P.ApplicableSteps;
    var ok, names := job.finish.JobComplete?, P.ApplicableSteps(spec.pipeline);
    var steps := if ok && job.pod.None? then P.AllSucceeded(names) else P.DeriveSteps(names, job.pod, ok);
    i := FailedStepIsListed(steps);
    var term := if ok then None else DetectTermination(job.pod, P.FailedStep(steps));
    if term.Some? {
      StampKeepsNames(steps, term.value.container, TerminationNote(term.value));
    }
  }

  /** In every reachable state an entry of the failed history that names a failed step has exactly
      that step left. */
  lemma FailedEntryKeepsItsStep(w: World, i: nat)
    requires Reachable(w) && i < |w.c.status.failedHistory| && w.c.status.failedHistory[i].failedStep.Some?
    ensures var e := w.c.status.failedHistory[i]; |e.steps| == 1 && e.failedStep == Some(e.steps[0].name)
  {
    hide Reachable, JobsInv, ActiveInv, StatusInv, CleanupInv, PhaseInv, RetentionInv, TerminalBuild, H.FirstNamed;
    ReachableInv(w);
    var k := H.FailedEntryIsTrim(w.log.recorded, i);
    var b, now := RecordHasCause(w, k);
    var j := TerminalListsFailed(b, w.log.evidence[k].spec, w.log.evidence[k].job, now);
    H.TrimEffect(w.log.recorded[k], j);
  }
}
