/** What every recorded build was recorded from. In every reachable state the log of records, the
    failures they explain and the releases they report follow from the Jobs the passes saw. */
module Causes {
  import opened Util
  import opened Status
  import opened Operator
  import opened Protocol
  import opened Invariant
  import opened Theorems
  import P = Pipeline

  // ---- records and their evidence ----

  /** The record is the finished form of a build that had not ended before. */
  ghost predicate Told(rec: BuildStatus, ev: Evidence) {
    && !ev.job.finish.Unfinished?
    && exists b: BuildStatus, now: int :: b.termination == None && rec == TerminalBuild(b, ev.spec, ev.job, now)
  }

  /** The Job completed and its pod named a release. */
  predicate Reported(ev: Evidence) {
    ev.job.finish.JobComplete? && CopierReport(ev.job).Some? && CopierReport(ev.job).value.release != ""
  }

  /** The releases reported, oldest first, and the Jobs that reported them. */
  function Releases(evidence: seq<Evidence>): seq<string> {
    if evidence == [] then []
    else
      var before, last := Releases(evidence[..|evidence| - 1]), evidence[|evidence| - 1];
      if Reported(last) then before + [CopierReport(last.job).value.release] else before
  }

  function Reporters(recorded: seq<BuildStatus>, evidence: seq<Evidence>): (r: seq<string>)
    requires |recorded| == |evidence|
    ensures |r| == |Releases(evidence)|
  {
    if evidence == [] then []
    else
      var n := |evidence| - 1;
      var before := Reporters(recorded[..n], evidence[..n]);
      if Reported(evidence[n]) then before + [recorded[n].jobName] else before
  }

  ghost predicate CausesInv(log: Log) {
    && |log.evidence| == |log.recorded|
    && (forall i :: 0 <= i < |log.recorded| ==> Told(log.recorded[i], log.evidence[i]))
    && log.released == Releases(log.evidence)
    && log.releasedBy == Reporters(log.recorded, log.evidence)
  }

  lemma RecordIsTold(w: World, e: Env)
    requires Inv(w) && Recording(w.c, e)
    ensures Told(AfterObserve(w.c, e).status.build, EvidenceOf(w, e))
  {
    hide TerminalBuild, JobsInv, ActiveInv, LedgerInv, CleanupInv, PhaseInv, RetentionInv;
    DecidedBuild(w.c, e);
    ObservedBuild(w.c, e);
    var b := AfterBuild(w.c, e).status.build;
    assert AfterObserve(w.c, e).status.build == TerminalBuild(b, w.c.spec, RecordedJob(w.c, e), e.now);
  }

  /** The log entries of a recording pass. */
  lemma LoggedRecord(w: World, e: Env)
    ensures var log, n := NextLog(w, Operate(e)), |w.log.recorded|;
            if Recording(w.c, e)
            then var rec, ev := AfterObserve(w.c, e).status.build, EvidenceOf(w, e);
                 && log.recorded == w.log.recorded + [rec] && log.evidence == w.log.evidence + [ev]
                 && log.released == w.log.released + (if Reported(ev) then [CopierReport(ev.job).value.release] else [])
                 && log.releasedBy == w.log.releasedBy + if Reported(ev) then [rec.jobName] else []
            else && log.recorded == w.log.recorded && log.evidence == w.log.evidence
                 && log.released == w.log.released && log.releasedBy == w.log.releasedBy
  {
    hide Recording, Creates, Seeds, Persists, NewUids, ResultUids, AfterObserve, CopierReport;
  }

  lemma CausesPush(log: Log, log': Log, rec: BuildStatus, ev: Evidence)
    requires CausesInv(log) && Told(rec, ev)
    requires log'.recorded == log.recorded + [rec] && log'.evidence == log.evidence + [ev]
    requires log'.released == log.released + if Reported(ev) then [CopierReport(ev.job).value.release] else []
    requires log'.releasedBy == log.releasedBy + if Reported(ev) then [rec.jobName] else []
    ensures CausesInv(log')
  {
    hide Told, Reported;
    var n := |log.recorded|;
    assert log'.recorded[..n] == log.recorded && log'.evidence[..n] == log.evidence;
  }

  lemma CausesStep(w: World, v: Event)
    requires Inv(w) && Enabled(w, v) && CausesInv(w.log)
    ensures CausesInv(Next(w, v).log)
  {
    hide Inv, Told, Releases, Reporters, Recording, AfterObserve, Reconcile;
    if v.Operate? {
      LoggedRecord(w, v.env);
      if Recording(w.c, v.env) {
        RecordIsTold(w, v.env);
        CausesPush(w.log, Next(w, v).log, AfterObserve(w.c, v.env).status.build, EvidenceOf(w, v.env));
      }
    }
  }

  lemma {:induction false} RunKeepsCauses(ws: seq<World>, vs: seq<Event>, k: nat)
    requires IsRun(ws, vs) && Initial(ws[0]) && k < |ws|
    ensures CausesInv(ws[k].log)
  {
    hide Inv, Enabled, NextCluster, NextLog, CausesInv;
    if k == 0 {
      NothingCaused(ws[0]);
    } else {
      RunKeepsCauses(ws, vs, k - 1);
      InitialInv(ws[0]);
      RunKeepsInv(ws, vs, k - 1);
      CausesStep(ws[k - 1], vs[k - 1]);
    }
  }

  lemma NothingCaused(w: World)
    requires Initial(w)
    ensures CausesInv(w.log)
  {}

  lemma ReachableCauses(w: World)
    requires Reachable(w)
    ensures CausesInv(w.log)
  {
    hide Enabled, NextCluster, NextLog, CausesInv, Initial;
    var ws, vs :| RunTo(ws, vs, w);
    RunKeepsCauses(ws, vs, |vs|);
  }

  // ---- failures ----

  /** What a reachable record was made from. */
  lemma RecordHasCause(w: World, i: nat) returns (b: BuildStatus, now: int)
    requires Reachable(w) && i < |w.log.recorded|
    ensures |w.log.evidence| == |w.log.recorded| && !w.log.evidence[i].job.finish.Unfinished?
    ensures b.termination == None
        && w.log.recorded[i] == TerminalBuild(b, w.log.evidence[i].spec, w.log.evidence[i].job, now)
  {
    hide Reachable, TerminalBuild, Releases, Reporters;
    ReachableCauses(w);
    assert Told(w.log.recorded[i], w.log.evidence[i]);
    b, now :| b.termination == None
              && w.log.recorded[i] == TerminalBuild(b, w.log.evidence[i].spec, w.log.evidence[i].job, now);
  }

  /** Every failure on record names the container that broke in the pod it was recorded from, and
      how, exactly when the spec of that moment lists it, and otherwise nothing. */
  lemma RecordedFailureIsExplained(w: World, i: nat, p: P.PipelineSpec, dflt: seq<string>, run: seq<P.ContainerState>,
                                   c: nat)
    requires Reachable(w) && i < |w.log.recorded| && w.log.recorded[i].result == ResultFailed
    requires P.Sequential(run) && c < |run| && P.Broke(run[c])
    ensures |w.log.evidence| == |w.log.recorded|
    ensures var r, ev := w.log.recorded[i], w.log.evidence[i];
            ev.job.pod.Some? && P.Reports(ev.job.pod.value, p, dflt, run) ==>
              var broken := P.Containers(p, dflt)[c];
              var exit := Termination(
                            run[c].reason, broken, run[c].exitCode, P.MemoryLimit(ev.job.pod.value, broken),
                            run[c].finishedAt);
              if broken in P.ApplicableSteps(ev.spec.pipeline)
              then r.failedStep == Some(broken) && r.termination == Some(exit)
              else r.failedStep == None && r.termination == None
  {
    hide Reachable, TerminalBuild, P.Sequential, P.Broke, P.ApplicableSteps, P.Containers;
    var b, now := RecordHasCause(w, i);
    var ev := w.log.evidence[i];
    if ev.job.pod.Some? && P.Reports(ev.job.pod.value, p, dflt, run) {
      FailureIsExplained(b, ev.spec, ev.job, now, p, dflt, run, c);
    }
  }

  /** Every failure on record was reported as the platform's, unless a listed step of the user
      broke in the pod it was recorded from. */
  lemma RecordedFailureBlamed(w: World, i: nat, p: P.PipelineSpec, dflt: seq<string>, run: seq<P.ContainerState>)
    requires Reachable(w) && i < |w.log.recorded| && w.log.recorded[i].result == ResultFailed && P.Sequential(run)
    ensures |w.log.evidence| == |w.log.recorded|
    ensures var r, ev := w.log.recorded[i], w.log.evidence[i];
            (ev.job.pod.Some? ==> P.Reports(ev.job.pod.value, p, dflt, run)) ==>
              (PlatformFault(OutcomeReason(r), r.failedStep) <==> !UserBroke(ev.job, ev.spec, p, dflt, run))
  {
    hide Reachable, TerminalBuild, P.Reports, P.Sequential, PlatformFault, UserBroke;
    var b, now := RecordHasCause(w, i);
    var ev := w.log.evidence[i];
    if ev.job.pod.Some? ==> P.Reports(ev.job.pod.value, p, dflt, run) {
      PlatformBlamedIff(b, ev.spec, ev.job, now, p, dflt, run);
    }
  }

  // ---- releases ----

  /** Job `n` is on record with the release it reported. */
  ghost predicate OnRecord(log: Log, n: string, release: string)
    requires |log.evidence| == |log.recorded|
  {
    exists i :: 0 <= i < |log.recorded| && log.recorded[i].jobName == n && Reported(log.evidence[i])
                && CopierReport(log.evidence[i].job).value.release == release
  }

  lemma {:induction false} ReportersAreRecorded(recorded: seq<BuildStatus>, evidence: seq<Evidence>, k: nat)
      returns (i: nat)
    requires |recorded| == |evidence| && k < |Releases(evidence)|
    ensures i < |recorded| && recorded[i].jobName == Reporters(recorded, evidence)[k] && Reported(evidence[i])
    ensures CopierReport(evidence[i].job).value.release == Releases(evidence)[k]
  {
    hide Reported;
    var n := |evidence| - 1;
    if k < |Releases(evidence[..n])| {
      i := ReportersAreRecorded(recorded[..n], evidence[..n], k);
    } else {
      i := n;
    }
  }

  lemma {:induction false} RecordedIsReporter(recorded: seq<BuildStatus>, evidence: seq<Evidence>, i: nat)
      returns (k: nat)
    requires |recorded| == |evidence| && i < |recorded| && Reported(evidence[i])
    ensures k < |Releases(evidence)| && Reporters(recorded, evidence)[k] == recorded[i].jobName
    ensures Releases(evidence)[k] == CopierReport(evidence[i].job).value.release
  {
    hide Reported;
    var n := |evidence| - 1;
    if i == n {
      k := |Releases(evidence)| - 1;
    } else {
      k := RecordedIsReporter(recorded[..n], evidence[..n], i);
    }
  }

  /** In every reachable state the releases on record are exactly those the recorded Jobs reported,
      each under its Job. */
  lemma ReleasesAreReports(w: World, n: string, release: string)
    requires Reachable(w)
    ensures |w.log.evidence| == |w.log.recorded| && |w.log.releasedBy| == |w.log.released|
    ensures (exists k :: 0 <= k < |w.log.released| && w.log.releasedBy[k] == n && w.log.released[k] == release)
        <==> OnRecord(w.log, n, release)
  {
    hide Reachable, Told, Releases, Reporters;
    ReachableCauses(w);
    if k :| 0 <= k < |w.log.released| && w.log.releasedBy[k] == n && w.log.released[k] == release {
      var i := ReportersAreRecorded(w.log.recorded, w.log.evidence, k);
    }
    if OnRecord(w.log, n, release) {
      var i :| 0 <= i < |w.log.recorded| && w.log.recorded[i].jobName == n && Reported(w.log.evidence[i])
               && CopierReport(w.log.evidence[i].job).value.release == release;
      var k := RecordedIsReporter(w.log.recorded, w.log.evidence, i);
    }
  }

  /** A Job is on record with one release at most. */
  lemma OnRecordOnce(w: World, n: string, release: string, other: string)
    requires Reachable(w) && |w.log.evidence| == |w.log.recorded|
    requires OnRecord(w.log, n, release) && OnRecord(w.log, n, other)
    ensures release == other && WasRecorded(w.log, n)
  {
    hide Reachable, Reported, ActiveInv, StatusInv, LedgerInv, CleanupInv, PhaseInv, RetentionInv;
    ReachableInv(w);
  }
}
