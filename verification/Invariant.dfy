/** Every step of the protocol keeps its invariant. */
module Invariant {
  import opened Util
  import opened Status
  import opened Operator
  import opened Protocol
  import H = History
  import P = Pipeline
  import Storage

  // ---- what a pass does to the build record ----

  /** The in-memory record after the build decision. */
  lemma DecidedBuild(c: Cluster, e: Env)
    ensures var st := AfterBuild(c, e).status;
            && (Starts(c) ==> st.lastProcessed == c.annotations.token && st.build == StartedBuild(Loaded(c), e.now))
            && (!Starts(c) ==> st == Loaded(c).status)
            && (Starts(c) ==> c.annotations.token != c.status.lastProcessed && !BuildActive(c.builds))
            && st == c.status.(specStale := st.specStale, lastProcessed := st.lastProcessed, build := st.build,
                               lastManual := st.lastManual, lastBuild := st.lastBuild)
  {}

  lemma RecordedEnds(st: AppStatus, spec: AppSpec, job: BuildJob, now: int)
    requires !job.finish.Unfinished?
    ensures var o := RecordOutcome(st, spec, job, now);
            Terminal(o.build) && o.build.jobName == st.build.jobName && o.lastProcessed == st.lastProcessed
  {
    hide P.DeriveSteps, P.FailedStep, DetectTermination, StampMessage, OutcomeConditions, H.Append, H.AppendFailed;
  }

  /** Observing moves the record to its end, to running, or not at all. */
  lemma ObservedBuild(c: Cluster, e: Env)
    ensures var b, o := AfterBuild(c, e).status, AfterObserve(c, e).status;
            && o.build.jobName == b.build.jobName && o.lastProcessed == b.lastProcessed
            && (Records(b, c.builds) ==>
                  o == RecordOutcome(b, c.spec, c.builds[b.build.jobName], e.now) && Terminal(o.build))
            && (!Records(b, c.builds) ==>
                  && o == b.(build := o.build)
                  && (Terminal(o.build) <==> Terminal(b.build))
                  && (o.build != b.build ==> o.build.phase == BuildRunning))
  {
    hide RecordOutcome, AfterBuild, Terminal;
    var st := AfterBuild(c, e).status;
    if Records(st, c.builds) {
      RecordedEnds(st, c.spec, c.builds[st.build.jobName], e.now);
    }
    RunningIsNoEnd();
  }

  lemma RunningIsNoEnd()
    ensures forall r: BuildStatus :: r.phase == BuildRunning ==> !Terminal(r)
  {}

  /** The names a pass moves: the build in status, the last processed token and the pending one. */
  lemma NamesMove(c: Cluster, e: Env)
    ensures var r, started := Reconcile(c, e), Persists(c, e) && Starts(c);
            && r.status.build.jobName == (if started then NextJob(c) else c.status.build.jobName)
            && r.status.lastProcessed == (if started then c.annotations.token else c.status.lastProcessed)
            && r.name == c.name && r.annotations.token == if Seeds(c, e) then e.seed else c.annotations.token
    ensures Recording(c, e) ==>
              && Persists(c, e)
              && AfterObserve(c, e).status.build.jobName == if Starts(c) then NextJob(c) else c.status.build.jobName
    ensures Starts(c) ==> c.annotations.token != c.status.lastProcessed
    ensures Seeds(c, e) ==> !Persists(c, e)
  {
    hide Reconcile, ObserveBuild, RecordOutcome;
    BuildsAfter(c, e);
    StatusAfter(c, e);
    DecidedBuild(c, e);
    ObservedBuild(c, e);
  }

  lemma NotActive(builds: map<string, BuildJob>, n: string)
    requires !BuildActive(builds) && n in builds
    ensures !builds[n].finish.Unfinished?
  {}

  /** A token whose Job was recorded is never started again. */
  lemma StartsUnrecorded(w: World)
    requires JobsInv(w) && StatusInv(w) && Starts(w.c)
    ensures !WasRecorded(w.log, NextJob(w.c))
    ensures w.c.annotations.token in w.log.used
  {}

  lemma RecordingFacts(w: World, e: Env)
    requires JobsInv(w) && StatusInv(w) && Recording(w.c, e)
    ensures var rec := AfterObserve(w.c, e).status.build;
            && Terminal(rec) && rec.jobName in w.c.builds && rec.jobName in w.log.created
            && H.NotIn(rec.jobName, w.log.recorded)
            && (rec.jobName == if Starts(w.c) then NextJob(w.c) else w.c.status.build.jobName)
  {}

  lemma PushRecorded(recorded: seq<BuildStatus>, rec: BuildStatus, n: string)
    ensures H.NotIn(n, recorded + [rec]) <==> H.NotIn(n, recorded) && n != rec.jobName
    ensures H.DistinctJobs(recorded) && H.NotIn(rec.jobName, recorded) ==> H.DistinctJobs(recorded + [rec])
  {
    var all := recorded + [rec];
    assert all[|recorded|] == rec;
    if H.NotIn(n, all) {
      forall i | 0 <= i < |recorded| ensures recorded[i].jobName != n { assert all[i] == recorded[i]; }
    }
  }

  lemma RecordedAfter(w: World, e: Env, n: string)
    requires Enabled(w, Operate(e))
    ensures WasRecorded(NextLog(w, Operate(e)), n)
            <==> WasRecorded(w.log, n) || (Recording(w.c, e) && n == AfterObserve(w.c, e).status.build.jobName)
  {
    PushRecorded(w.log.recorded, AfterObserve(w.c, e).status.build, n);
  }

  lemma TokenJobGrows(w: World, w': World, n: string)
    requires w'.c.name == w.c.name && w.log.used <= w'.log.used && TokenJob(w, n)
    ensures TokenJob(w', n)
  {}

  // ---- operator steps ----

  lemma PushDistinct(s: seq<string>, except: set<string>, x: string)
    requires DistinctBut(s, except) && (x in s ==> x in except)
    ensures DistinctBut(s + [x], except)
  {}

  /** One more Job, or one created again after it expired. */
  lemma JobCreated(w: World, w': World, job: string)
    requires JobsInv(w) && w'.c.name == w.c.name && w.log.used <= w'.log.used && w'.log.expired == w.log.expired
    requires w'.c.builds.Keys == w.c.builds.Keys + {job} && w'.log.recorded == w.log.recorded
    requires w'.log.created == w.log.created + [job]
    requires (job in w.log.created ==> job in w.log.expired) && TokenJob(w', job)
    ensures JobsInv(w')
  {
    hide H.NotIn, H.DistinctJobs, TokenJob, DistinctBut;
    PushDistinct(w.log.created, w.log.expired, job);
    forall n | n in w'.log.created
      ensures TokenJob(w', n) && (n in w'.c.builds || WasRecorded(w'.log, n) || n in w'.log.expired)
    {
      if n in w.log.created {
        TokenJobGrows(w, w', n);
        assert n in w.c.builds ==> n in w'.c.builds.Keys;
      } else {
        assert job in w'.c.builds.Keys;
      }
    }
    forall n | n in w'.c.builds || n in w'.log.expired
      ensures n in w'.log.created
    {
      assert n in w'.c.builds ==> n in w'.c.builds.Keys;
    }
  }

  /** One more record, of a known Job. */
  lemma JobRecorded(w: World, w': World, rec: BuildStatus)
    requires JobsInv(w) && w'.c == w.c && w'.log == w.log.(recorded := w.log.recorded + [rec])
    requires rec.jobName in w.log.created && H.NotIn(rec.jobName, w.log.recorded)
    ensures JobsInv(w')
  {
    hide H.NotIn, H.DistinctJobs, TokenJob, DistinctBut;
    PushRecorded(w.log.recorded, rec, rec.jobName);
    forall n | n in w'.log.created
      ensures TokenJob(w', n) && (n in w'.c.builds || WasRecorded(w'.log, n) || n in w'.log.expired)
    {
      TokenJobGrows(w, w', n);
      PushRecorded(w.log.recorded, rec, n);
    }
  }

  /** The same Jobs and records, possibly under more tokens. */
  lemma JobsKept(w: World, w': World)
    requires JobsInv(w) && w'.c.name == w.c.name && w.log.used <= w'.log.used && w'.log.expired == w.log.expired
    requires w'.c.builds.Keys == w.c.builds.Keys && w'.log.recorded == w.log.recorded
    requires w'.log.created == w.log.created
    ensures JobsInv(w')
  {
    hide H.NotIn, H.DistinctJobs, TokenJob, DistinctBut;
    forall n | n in w'.log.created
      ensures TokenJob(w', n) && (n in w'.c.builds || WasRecorded(w'.log, n) || n in w'.log.expired)
    {
      TokenJobGrows(w, w', n);
      assert n in w.c.builds ==> n in w'.c.builds.Keys;
    }
    forall n | n in w'.c.builds || n in w'.log.expired
      ensures n in w'.log.created
    {
      assert n in w'.c.builds ==> n in w.c.builds.Keys;
    }
  }

  /** What a pass adds to the log of Jobs and records. */
  lemma LoggedJobs(w: World, e: Env)
    ensures var log := NextLog(w, Operate(e));
            && log.created == (if Creates(w.c, e) then w.log.created + [NextJob(w.c)] else w.log.created)
            && log.recorded == (if Recording(w.c, e) then w.log.recorded + [AfterObserve(w.c, e).status.build]
                                else w.log.recorded)
            && log.used == (if Seeds(w.c, e) then w.log.used + {e.seed} else w.log.used)
            && log.expired == w.log.expired
  {
    hide Recording, Creates, Seeds, Persists, NewUids, ResultUids, AfterObserve, Reconcile;
  }

  /** A Job a pass creates is a token's, and new unless it expired. */
  lemma CreationFacts(w: World, e: Env)
    requires JobsInv(w) && StatusInv(w) && Creates(w.c, e)
    ensures NextJob(w.c) in w.log.created ==> NextJob(w.c) in w.log.expired
    ensures w.c.annotations.token in w.log.used
  {
    hide H.NotIn, H.DistinctJobs, DistinctBut, TokenJob;
    StartsUnrecorded(w);
  }

  lemma OperateKeepsJobs(w: World, e: Env)
    requires Inv(w) && Enabled(w, Operate(e))
    ensures JobsInv(Next(w, Operate(e)))
  {
    hide Reconcile, NextLog, JobsInv, ActiveInv, StatusInv, LedgerInv, CleanupInv, PhaseInv, RetentionInv, Recording,
      AfterObserve, Creates, H.NotIn;
    var w' := Next(w, Operate(e));
    BuildsAfter(w.c, e);
    LoggedJobs(w, e);
    var before := World(w'.c, w'.log.(recorded := w.log.recorded));
    if Creates(w.c, e) {
      CreationFacts(w, e);
      assert TokenJob(before, NextJob(w.c));
      JobCreated(w, before, NextJob(w.c));
    } else {
      JobsKept(w, before);
    }
    if Recording(w.c, e) {
      RecordingFacts(w, e);
      JobRecorded(before, w', AfterObserve(w.c, e).status.build);
    }
  }

  /** A build Job unfinished after a pass was so before, or is the one this pass created; where one
      is launched it is the only one. */
  lemma UnfinishedAfter(w: World, e: Env, n: string)
    requires JobsInv(w) && ActiveInv(w) && StatusInv(w) && Enabled(w, Operate(e))
    requires n in Reconcile(w.c, e).builds && Reconcile(w.c, e).builds[n].finish.Unfinished?
    ensures if Launches(w.c, e) then n == NextJob(w.c) && Creates(w.c, e)
            else n in w.c.builds && w.c.builds[n].finish.Unfinished?
    ensures !WasRecorded(NextLog(w, Operate(e)), n)
  {
    hide Reconcile, NextLog, H.NotIn, H.DistinctJobs, DistinctBut, TokenJob, AfterObserve;
    BuildsAfter(w.c, e);
    RecordedAfter(w, e, n);
    if Launches(w.c, e) {
      if n in w.c.builds {
        NotActive(w.c.builds, n);
      }
      StartsUnrecorded(w);
    }
    if Recording(w.c, e) {
      RecordedIsFinished(w, e);
    }
  }

  lemma RecordedIsFinished(w: World, e: Env)
    requires Recording(w.c, e)
    ensures var n := AfterObserve(w.c, e).status.build.jobName; n in w.c.builds && !w.c.builds[n].finish.Unfinished?
  {
    hide RecordOutcome;
    ObservedBuild(w.c, e);
  }

  lemma OperateKeepsActive(w: World, e: Env)
    requires Inv(w) && Enabled(w, Operate(e))
    ensures ActiveInv(Next(w, Operate(e)))
  {
    hide Reconcile, NextLog, JobsInv, LedgerInv, CleanupInv, PhaseInv, RetentionInv, AfterBuild, AfterObserve, Creates,
      WasRecorded, Recording, Starts, NeedsSeed;
    var w' := Next(w, Operate(e));
    NamesMove(w.c, e);
    forall n | n in w'.c.builds && w'.c.builds[n].finish.Unfinished?
      ensures if Launches(w.c, e) then n == NextJob(w.c) else n in w.c.builds && w.c.builds[n].finish.Unfinished?
      ensures !WasRecorded(w'.log, n)
    {
      UnfinishedAfter(w, e, n);
    }
  }

  lemma OperateKeepsStatus(w: World, e: Env)
    requires Inv(w) && Enabled(w, Operate(e))
    ensures StatusInv(Next(w, Operate(e)))
  {
    BuildsAfter(w.c, e);
    StatusAfter(w.c, e);
    BuildJobNameInjective(w.c.name, "", w.c.annotations.token);
    if Persists(w.c, e) {
      PersistKeepsStatus(w, e);
    } else if Seeds(w.c, e) {
      FreshTokenUnrecorded(w, e.seed);
    }
  }

  lemma FreshTokenUnrecorded(w: World, t: string)
    requires JobsInv(w) && t !in w.log.used
    ensures !WasRecorded(w.log, BuildJobName(w.c.name, t))
  {
    var n := BuildJobName(w.c.name, t);
    if WasRecorded(w.log, n) {
      var i :| 0 <= i < |w.log.recorded| && w.log.recorded[i].jobName == n;
      assert TokenJob(w, n);
      var u :| u in w.log.used && n == BuildJobName(w.c.name, u);
      BuildJobNameInjective(w.c.name, t, u);
      assert false;
    }
  }

  lemma PersistKeepsStatus(w: World, e: Env)
    requires Inv(w) && Enabled(w, Operate(e)) && Persists(w.c, e)
    ensures StatusInv(Next(w, Operate(e)))
  {
    hide Reconcile, LedgerInv, CleanupInv, ActiveInv, RecordOutcome, NewUids, ResultUids, StartBuild;
    var w' := Next(w, Operate(e));
    BuildsAfter(w.c, e);
    StatusAfter(w.c, e);
    DecidedBuild(w.c, e);
    ObservedBuild(w.c, e);
    RecordedAfter(w, e, w'.c.status.build.jobName);
    RecordedAfter(w, e, NextJob(w.c));
    if Recording(w.c, e) {
      RecordingFacts(w, e);
    }
    if Starts(w.c) {
      StartsUnrecorded(w);
    } else {
      BuildJobNameInjective(w.c.name, w.c.status.lastProcessed, w.c.annotations.token);
    }
  }

  // ---- the ledger ----

  lemma PushSuccess(recorded: seq<BuildStatus>, rec: BuildStatus)
    ensures AnySuccess(recorded + [rec]) <==> AnySuccess(recorded) || rec.result == ResultSucceeded
  {
    var all := recorded + [rec];
    assert all[|recorded|] == rec;
    if AnySuccess(recorded) {
      var i :| 0 <= i < |recorded| && recorded[i].result == ResultSucceeded;
      assert all[i] == recorded[i];
    }
  }

  lemma OutcomeConditionsEffect(conds: seq<Condition>, rec: BuildStatus, now: int)
    ensures var c := OutcomeConditions(conds, rec, now);
            && Holds(c, Degraded) == (rec.result != ResultSucceeded)
            && Holds(c, BuildSucceeded) == (rec.result == ResultSucceeded)
            && Holds(c, Ready) == Holds(conds, Ready)
            && (UniqueTypes(conds) ==> UniqueTypes(c))
  {
    var ok := rec.result == ResultSucceeded;
    var reason, message := if ok then "Ready" else OutcomeReason(rec), OutcomeMessage(rec);
    SetCondEffect(conds, BuildSucceeded, ok, reason, message, now);
    SetCondEffect(SetCond(conds, BuildSucceeded, ok, reason, message, now), Degraded, !ok, reason, message, now);
  }

  /** The release pointers move by one report. */
  lemma ReleaseStep(st: AppStatus, spec: AppSpec, job: BuildJob, now: int, released: seq<string>)
    requires !job.finish.Unfinished? && st.release == LastTwo(released)
    ensures RecordOutcome(st, spec, job, now).release
            == LastTwo(released + if job.finish.JobComplete? && CopierReport(job).Some?
                && CopierReport(job).value.release != ""
                                  then [CopierReport(job).value.release] else [])
  {}

  lemma RecordOutcomeLedger(st: AppStatus, spec: AppSpec, job: BuildJob, now: int, recorded: seq<BuildStatus>)
    requires !job.finish.Unfinished? && H.NotIn(st.build.jobName, recorded)
    requires st.history <= H.NewestFirst(recorded) && st.failedHistory <= H.FailedNewestFirst(recorded)
    requires st.failureStreak == H.Streak(recorded) && (HasSucceededOnce(st) <==> AnySuccess(recorded))
    ensures var o := RecordOutcome(st, spec, job, now);
            var all := recorded + [o.build];
            && o.history <= H.NewestFirst(all) && o.failedHistory <= H.FailedNewestFirst(all)
            && o.failureStreak == H.Streak(all) && (HasSucceededOnce(o) <==> AnySuccess(all))
            && (UniqueTypes(st.conditions) ==> UniqueTypes(o.conditions))
            && Holds(o.conditions, Degraded) == !job.finish.JobComplete?
  {
    var rec := TerminalBuild(st.build, spec, job, now);
    H.HistoriesArePrefixes(recorded, st.history, st.failedHistory, rec, spec.keepRecent, spec.keepFailed);
    H.StreakStep(recorded, rec);
    PushSuccess(recorded, rec);
    OutcomeConditionsEffect(st.conditions, rec, now);
  }

  lemma RejectedEffect(st: AppStatus, r: Rejection, now: int)
    ensures var c := Rejected(st, r, now).conditions;
            && Holds(c, Degraded) && !Holds(c, Ready)
            && Holds(c, BuildSucceeded) == Holds(st.conditions, BuildSucceeded)
            && (UniqueTypes(st.conditions) ==> UniqueTypes(c))
  {
    SetCondEffect(st.conditions, Ready, false, r.reason, r.message, now);
    SetCondEffect(SetCond(st.conditions, Ready, false, r.reason, r.message, now), Degraded, true, r.reason,
        r.message, now);
  }

  lemma PersistedConditions(c: Cluster, e: Env)
    requires Persists(c, e)
    ensures var o, r := AfterObserve(c, e).status.conditions, Reconcile(c, e).status.conditions;
            Holds(r, Degraded) == Holds(o, Degraded) && (UniqueTypes(o) ==> UniqueTypes(r))
  {
    FinalFrame(c, e);
    ReadyConditionsEffect(AfterObserve(c, e).status.conditions, Final(c, e).status.phase, e.now);
  }

  lemma LedgerTransfer(a: AppStatus, b: AppStatus, log: Log)
    requires Ledger(a, log) && SameBuildSide(a, b)
    requires UniqueTypes(b.conditions) && Holds(b.conditions, Degraded) == Holds(a.conditions, Degraded)
    ensures Ledger(b, log)
  {}

  lemma LedgerSameEntries(a: AppStatus, b: AppStatus, log: Log, log': Log)
    requires Ledger(a, log) && b == a.(build := b.build)
    requires log'.recorded == log.recorded && log'.released == log.released && log'.verdicts == log.verdicts
    ensures Ledger(b, log')
  {}

  /** One outcome and its log entries. */
  lemma LedgerPush(st: AppStatus, spec: AppSpec, job: BuildJob, now: int, log: Log, log': Log)
    requires Ledger(st, log) && !job.finish.Unfinished? && H.NotIn(st.build.jobName, log.recorded)
    requires log'.recorded == log.recorded + [RecordOutcome(st, spec, job, now).build]
    requires log'.released == log.released + if job.finish.JobComplete? && CopierReport(job).Some?
        && CopierReport(job).value.release != ""
                                             then [CopierReport(job).value.release] else []
    requires log'.verdicts == log.verdicts + [!job.finish.JobComplete?]
    ensures Ledger(RecordOutcome(st, spec, job, now), log')
  {
    RecordOutcomeLedger(st, spec, job, now, log.recorded);
    ReleaseStep(st, spec, job, now, log.released);
  }

  lemma DecidedLedger(c: Cluster, e: Env, log: Log)
    requires Ledger(c.status, log)
    ensures Ledger(AfterBuild(c, e).status, log)
  {}

  lemma ObservedLedger(w: World, e: Env)
    requires Inv(w) && Enabled(w, Operate(e)) && Persists(w.c, e)
    ensures Ledger(AfterObserve(w.c, e).status, NextLog(w, Operate(e)))
  {
    hide AfterBuild, AfterObserve, RecordOutcome, Ledger, H.NotIn, JobsInv, ActiveInv, CleanupInv, NewUids, ResultUids;
    assert LedgerInv(w) && Ledger(w.c.status, w.log);
    DecidedLedger(w.c, e, w.log);
    ObservedBuild(w.c, e);
    var st := AfterBuild(w.c, e).status;
    if Recording(w.c, e) {
      RecordingFacts(w, e);
      LedgerPush(st, w.c.spec, RecordedJob(w.c, e), e.now, w.log, NextLog(w, Operate(e)));
    } else {
      LedgerSameEntries(st, AfterObserve(w.c, e).status, w.log, NextLog(w, Operate(e)));
    }
  }

  lemma OperateKeepsLedger(w: World, e: Env)
    requires Inv(w) && Enabled(w, Operate(e))
    ensures LedgerInv(Next(w, Operate(e)))
  {
    hide Reconcile, AfterObserve, SameBuildSide, H.NewestFirst, NewUids, ResultUids, JobsInv, ActiveInv, StatusInv,
        CleanupInv;
    var st, log := Reconcile(w.c, e).status, NextLog(w, Operate(e));
    StatusAfter(w.c, e);
    if Persists(w.c, e) {
      ObservedLedger(w, e);
      PersistedConditions(w.c, e);
      LedgerTransfer(AfterObserve(w.c, e).status, st, log);
    } else if Rejects(e) {
      RejectedEffect(w.c.status, e.rejection.value, e.now);
      assert log.recorded == w.log.recorded && log.released == w.log.released;
    }
  }

  // ---- the phase on display ----

  /** A persisted pass writes the phase its own status derives. */
  lemma PersistedPhase(c: Cluster, e: Env)
    requires Persists(c, e)
    ensures Reconcile(c, e).status.phase == PhaseOf(Reconcile(c, e).status)
  {
    hide AfterCleanup, Storage.Worst;
    var st := AfterCleanup(c, e).status;
    var sized := st.(storage := st.storage.(threshold := Storage.Worst(st.storage.sizes, c.spec.storage)));
    ReadyConditionsEffect(sized.conditions, PhaseOf(sized), e.now);
  }

  /** What a pass does to the Ready condition. */
  lemma ReadyMoves(c: Cluster, e: Env)
    ensures Persists(c, e) ==>
              (Holds(Reconcile(c, e).status.conditions, Ready) <==>
               var phase := Reconcile(c, e).status.phase;
               phase == AppReady || (phase == AppDegraded && Holds(c.status.conditions, Ready)))
    ensures Rejects(e) ==> !Holds(Reconcile(c, e).status.conditions, Ready)
  {
    hide Reconcile, AfterObserve, PhaseOf;
    StatusAfter(c, e);
    if Persists(c, e) {
      var phase := Final(c, e).status.phase;
      FinalFrame(c, e);
      assert Reconcile(c, e).status == Final(c, e).status by { CommittedStatus(c, e); }
      ReadyConditionsEffect(AfterObserve(c, e).status.conditions, phase, e.now);
      assert phase != NoAppPhase by { PhaseIsShown(c, e); }
      ObservedReady(c, e);
    } else if Rejects(e) {
      RejectedEffect(c.status, e.rejection.value, e.now);
    }
  }

  lemma CommittedStatus(c: Cluster, e: Env)
    requires Persists(c, e)
    ensures Reconcile(c, e).status == Final(c, e).status
  {
    hide Final;
  }

  lemma PhaseIsShown(c: Cluster, e: Env)
    ensures Final(c, e).status.phase != NoAppPhase
  {
    hide AfterCleanup, Storage.Worst;
  }

  /** Observing a build does not touch Ready. */
  lemma ObservedReady(c: Cluster, e: Env)
    ensures Holds(AfterObserve(c, e).status.conditions, Ready) == Holds(c.status.conditions, Ready)
  {
    hide OutcomeConditions, Holds;
    DecidedBuild(c, e);
    ObservedBuild(c, e);
    var st := AfterBuild(c, e).status;
    if Records(st, c.builds) {
      OutcomeConditionsEffect(st.conditions, TerminalBuild(st.build, c.spec, c.builds[st.build.jobName], e.now), e.now);
    }
  }

  lemma LoggedWrite(w: World, e: Env)
    ensures NextLog(w, Operate(e)).writes ==
            if Rejects(e) then w.log.writes + [Refused]
            else if Persists(w.c, e) then w.log.writes + [Accepted(Reconcile(w.c, e).status.phase)]
            else w.log.writes
  {
    hide Recording, Creates, Seeds, Persists, NewUids, ResultUids, AfterObserve, Reconcile;
  }

  lemma OperateKeepsPhase(w: World, e: Env)
    requires Inv(w) && Enabled(w, Operate(e))
    ensures PhaseInv(Next(w, Operate(e)))
  {
    hide Reconcile, NextLog, JobsInv, ActiveInv, StatusInv, LedgerInv, CleanupInv, RetentionInv, Holds, PhaseOf;
    StatusAfter(w.c, e);
    ReadyMoves(w.c, e);
    LoggedWrite(w, e);
    var writes := NextLog(w, Operate(e)).writes;
    if Persists(w.c, e) {
      PersistedPhase(w.c, e);
      assert writes[..|writes| - 1] == w.log.writes;
    }
  }

  // ---- cleanup ----

  /** A cleanup starts only when nothing else runs and no Job of its mode is left. */
  lemma CleanupStartsFree(c: Cluster, snap: Cluster, busy: bool, started: bool, mode: CleanupMode)
    requires CleanupChoice(c, snap, busy, started, mode).StartCleanup?
    ensures !busy && !started && !CleanupActive(snap.cleanups) && mode !in snap.cleanups
  {}

  function FreshCleanup(c: Cluster): CleanupJob { CleanupJob(c.nextUid, Unfinished, None) }

  /** Cleanup Jobs after the pass: at most one more than before. */
  lemma CleanupJobs(c: Cluster, e: Env)
    ensures StartsCache(c, e) ==> !Busy(c) && !CleanupActive(c.cleanups) && CacheMode !in c.cleanups
    ensures StartsReleases(c, e) ==>
              !Busy(c) && !CleanupActive(c.cleanups) && ReleasesMode !in c.cleanups && !StartsCache(c, e)
    ensures AfterMeasure(c, e).cleanups == c.cleanups && AfterMeasure(c, e).nextUid == c.nextUid
    ensures var s := AfterCacheAction(c, e);
            && s.cleanups == (if StartsCache(c, e) then c.cleanups[CacheMode := FreshCleanup(c)] else c.cleanups)
            && s.nextUid == if StartsCache(c, e) then c.nextUid + 1 else c.nextUid
    ensures var s := AfterCleanup(c, e);
            && s.cleanups == (if StartsReleases(c, e) then c.cleanups[ReleasesMode := FreshCleanup(c)]
                else AfterCacheAction(c, e).cleanups)
            && s.nextUid == if StartsReleases(c, e) then c.nextUid + 1 else AfterCacheAction(c, e).nextUid
  {
    hide AfterMeasure, Busy, CleanupActive, HarvestedCleanups;
    EarlyFrame(c, e);
    if StartsCache(c, e) {
      CleanupStartsFree(AfterCleanupObserve(c, e), c, Busy(c), false, CacheMode);
    }
    if StartsReleases(c, e) {
      CleanupStartsFree(AfterCacheAction(c, e), c, Busy(c), StartsCache(c, e), ReleasesMode);
    }
  }

  predicate StartsMode(c: Cluster, e: Env, mode: CleanupMode) {
    if mode == CacheMode then StartsCache(c, e) else StartsReleases(c, e)
  }

  /** The action record after observation, before the start decision. */
  function ObservedAction(c: Cluster, e: Env, mode: CleanupMode): CleanupAction {
    var a := Action(c.status, mode);
    if ReadsResult(c.status, c.cleanups, mode) then CleanupOutcome(a, c.cleanups[mode], e.now) else a
  }

  lemma ActionsUntouched(c: Cluster, e: Env, mode: CleanupMode)
    ensures Action(AfterMeasure(c, e).status, mode) == Action(c.status, mode)
  {
    hide ObserveMeasurements, StartBuild, RecordSuccess, TerminalBuild;
    DecidedBuild(c, e);
    ObservedBuild(c, e);
    RecordOutcomeFrame(AfterBuild(c, e).status, c.spec, c.builds, e.now);
    ObserveFrames(AfterObserve(c, e).status, c.measures, c.cleanups, e.now);
  }

  lemma RecordOutcomeFrame(st: AppStatus, spec: AppSpec, builds: map<string, BuildJob>, now: int)
    ensures var o := ObserveBuild(st, spec, builds, now); o.cache == st.cache && o.releases == st.releases
  {}

  lemma ActionsObserved(c: Cluster, e: Env, mode: CleanupMode)
    ensures Action(AfterCleanupObserve(c, e).status, mode) == ObservedAction(c, e, mode)
  {
    hide AfterMeasure;
    ActionsUntouched(c, e, CacheMode);
    ActionsUntouched(c, e, ReleasesMode);
  }

  /** What the decision makes of the observed record. */
  lemma DecidedAction(c: Cluster, e: Env, mode: CleanupMode)
    ensures var a, f := ObservedAction(c, e, mode), Action(AfterCleanup(c, e).status, mode);
            && (StartsMode(c, e, mode) ==>
                  f.phase == CleanupRunning && f.requestedAt == RequestedToken(c.annotations, mode)
                      && f.startedAt == Some(e.now))
            && (!StartsMode(c, e, mode) ==>
                  f == a || f == a.(phase := CleanupPending, requestedBy := f.requestedBy))
  {
    hide AfterCleanupObserve;
    ActionsObserved(c, e, mode);
    LateFrame(c, e);
    CleanupActFrame(AfterCleanupObserve(c, e), c, Busy(c), false, CacheMode, e.now);
    CleanupActFrame(AfterCacheAction(c, e), c, Busy(c), StartsCache(c, e), ReleasesMode, e.now);
  }

  lemma ActionAfter(c: Cluster, e: Env, mode: CleanupMode)
    requires Persists(c, e)
    ensures var a, f := ObservedAction(c, e, mode), Action(Reconcile(c, e).status, mode);
            && (StartsMode(c, e, mode) ==>
                  f.phase == CleanupRunning && f.requestedAt == RequestedToken(c.annotations, mode)
                      && f.startedAt == Some(e.now))
            && (!StartsMode(c, e, mode) ==>
                  f == a || f == a.(phase := CleanupPending, requestedBy := f.requestedBy))
  {
    DecidedAction(c, e, mode);
    FinalFrame(c, e);
  }

  /** Cleanup Jobs after any reconcile: at most one new, unfinished one, and only from a state
      without unfinished ones; harvested ones disappear only after a successful write. */
  ghost predicate CleanupsMove(c: Cluster, e: Env, r: Cluster) {
    && (forall m :: m in r.cleanups ==>
          || (m in c.cleanups && r.cleanups[m] == c.cleanups[m])
          || (StartsMode(c, e, m) && m !in c.cleanups && r.cleanups[m] == FreshCleanup(c)
              && r.nextUid == c.nextUid + 1))
    && (forall m :: m in c.cleanups && m !in r.cleanups ==> Persists(c, e) && !c.cleanups[m].finish.Unfinished?)
    && c.nextUid <= r.nextUid
    && !(StartsCache(c, e) && StartsReleases(c, e))
    && (forall m :: StartsMode(c, e, m) ==> !Busy(c) && !CleanupActive(c.cleanups))
  }

  lemma ReachedCleanups(c: Cluster, e: Env)
    requires !e.fault.NoFault?
    ensures CleanupsMove(c, e, Dropped(c, Reached(c, e)))
  {
    hide CleanupAct, AfterBuild, AfterObserve, AfterMeasure, Busy, CleanupActive, Starts, StartsCache,
        StartsReleases, AfterCacheAction, AfterCleanup;
    CleanupJobs(c, e);
    match e.fault
    case AtObserve => EarlyFrame(c, e);
    case AtMeasure => EarlyFrame(c, e);
    case _ =>
  }

  lemma CommittedCleanups(c: Cluster, e: Env)
    requires Persists(c, e)
    ensures CleanupsMove(c, e, Committed(c, e))
  {
    hide CleanupAct, AfterObserve, AfterMeasure, Starts, StartsCache, StartsReleases;
    CleanupJobs(c, e);
    FinalFrame(c, e);
  }

  lemma CleanupsAfter(c: Cluster, e: Env)
    ensures CleanupsMove(c, e, Reconcile(c, e))
  {
    hide Committed, Reached, CleanupsMove, Rejected;
    if Persists(c, e) {
      CommittedCleanups(c, e);
    } else if Passes(c, e) {
      ReachedCleanups(c, e);
    } else {
      CleanupsStill(c, e, Reconcile(c, e));
    }
  }

  lemma CleanupsStill(c: Cluster, e: Env, r: Cluster)
    requires r.cleanups == c.cleanups && r.nextUid == c.nextUid
    ensures CleanupsMove(c, e, r)
  {
    hide StartsCache, StartsReleases, CleanupActive;
    CleanupJobs(c, e);
  }

  lemma NewUidsBelow(c: Cluster, e: Env)
    requires Persists(c, e) && forall m :: m in c.cleanups ==> c.cleanups[m].uid < c.nextUid
    ensures forall u :: u in NewUids(c, e) ==> c.nextUid <= u < Reconcile(c, e).nextUid
  {
    hide AfterCleanup, AfterCacheAction, StartsCache, StartsReleases, Busy, CleanupActive;
    CleanupJobs(c, e);
  }

  /** Jobs and uids of `CleanupInv`, from the moves alone. */
  lemma CleanupIdentity(w: World, e: Env, r: Cluster)
    requires CleanupInv(w) && CleanupsMove(w.c, e, r)
    ensures forall m, k :: m in r.cleanups && k in r.cleanups && m != k ==>
              && r.cleanups[m].uid != r.cleanups[k].uid
              && !(r.cleanups[m].finish.Unfinished? && r.cleanups[k].finish.Unfinished?)
    ensures forall m :: m in r.cleanups ==> r.cleanups[m].uid < r.nextUid
  {
    hide StartsCache, StartsReleases, Busy;
  }

  lemma UidsBelow(w: World, e: Env)
    requires CleanupInv(w) && Enabled(w, Operate(e))
    ensures forall u :: u in NextLog(w, Operate(e)).started ==> u < Reconcile(w.c, e).nextUid
    ensures forall u :: u in NextLog(w, Operate(e)).resulted ==> u < Reconcile(w.c, e).nextUid
  {
    hide Reconcile, AfterCleanup, StartsCache, StartsReleases, Busy, NewUids, AfterMeasure;
    CleanupsAfter(w.c, e);
    if Persists(w.c, e) {
      NewUidsBelow(w.c, e);
    }
  }

  lemma DurableResults(w: World, e: Env, m: CleanupMode)
    requires CleanupInv(w) && Enabled(w, Operate(e)) && Persists(w.c, e)
    requires m in Reconcile(w.c, e).cleanups && ActionEnded(Action(Reconcile(w.c, e).status, m))
    requires Reconcile(w.c, e).cleanups[m].uid in NextLog(w, Operate(e)).started
    ensures Reconcile(w.c, e).cleanups[m].uid in NextLog(w, Operate(e)).resulted
  {
    hide Reconcile, AfterCleanup, AfterMeasure, StartsCache, StartsReleases, Busy, NewUids;
    CleanupsAfter(w.c, e);
    NewUidsBelow(w.c, e);
    ActionAfter(w.c, e, m);
    ActionsUntouched(w.c, e, m);
  }

  lemma OperateKeepsCleanup(w: World, e: Env)
    requires Inv(w) && Enabled(w, Operate(e))
    ensures CleanupInv(Next(w, Operate(e)))
  {
    hide Reconcile, AfterCleanup, StartsCache, StartsReleases, Busy, NewUids, ResultUids, CleanupsMove, JobsInv,
        ActiveInv, StatusInv, LedgerInv;
    var r := Reconcile(w.c, e);
    CleanupsAfter(w.c, e);
    StatusAfter(w.c, e);
    CleanupIdentity(w, e, r);
    UidsBelow(w, e);
    forall m | m in r.cleanups && ActionEnded(Action(r.status, m))
        && r.cleanups[m].uid in NextLog(w, Operate(e)).started
      ensures r.cleanups[m].uid in NextLog(w, Operate(e)).resulted
    {
      if Persists(w.c, e) {
        DurableResults(w, e, m);
      } else {
        CleanupKept(w, e, m);
      }
    }
  }

  lemma CleanupKept(w: World, e: Env, m: CleanupMode)
    requires CleanupInv(w) && Enabled(w, Operate(e)) && !Persists(w.c, e)
    requires m in Reconcile(w.c, e).cleanups && Reconcile(w.c, e).cleanups[m].uid in w.log.started
    ensures m in w.c.cleanups && w.c.cleanups[m] == Reconcile(w.c, e).cleanups[m]
    ensures Action(Reconcile(w.c, e).status, m) == Action(w.c.status, m)
  {
    hide Reconcile, AfterCleanup, StartsCache, StartsReleases, Busy;
    CleanupsAfter(w.c, e);
    StatusAfter(w.c, e);
  }

  // ---- retention ----

  lemma OperateKeepsRetention(w: World, e: Env)
    requires Inv(w) && Enabled(w, Operate(e))
    ensures RetentionInv(Next(w, Operate(e)))
  {
    hide Reconcile, JobsInv, ActiveInv, StatusInv, LedgerInv, CleanupInv, NextLog, AfterBuild;
    BuildsAfter(w.c, e);
    ExpiringAfter(w.c, e);
  }

  // ---- environment steps ----

  lemma PatchKeepsInv(w: World, v: Event)
    requires Inv(w) && Enabled(w, v) && v.Patch?
    ensures Inv(Next(w, v))
  {
    hide Reconcile, AfterObserve, Recording, Ledger, H.DistinctJobs, Terminal;
    var w' := Next(w, v);
    FreshTokenUnrecorded(w, v.token);
    LedgerSameEntries(w.c.status, w.c.status, w.log, w'.log);
    forall n | n in w.log.created ensures TokenJob(w', n) { TokenJobGrows(w, w', n); }
  }

  lemma BuildEventKeepsInv(w: World, v: Event)
    requires Inv(w) && Enabled(w, v) && (v.FinishBuild? || v.UpdatePod? || v.ReapBuild?)
    ensures Inv(Next(w, v))
  {
    hide Reconcile, AfterObserve, Recording, JobsInv, ActiveInv, StatusInv, LedgerInv, CleanupInv, PhaseInv, H.NotIn;
    ExpiringAreBuilds(w);
    BuildMoves(w, Next(w, v));
    OtherJobsUntouched(w, Next(w, v));
  }

  lemma ExpiringAreBuilds(w: World)
    requires Inv(w)
    ensures w.c.expiring <= w.c.builds.Keys
  {
    hide JobsInv, ActiveInv, StatusInv, LedgerInv, CleanupInv, PhaseInv;
  }

  /** Build Jobs only ever finish, or go once recorded or expired. */
  lemma BuildMoves(w: World, w': World)
    requires Inv(w) && w'.c == w.c.(builds := w'.c.builds, expiring := w'.c.expiring)
    requires w'.log == w.log.(expired := w'.log.expired, served := w'.log.served) && w.log.expired <= w'.log.expired
    requires forall n :: n in w'.c.builds ==>
               && n in w.c.builds
               && (w.c.builds[n].finish == w'.c.builds[n].finish
                   || (w.c.builds[n].finish.Unfinished? && !w'.c.builds[n].finish.Unfinished?))
    requires forall n :: n in w.c.builds ==> n in w'.c.builds || WasRecorded(w.log, n) || n in w'.log.expired
    requires forall n :: n in w'.log.expired ==> n in w.log.expired || n in w.c.builds
    requires w'.c.expiring == w.c.expiring * w'.c.builds.Keys
    ensures JobsInv(w') && ActiveInv(w') && StatusInv(w') && RetentionInv(w')
  {
    hide LedgerInv, CleanupInv, H.NotIn, H.DistinctJobs, Terminal;
    forall n | n in w.log.created ensures TokenJob(w', n) { TokenJobGrows(w, w', n); }
  }

  lemma OtherJobsUntouched(w: World, w': World)
    requires Inv(w) && w'.c == w.c.(builds := w'.c.builds, expiring := w'.c.expiring)
    requires w'.log == w.log.(expired := w'.log.expired, served := w'.log.served)
    ensures LedgerInv(w') && CleanupInv(w') && PhaseInv(w')
  {}

  /** Build Jobs, build status and rebuild token are where they were. */
  lemma BuildSideUntouched(w: World, w': World)
    requires Inv(w) && w'.log == w.log && w'.c.name == w.c.name && w'.c.builds == w.c.builds
    requires w'.c.expiring == w.c.expiring && w'.c.status == w.c.status
        && w'.c.annotations.token == w.c.annotations.token
    ensures JobsInv(w') && ActiveInv(w') && StatusInv(w') && LedgerInv(w') && PhaseInv(w') && RetentionInv(w')
  {
    hide Ledger, CleanupInv, H.NotIn, H.DistinctJobs, Terminal;
    forall n | n in w.log.created ensures TokenJob(w', n) { TokenJobGrows(w, w', n); }
  }

  lemma OtherEventKeepsInv(w: World, v: Event)
    requires Inv(w) && Enabled(w, v)
    requires !v.Operate? && !v.Patch? && !v.FinishBuild? && !v.UpdatePod? && !v.ReapBuild?
    ensures Inv(Next(w, v))
  {
    hide Reconcile, AfterObserve, Recording, JobsInv, ActiveInv, StatusInv, LedgerInv, CleanupInv, H.NotIn;
    BuildSideUntouched(w, Next(w, v));
    CleanupMoves(w, Next(w, v));
  }

  /** Cleanup Jobs keep their uid and only ever finish or go. */
  lemma CleanupMoves(w: World, w': World)
    requires Inv(w) && w'.log == w.log && w'.c.nextUid == w.c.nextUid && w'.c.status == w.c.status
    requires forall m :: m in w'.c.cleanups ==>
               && m in w.c.cleanups && w'.c.cleanups[m].uid == w.c.cleanups[m].uid
               && (w'.c.cleanups[m].finish.Unfinished? ==> w.c.cleanups[m].finish.Unfinished?)
    ensures CleanupInv(w')
  {
    hide JobsInv, ActiveInv, StatusInv, LedgerInv;
  }

  /** Every enabled step keeps the invariant. */
  lemma StepKeepsInv(w: World, v: Event)
    requires Inv(w) && Enabled(w, v)
    ensures Inv(Next(w, v))
  {
    hide NextCluster, NextLog, Enabled, JobsInv, ActiveInv, StatusInv, LedgerInv, CleanupInv, PhaseInv,
      RetentionInv;
    match v
    case Operate(e) =>
      OperateKeepsJobs(w, e);
      OperateKeepsActive(w, e);
      OperateKeepsStatus(w, e);
      OperateKeepsLedger(w, e);
      OperateKeepsCleanup(w, e);
      OperateKeepsPhase(w, e);
      OperateKeepsRetention(w, e);
    case Patch(_, _, _) => PatchKeepsInv(w, v);
    case FinishBuild(_, _) => BuildEventKeepsInv(w, v);
    case UpdatePod(_, _) => BuildEventKeepsInv(w, v);
    case ReapBuild(_) => BuildEventKeepsInv(w, v);
    case _ => OtherEventKeepsInv(w, v);
  }

  /** The invariant holds at every point of every run. */
  lemma {:induction false} RunKeepsInv(ws: seq<World>, vs: seq<Event>, k: nat)
    requires IsRun(ws, vs) && Inv(ws[0]) && k < |ws|
    ensures Inv(ws[k])
  {
    hide Inv, Enabled, NextCluster, NextLog;
    if k == 0 {
    } else {
      RunKeepsInv(ws, vs, k - 1);
      StepKeepsInv(ws[k - 1], vs[k - 1]);
    }
  }
}
