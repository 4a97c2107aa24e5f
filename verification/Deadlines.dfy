/** The exported build deadline against the protocol: every pass records the status it loads, and
    then the one it writes, whether or not that write succeeds. */
module Deadlines {
  import opened Util
  import opened Status
  import opened Operator
  import opened Protocol
  import opened Invariant
  import M = Metering
  import R = Recorder
  import S = Scenarios
  import W = Witnesses

  function Call(key: R.Key, st: AppStatus, deadline: int): R.Event {
    R.Record(R.Input(key, st, deadline, map[], 0))
  }

  /** The calls of a pass under the deadline then in force: the status as loaded, the end of a build
      it observes, and the status it writes or tries to write. */
  ghost function Calls(key: R.Key, c: Cluster, e: Env, deadline: int): seq<R.Event> {
    [Call(key, c.status, deadline)]
    + (if M.Observes(c, e) then [R.Terminal(key, AfterObserve(c, e).status.build)] else [])
    + (if e.rejection.Some? then [Call(key, Rejected(c.status, e.rejection.value, e.now), deadline)]
       else if Passes(c, e) && (e.fault.NoFault? || e.fault.AtStatusWrite?)
       then [Call(key, Final(c, e).status, deadline)]
       else [])
  }

  // ---- the deadline of another build ----

  /** A pass that starts a build whose Job is not there. */
  lemma FreshStart(c: Cluster, e: Env)
    requires Persists(c, e) && Starts(c) && NextJob(c) !in c.builds
    ensures R.InFlight(Reconcile(c, e).status) && Reconcile(c, e).status.build.jobName == NextJob(c)
    ensures !M.Observes(c, e)
  {
    hide Reconcile, AfterCleanup, AfterMeasure, RecordOutcome;
    StatusAfter(c, e);
    DecidedBuild(c, e);
  }

  /** The two calls of a pass that goes through and sees no build end. */
  lemma PlainCalls(key: R.Key, c: Cluster, e: Env, deadline: int)
    requires Persists(c, e) && !M.Observes(c, e)
    ensures Calls(key, c, e, deadline)
        == [Call(key, c.status, deadline), Call(key, Reconcile(c, e).status, deadline)]
  {
    hide Final, M.Observes;
  }

  lemma NewIsIdle(w: World)
    requires Initial(w)
    ensures !R.InFlight(w.c.status) && w.c.status.build.jobName == ""
  {}

  /** A build, the next token, the end of the build, and the pass that starts the next build over
      the one status still shows in flight. */
  ghost predicate TakesOver(ws: seq<World>, n: string) {
    && |ws| == 5 && Initial(ws[0])
    && S.Step(ws[0], Operate(W.QUIET_ENV), ws[1]) && S.Step(ws[1], Patch("u", "", ""), ws[2])
    && S.Step(ws[2], FinishBuild(n, JobComplete), ws[3]) && S.Step(ws[3], Operate(W.QUIET_ENV), ws[4])
  }

  lemma EndsUnderToken() returns (w0: World, w1: World, w2: World, w3: World, n: string)
    ensures Initial(w0) && S.Step(w0, Operate(W.QUIET_ENV), w1) && S.Step(w1, Patch("u", "", ""), w2)
    ensures S.Step(w2, FinishBuild(n, JobComplete), w3) && w3.c.status == w1.c.status
    ensures w0.c.annotations.token == "t"
    ensures w3.c.builds.Keys == {n} && !w3.c.builds[n].finish.Unfinished? && w3.c.status.build.jobName == n
    ensures w3.c.status.build.phase == BuildPending && w3.c.status.lastProcessed == "t"
    ensures w3.c.annotations.token == "u" && n == BuildJobName(w3.c.name, "t")
  {
    hide Reconcile, PhaseOf, Initial, Recording, Creates, NewUids, ResultUids, AfterObserve, Inv, Seeds, Persists;
    var e := W.QUIET_ENV;
    w0 := W.NewApp();
    n := NextJob(w0.c);
    S.FirstPass(w0, e);
    w1 := Next(w0, Operate(e));
    w2 := Next(w1, Patch("u", "", ""));
    w3 := Next(w2, FinishBuild(n, JobComplete));
  }

  lemma TakeOver() returns (ws: seq<World>, n: string)
    ensures TakesOver(ws, n) && Persists(ws[0].c, W.QUIET_ENV) && Persists(ws[3].c, W.QUIET_ENV)
    ensures !M.Observes(ws[0].c, W.QUIET_ENV) && !M.Observes(ws[3].c, W.QUIET_ENV)
    ensures !R.InFlight(ws[0].c.status) && R.InFlight(ws[1].c.status) && ws[3].c.status == ws[1].c.status
    ensures R.InFlight(ws[4].c.status) && ws[4].c.status.build.jobName != ws[1].c.status.build.jobName
    ensures ws[4].c.status.build.jobName != ws[0].c.status.build.jobName
  {
    hide Reconcile, PhaseOf, NextLog, M.Observes;
    var e := W.QUIET_ENV;
    var w0, w1, w2, w3;
    w0, w1, w2, w3, n := EndsUnderToken();
    NewIsIdle(w0);
    W.PendingIsSeeded(w3.c);
    BuildJobNameInjective(w3.c.name, "t", "u");
    assert forall m :: m in w3.c.builds ==> m in w3.c.builds.Keys;
    FreshStart(w0.c, e);
    FreshStart(w3.c, e);
    ws := [w0, w1, w2, w3, Next(w3, Operate(e))];
  }

  /** Of four records, the first idle, the next two of one Job and the last of another. */
  lemma LaterDeadlineHidden(ms: seq<R.Metrics>, evs: seq<R.Event>, key: R.Key)
    requires R.IsTrace(ms, evs) && |evs| == 4
    requires forall k :: 0 <= k < 4 ==> evs[k].Record? && evs[k].input.key == key
    requires !R.InFlight(evs[0].input.status) && forall k :: 0 < k < 4 ==> R.InFlight(evs[k].input.status)
    requires evs[1].input.deadline != 0
    requires forall k :: 0 <= k < 3 ==> evs[k].input.status.build.jobName != evs[3].input.status.build.jobName
    ensures R.Shows(ms[4], key, evs[1].input.deadline)
    ensures R.JobDeadline(evs, key, evs[3].input.status.build.jobName) == evs[3].input.deadline
  {
    hide R.Shows, R.Exported;
    assert R.Step(ms[0], evs[0], ms[1]);
    R.DeadlineIsFrozen(ms, evs, 1, 3);
    R.StretchOpens(evs[1..4], key);
    var job := evs[3].input.status.build.jobName;
    assert R.JobDeadline(evs[..3], key, job) == 0 by {
      assert evs[..3][..2] == evs[..2] && evs[..2][..1] == evs[..1] && evs[..1][..0] == [];
      assert R.JobDeadline(evs[..1], key, job) == 0;
      assert R.JobDeadline(evs[..2], key, job) == 0;
    }
  }

  /** A run and all its calls to a recorder, under a deadline of 60 in its first pass and of 120
      in its second: the build started second is shown with the deadline of the first. */
  lemma DeadlineOfAnother(key: R.Key)
    ensures exists ws: seq<World>, n, ms: seq<R.Metrics> ::
              && TakesOver(ws, n) && R.InFlight(ws[4].c.status)
              && var evs := Calls(key, ws[0].c, W.QUIET_ENV, 60) + Calls(key, ws[3].c, W.QUIET_ENV, 120);
                 && R.IsTrace(ms, evs) && R.Shows(ms[|evs|], key, 60)
                 && R.JobDeadline(evs, key, ws[4].c.status.build.jobName) == 120
  {
    hide Reconcile, R.Shows, R.JobDeadline, R.InFlight, R.Step, Initial, Enabled, NextLog, M.Observes, Calls, Persists;
    var ws, n := TakeOver();
    PlainCalls(key, ws[0].c, W.QUIET_ENV, 60);
    PlainCalls(key, ws[3].c, W.QUIET_ENV, 120);
    var evs := Calls(key, ws[0].c, W.QUIET_ENV, 60) + Calls(key, ws[3].c, W.QUIET_ENV, 120);
    var ms := R.TraceHappens(evs);
    LaterDeadlineHidden(ms, evs, key);
  }

  // ---- a deadline that starts again ----

  const CONFLICT := W.QUIET_ENV.(fault := AtStatusWrite)
  const REJECTING := W.QUIET_ENV.(rejection := Some(Rejection("ConfigError", "")))

  /** A build, its end, a pass that sees the end and loses its write, and a pass that is rejected. */
  ghost predicate FliesAgain(ws: seq<World>, n: string) {
    && |ws| == 5 && Initial(ws[0])
    && S.Step(ws[0], Operate(W.QUIET_ENV), ws[1]) && S.Step(ws[1], FinishBuild(n, JobComplete), ws[2])
    && S.Step(ws[2], Operate(CONFLICT), ws[3]) && S.Step(ws[3], Operate(REJECTING), ws[4])
  }

  /** A pass that sees the end of a build and gets to its write: the record is not in flight. */
  lemma EndCalls(key: R.Key, c: Cluster, e: Env, deadline: int)
    requires M.Observes(c, e) && e.fault.AtStatusWrite?
    ensures var f := Final(c, e).status;
            && !R.InFlight(f)
            && Calls(key, c, e, deadline) == [Call(key, c.status, deadline),
                                              R.Terminal(key, AfterObserve(c, e).status.build), Call(key, f, deadline)]
  {
    hide Final, Reconcile, RecordOutcome, AfterCleanup;
    FinalFrame(c, e);
    ObservedBuild(c, e);
  }

  lemma RejectedCalls(key: R.Key, c: Cluster, deadline: int)
    ensures var r := Reconcile(c, REJECTING).status;
            r.build == c.status.build
                && Calls(key, c, REJECTING, deadline) == [Call(key, c.status, deadline), Call(key, r, deadline)]
  {}

  lemma FirstEnds() returns (w0: World, w1: World, w2: World, n: string)
    ensures Initial(w0) && S.Step(w0, Operate(W.QUIET_ENV), w1) && S.Step(w1, FinishBuild(n, JobComplete), w2)
    ensures n == NextJob(w0.c) && Persists(w0.c, W.QUIET_ENV) && w2.c.status == w1.c.status
    ensures w2.c.builds == map[n := NewBuildJob(w0.c.spec).(finish := JobComplete)]
    ensures w2.c.annotations == w0.c.annotations && w0.c.annotations.token != "" && w2.log.recorded == []
    ensures w2.c.status.build.jobName == n && w2.c.status.lastProcessed == w0.c.annotations.token
    ensures w2.c.status.build.phase == BuildPending
  {
    hide Reconcile, PhaseOf, Recording, Creates, NewUids, ResultUids, AfterObserve, Initial;
    w0 := W.NewApp();
    n := NextJob(w0.c);
    S.FirstPass(w0, W.QUIET_ENV);
    w1 := Next(w0, Operate(W.QUIET_ENV));
    w2 := Next(w1, FinishBuild(n, JobComplete));
  }

  lemma FlyAgain() returns (ws: seq<World>, n: string)
    ensures FliesAgain(ws, n) && Persists(ws[0].c, W.QUIET_ENV) && !M.Observes(ws[0].c, W.QUIET_ENV)
    ensures M.Observes(ws[2].c, CONFLICT)
    ensures !R.InFlight(ws[0].c.status) && R.InFlight(ws[1].c.status) && ws[1].c.status.build.jobName != ""
    ensures ws[2].c.status == ws[1].c.status && ws[3].c.status == ws[1].c.status
    ensures ws[0].c.status.build.jobName == ""
  {
    hide Reconcile, NextLog, M.Observes, PhaseOf, Initial;
    var w0, w1, w2;
    w0, w1, w2, n := FirstEnds();
    NewIsIdle(w0);
    M.SeesTheEnd(w0, w2, W.QUIET_ENV, CONFLICT);
    StatusAfter(w2.c, CONFLICT);
    var w3 := Next(w2, Operate(CONFLICT));
    ws := [w0, w1, w2, w3, Next(w3, Operate(REJECTING))];
  }

  /** Seven calls: the Job's first flight, its end, and the Job in flight again under a later
      deadline. */
  lemma LaterDeadlineShown(ms: seq<R.Metrics>, evs: seq<R.Event>, key: R.Key, job: string)
    requires R.IsTrace(ms, evs) && |evs| == 7 && evs[3].Terminal?
    requires forall k :: 0 <= k < 7 && k != 3 ==> evs[k].Record? && evs[k].input.key == key
    requires evs[0].input.status.build.jobName != job && evs[1].input.status.build.jobName == job
    requires !R.InFlight(evs[4].input.status) && R.InFlight(evs[5].input.status) && R.InFlight(evs[6].input.status)
    requires evs[1].input.deadline != 0 && evs[5].input.deadline != 0
    ensures R.Shows(ms[7], key, evs[5].input.deadline) && R.JobDeadline(evs, key, job) == evs[1].input.deadline
  {
    hide R.Shows, R.Exported;
    assert R.Step(ms[4], evs[4], ms[5]);
    R.DeadlineIsFrozen(ms, evs, 5, 6);
    R.StretchOpens(evs[5..7], key);
    assert evs[..2][..1] == evs[..1] && evs[..1][..0] == [];
    assert R.JobDeadline(evs[..1], key, job) == 0;
    R.JobDeadlineSplit(evs, key, job, 2);
  }

  /** A run of one build and all its calls to a recorder, under a deadline of 60 in its first two
      passes and of 120 in its third: the write that would have ended the build was lost, and it
      is shown in flight again with the later deadline. */
  lemma DeadlineRestarts(key: R.Key)
    ensures exists ws: seq<World>, n, ms: seq<R.Metrics> ::
              && FliesAgain(ws, n) && R.InFlight(ws[4].c.status)
              && var evs := Calls(key, ws[0].c, W.QUIET_ENV, 60) + Calls(key, ws[2].c, CONFLICT, 60)
                            + Calls(key, ws[3].c, REJECTING, 120);
                 && R.IsTrace(ms, evs) && R.Shows(ms[|evs|], key, 120)
                 && R.JobDeadline(evs, key, ws[4].c.status.build.jobName) == 60
  {
    hide Reconcile, Final, R.Shows, R.JobDeadline, R.Step, Initial, Enabled, NextLog, M.Observes, Calls, Persists,
      AfterObserve;
    var ws, n := FlyAgain();
    PlainCalls(key, ws[0].c, W.QUIET_ENV, 60);
    EndCalls(key, ws[2].c, CONFLICT, 60);
    RejectedCalls(key, ws[3].c, 120);
    var evs := Calls(key, ws[0].c, W.QUIET_ENV, 60) + Calls(key, ws[2].c, CONFLICT, 60)
               + Calls(key, ws[3].c, REJECTING, 120);
    var ms := R.TraceHappens(evs);
    LaterDeadlineShown(ms, evs, key, ws[4].c.status.build.jobName);
  }
}
