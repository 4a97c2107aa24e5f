/** The build counter against the protocol. A pass counts a build when it observes its end, before
    the status write; status records it when that write succeeds. */
module Metering {
  import opened Status
  import opened Operator
  import opened Protocol
  import opened Invariant
  import H = History
  import R = Recorder
  import S = Scenarios
  import W = Witnesses

  /** The pass observes the end of a build, whether or not it persists it. */
  predicate Observes(c: Cluster, e: Env) {
    Passes(c, e) && !e.fault.AtBuildDecision? && !e.fault.AtObserve? && Records(AfterBuild(c, e).status, c.builds)
  }

  /** One observed end: the finished record and whether it was persisted. */
  datatype Sighting = Sighting(rec: BuildStatus, kept: bool)

  ghost function Sightings(ws: seq<World>, vs: seq<Event>): seq<Sighting>
    requires |ws| == |vs| + 1
  {
    if vs == [] then []
    else
      var k := |vs| - 1;
      var before := Sightings(ws[..k + 1], vs[..k]);
      if vs[k].Operate? && Observes(ws[k].c, vs[k].env)
      then before + [Sighting(AfterObserve(ws[k].c, vs[k].env).status.build, Persists(ws[k].c, vs[k].env))]
      else before
  }

  function KeptRecords(s: seq<Sighting>): seq<BuildStatus> {
    if s == [] then []
    else
      var before, last := KeptRecords(s[..|s| - 1]), s[|s| - 1];
      if last.kept then before + [last.rec] else before
  }

  /** A kept Job is never seen again. */
  ghost predicate NoReturn(s: seq<Sighting>) {
    forall i, j :: 0 <= i < j < |s| && s[i].kept ==> s[j].rec.jobName != s[i].rec.jobName
  }

  /** Sightings that were lost and not directly followed by another of the same Job. */
  ghost function Lost(s: seq<Sighting>): set<nat> {
    set i: nat | i < |s| && !s[i].kept && (i + 1 == |s| || s[i + 1].rec.jobName != s[i].rec.jobName)
  }

  function Jobs(s: seq<Sighting>): seq<string> { seq(|s|, i requires 0 <= i < |s| => s[i].rec.jobName) }

  // ---- counting ----

  lemma LostStep(s: seq<Sighting>, x: Sighting)
    ensures var n := |s|;
            Lost(s + [x]) == (if n > 0 && s[n - 1].rec.jobName == x.rec.jobName then Lost(s) - {n - 1} else Lost(s))
                             + (if x.kept then {} else {n})
    ensures |s| !in Lost(s) && (|s| > 0 ==> (|s| - 1 in Lost(s) <==> !s[|s| - 1].kept))
  {
    var all, n := s + [x], |s|;
    forall i: nat
      ensures i in Lost(all) <==>
              i in (if n > 0 && s[n - 1].rec.jobName == x.rec.jobName then Lost(s) - {n - 1} else Lost(s))
                   + (if x.kept then {} else {n})
    {}
  }

  lemma LostSize(s: seq<Sighting>, x: Sighting)
    requires s != [] && s[|s| - 1].kept ==> s[|s| - 1].rec.jobName != x.rec.jobName
    ensures |Lost(s + [x])| == |Lost(s)| + (if x.kept then 0 else 1)
                               - if s != [] && s[|s| - 1].rec.jobName == x.rec.jobName then 1 else 0
  {
    LostStep(s, x);
    var n := |s|;
    if s != [] && s[n - 1].rec.jobName == x.rec.jobName {
      assert n - 1 in Lost(s) && |Lost(s) - {n - 1}| == |Lost(s)| - 1;
    }
  }

  lemma NothingLost()
    ensures Lost([]) == {}
  {}

  /** Blocks of equal names: each ends in a kept sighting or a lost one. */
  lemma {:induction false} ChangesAreEnds(s: seq<Sighting>)
    requires NoReturn(s) && forall i :: 0 <= i < |s| ==> s[i].rec.jobName != ""
    ensures R.Changes(Jobs(s)) == |KeptRecords(s)| + |Lost(s)|
  {
    hide Lost;
    if s == [] {
      NothingLost();
    } else {
      var n := |s| - 1;
      var before, x := s[..n], s[n];
      ChangesAreEnds(before);
      assert s == before + [x] && Jobs(s)[..n] == Jobs(before);
      LostSize(before, x);
      assert R.LastName(Jobs(before)) == if n == 0 then "" else before[n - 1].rec.jobName;
    }
  }

  // ---- what a run sees ----

  lemma ObservingFacts(w: World, e: Env)
    requires JobsInv(w) && StatusInv(w) && Observes(w.c, e)
    ensures var rec := AfterObserve(w.c, e).status.build;
            Terminal(rec) && rec.jobName != "" && H.NotIn(rec.jobName, w.log.recorded)
  {
    DecidedBuild(w.c, e);
    ObservedBuild(w.c, e);
    if Starts(w.c) {
      StartsUnrecorded(w);
    }
  }

  /** Kept sightings are the log of recorded builds, and no sighting is of a recorded Job. */
  lemma {:induction false} SightingsTellTheLog(ws: seq<World>, vs: seq<Event>)
    requires IsRun(ws, vs) && Initial(ws[0])
    ensures var s := Sightings(ws, vs);
            && KeptRecords(s) == ws[|vs|].log.recorded
            && NoReturn(s)
            && forall i :: 0 <= i < |s| ==> Terminal(s[i].rec) && s[i].rec.jobName != ""
  {
    hide Inv, Enabled, NextCluster, NextLog, Observes, Terminal;
    if vs == [] {
    } else {
      var k := |vs| - 1;
      assert IsRun(ws[..k + 1], vs[..k]);
      SightingsTellTheLog(ws[..k + 1], vs[..k]);
      InitialInv(ws[0]);
      RunKeepsInv(ws, vs, k);
      SightingStep(ws[k], vs[k], Sightings(ws[..k + 1], vs[..k]));
    }
  }

  lemma SightingStep(w: World, v: Event, s: seq<Sighting>)
    requires Inv(w) && Enabled(w, v)
    requires KeptRecords(s) == w.log.recorded && NoReturn(s)
    ensures if v.Operate? && Observes(w.c, v.env)
            then var x := Sighting(AfterObserve(w.c, v.env).status.build, Persists(w.c, v.env));
                 && KeptRecords(s + [x]) == Next(w, v).log.recorded && NoReturn(s + [x])
                 && Terminal(x.rec) && x.rec.jobName != ""
            else Next(w, v).log.recorded == w.log.recorded
  {
    hide Reconcile, AfterObserve, AfterBuild, Records, ActiveInv, LedgerInv, CleanupInv, PhaseInv;
    if v.Operate? && Observes(w.c, v.env) {
      ObservingFacts(w, v.env);
      var x := Sighting(AfterObserve(w.c, v.env).status.build, Persists(w.c, v.env));
      assert (s + [x])[..|s|] == s;
      forall i | 0 <= i < |s| && s[i].kept
        ensures s[i].rec.jobName != x.rec.jobName
      {
        KeptIsRecorded(s, i);
      }
    }
  }

  lemma {:induction false} KeptIsRecorded(s: seq<Sighting>, i: nat)
    requires i < |s| && s[i].kept
    ensures !H.NotIn(s[i].rec.jobName, KeptRecords(s))
  {
    var n := |s| - 1;
    if i == n {
      assert KeptRecords(s)[|KeptRecords(s)| - 1] == s[i].rec;
    } else {
      KeptIsRecorded(s[..n], i);
      var j :| 0 <= j < |KeptRecords(s[..n])| && KeptRecords(s[..n])[j].jobName == s[i].rec.jobName;
      assert KeptRecords(s)[j] == KeptRecords(s[..n])[j];
    }
  }

  // ---- the counter ----

  /** Ends of one app's builds among the calls of a recorder that is not told to forget it. */
  function Ends(evs: seq<R.Event>, key: R.Key): seq<BuildStatus> {
    if evs == [] then []
    else
      var before, last := Ends(evs[..|evs| - 1], key), evs[|evs| - 1];
      if last.Terminal? && last.key == key then before + [last.build] else before
  }

  ghost predicate Remembers(evs: seq<R.Event>, key: R.Key) {
    forall i :: 0 <= i < |evs| ==> !(evs[i].Forget? && evs[i].key == key)
  }

  function Recs(s: seq<Sighting>): seq<BuildStatus> { seq(|s|, i requires 0 <= i < |s| => s[i].rec) }

  lemma {:induction false} ObservedIsEnds(evs: seq<R.Event>, key: R.Key)
    requires Remembers(evs, key)
    requires forall i :: 0 <= i < |Ends(evs, key)| ==> R.Finished(Ends(evs, key)[i]) && Ends(evs, key)[i].jobName != ""
    ensures R.Observed(evs, key)
        == seq(|Ends(evs, key)|, i requires 0 <= i < |Ends(evs, key)| => Ends(evs, key)[i].jobName)
  {
    if evs == [] {
    } else {
      var before := evs[..|evs| - 1];
      assert Ends(before, key) <= Ends(evs, key);
      forall i | 0 <= i < |Ends(before, key)|
        ensures R.Finished(Ends(before, key)[i]) && Ends(before, key)[i].jobName != ""
      {
        assert Ends(before, key)[i] == Ends(evs, key)[i];
      }
      ObservedIsEnds(before, key);
      var last := evs[|evs| - 1];
      if last.Terminal? && last.key == key {
        assert Ends(evs, key)[|Ends(evs, key)| - 1] == last.build;
      }
    }
  }

  /** Conservation: over every run of a new App, and every recorder fed with the ends its passes
      observe, in order and among any other calls, the build total is the number of recorded
      builds plus the sightings that were lost and not directly seen again. */
  lemma CounterTellsTheLog(ws: seq<World>, vs: seq<Event>, ms: seq<R.Metrics>, evs: seq<R.Event>, key: R.Key)
    requires IsRun(ws, vs) && Initial(ws[0])
    requires R.IsTrace(ms, evs) && Remembers(evs, key) && Ends(evs, key) == Recs(Sightings(ws, vs))
    ensures R.BuildTotal(ms[|evs|].series, key) == |ws[|vs|].log.recorded| + |Lost(Sightings(ws, vs))|
  {
    hide Initial, Enabled, NextCluster, NextLog, R.Step, R.BuildTotal;
    var s := Sightings(ws, vs);
    SightingsTellTheLog(ws, vs);
    ChangesAreEnds(s);
    forall i | 0 <= i < |s|
      ensures R.Finished(Recs(s)[i]) && Recs(s)[i].jobName != ""
    {}
    ObservedIsEnds(evs, key);
    assert R.Observed(evs, key) == Jobs(s);
    assert evs[..|evs|] == evs;
    R.BuildsAreCountedOnce(ms, evs, |evs|, key);
  }

  // ---- the two do differ ----

  lemma SightingsGrow(ws: seq<World>, vs: seq<Event>, v: Event, w: World)
    requires |ws| == |vs| + 1
    ensures var last := ws[|vs|];
            Sightings(ws + [w], vs + [v]) == if v.Operate? && Observes(last.c, v.env)
            then Sightings(ws, vs) + [Sighting(AfterObserve(last.c, v.env).status.build, Persists(last.c, v.env))]
            else Sightings(ws, vs)
  {
    assert (ws + [w])[..|vs| + 1] == ws && (vs + [v])[..|vs|] == vs;
  }

  /** A run whose first build is counted and not recorded: the write that would record it is lost. */
  lemma CountedBeforeRecorded()
    ensures exists ws: seq<World>, vs: seq<Event> ::
              && IsRun(ws, vs) && Initial(ws[0])
              && |Lost(Sightings(ws, vs))| == 1 && ws[|vs|].log.recorded == []
  {
    hide Enabled, NextCluster, NextLog, Initial, Observes, AfterObserve, Persists, Lost;
    var w0, w1, w2, w3, vs := LoseTheFirst();
    SightingsGrow([w0], [], vs[0], w1);
    SightingsGrow([w0, w1], vs[..1], vs[1], w2);
    SightingsGrow([w0, w1, w2], vs[..2], vs[2], w3);
    var ws := [w0, w1, w2, w3];
    assert [w0] + [w1] == [w0, w1] && [w0, w1] + [w2] == [w0, w1, w2] && [w0, w1, w2] + [w3] == ws;
    assert [] + [vs[0]] == vs[..1] && vs[..1] + [vs[1]] == vs[..2] && vs[..2] + [vs[2]] == vs;
    assert Sightings([w0], []) == [];
    var x := Sighting(AfterObserve(w2.c, vs[2].env).status.build, false);
    assert Sightings(ws, vs) == [x];
    assert Lost([x]) == {0} by { LostAlone(x); }
    assert IsRun(ws, vs);
  }

  lemma LostAlone(x: Sighting)
    requires !x.kept
    ensures Lost([x]) == {0}
  {}

  /** First pass, end of the build, and a pass that observes it and loses its write. */
  lemma LoseTheFirst() returns (w0: World, w1: World, w2: World, w3: World, vs: seq<Event>)
    ensures |vs| == 3 && vs[0].Operate? && !vs[1].Operate? && vs[2].Operate? && Initial(w0)
    ensures S.Step(w0, vs[0], w1) && S.Step(w1, vs[1], w2) && S.Step(w2, vs[2], w3)
    ensures !Observes(w0.c, vs[0].env) && Observes(w2.c, vs[2].env) && !Persists(w2.c, vs[2].env)
    ensures w3.log.recorded == []
  {
    hide Reconcile, PhaseOf, Initial, Observes, AfterObserve, Recording, Creates, Seeds, NewUids, ResultUids;
    var e := W.QUIET_ENV;
    var conflict := e.(fault := AtStatusWrite);
    w0 := W.NewApp();
    S.FirstPass(w0, e);
    var n := NextJob(w0.c);
    w1 := Next(w0, Operate(e));
    w2 := Next(w1, FinishBuild(n, JobComplete));
    SeesTheEnd(w0, w2, e, conflict);
    w3 := Next(w2, Operate(conflict));
    vs := [Operate(e), FinishBuild(n, JobComplete), Operate(conflict)];
  }

  lemma SeesTheEnd(w0: World, w: World, e: Env, conflict: Env)
    requires Initial(w0) && w0.c.annotations.token != "" && conflict.rejection.None? && conflict.fault.AtStatusWrite?
    requires var n := NextJob(w0.c);
             && w.c.builds == map[n := NewBuildJob(w0.c.spec).(finish := JobComplete)] && w.c.status.build.jobName == n
             && w.c.annotations == w0.c.annotations && w.c.status.lastProcessed == w0.c.annotations.token
             && w.c.status.build.phase == BuildPending && w.log.recorded == []
    ensures Enabled(w, Operate(conflict)) && Observes(w.c, conflict) && !Persists(w.c, conflict)
    ensures !Observes(w0.c, e) && NextLog(w, Operate(conflict)).recorded == []
  {
    DecidedBuild(w.c, conflict);
    DecidedBuild(w0.c, e);
  }
}
