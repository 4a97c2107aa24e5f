/** The per-app metric series (internal/controller/metrics.go): per-app bookkeeping that keeps
    counters from double-counting, removes stale series and freezes the deadline of a running
    build, over any interleaving of calls for any number of apps. */
module Recorder {
  import opened Util
  import opened Status
  import P = Pipeline

  // ---- series ----

  datatype Key = Key(namespace: string, name: string)

  datatype Series =
    | DegradedSeries(app: Key, reason: string)
    | PhaseSeries(app: Key, phase: AppPhase)
    | BuildsTotal(app: Key, result: BuildResult, trigger: Trigger)
    | OomTotal(app: Key, step: P.Step)
    | RunningSince(app: Key)
    | Deadline(app: Key)
    | StorageUsed(app: Key, volume: string)
    | StorageAlert(app: Key, volume: string)
    | FailureStreak(app: Key)
    | StreakThreshold(app: Key)

  datatype AppState = AppState(lastCountedJob: string, lastDegradedReason: string, frozenDeadline: int)
  const NEW_STATE := AppState("", "", 0)

  datatype Metrics = Metrics(apps: map<Key, AppState>, series: map<Series, int>)

  /** One call of `RecordApp`: the status and what was derived from the spec. */
  datatype Input = Input(key: Key, status: AppStatus, deadline: int, thresholds: map<string, int>, streakThreshold: int)

  const RESULTS := [ResultSucceeded, ResultFailed]
  const TRIGGERS := [Scheduled, Manual, Commit, SpecChange]
  const STEPS := [P.Clone, P.Setup, P.Fetch, P.Build, P.Copier]
  const PHASES := [AwaitingFirstBuild, Building, AppReady, AppDegraded]
  const OUTPUT_TOTAL := "outputTotal"

  function Lookup<K, V>(m: map<K, V>, k: K): Option<V> { if k in m then Some(m[k]) else None }

  lemma PhaseListed(p: AppPhase)
    ensures p in PHASES <==> p != NoAppPhase
  {}

  predicate IsCounter(s: Series) {
    || (s.BuildsTotal? && s.result in RESULTS && s.trigger in TRIGGERS)
    || (s.OomTotal? && s.step in STEPS)
  }

  // ---- what each call does to each series ----

  function StateOf(m: Metrics, key: Key): AppState { if key in m.apps then m.apps[key] else NEW_STATE }

  /** Counters are born at 0 with the app's entry. */
  function Born(m: Metrics, key: Key, s: Series): Option<int> {
    if key !in m.apps && s.app == key && IsCounter(s) && s !in m.series then Some(0) else Lookup(m.series, s)
  }

  function Reason(st: AppStatus): string {
    var i := CondIndex(st.conditions, Degraded);
    if i < |st.conditions| && st.conditions[i].isTrue then st.conditions[i].reason else ""
  }

  function ShownPhase(st: AppStatus): AppPhase { if st.phase == NoAppPhase then AwaitingFirstBuild else st.phase }

  predicate InFlight(st: AppStatus) { st.build.phase == BuildPending || st.build.phase == BuildRunning }

  /** Start of the build in flight, 0 when there is none. */
  function RunningSinceTime(st: AppStatus): (t: int)
    ensures InFlight(st) && st.build.startTime.Some? ==> Some(t) == st.build.startTime
    ensures !InFlight(st) || st.build.startTime.None? ==> t == 0
  {
    if InFlight(st) && st.build.startTime.Some? then st.build.startTime.value else 0
  }

  function ExportedDeadline(s: AppState, input: Input): int {
    if InFlight(input.status) && s.frozenDeadline != 0 then s.frozenDeadline else input.deadline
  }

  function NextState(s: AppState, input: Input): AppState {
    AppState(s.lastCountedJob, Reason(input.status), if InFlight(input.status) then ExportedDeadline(s, input) else 0)
  }

  /** Gauges written from status, given the value before. */
  function GaugeValue(before: Option<int>, s: AppState, input: Input, x: Series): Option<int> {
    var st := input.status;
    if x.app != input.key then before
    else match x
      case DegradedSeries(_, r) =>
        if r == Reason(st) then Some(if Holds(st.conditions, Degraded) then 1 else 0)
        else if r == s.lastDegradedReason then None
        else before
      case PhaseSeries(_, p) => if p in PHASES then Some(if p == ShownPhase(st) then 1 else 0) else before
      case RunningSince(_) => Some(RunningSinceTime(st))
      case Deadline(_) => Some(ExportedDeadline(s, input))
      case FailureStreak(_) => Some(st.failureStreak)
      case StreakThreshold(_) => Some(input.streakThreshold)
      case _ => before
  }

  /** Volume series, synced over the closed set of volumes. */
  function VolumeValue(before: Option<int>, input: Input, x: Series): Option<int> {
    if x.app != input.key then before
    else match x
      case StorageUsed(_, v) =>
        if v in input.thresholds || v == OUTPUT_TOTAL then Lookup(input.status.storage.sizes, v) else before
      case StorageAlert(_, v) =>
        if v !in input.thresholds then before
        else if input.thresholds[v] > 0 then Some(input.thresholds[v]) else None
      case _ => before
  }

  function Exported(m: Metrics, input: Input, x: Series): Option<int> {
    VolumeValue(GaugeValue(Born(m, input.key, x), StateOf(m, input.key), input, x), input, x)
  }

  predicate Counts(s: AppState, b: BuildStatus) { b.jobName != "" && b.jobName != s.lastCountedJob }

  function CountedTrigger(b: BuildStatus): Trigger { if b.trigger == NoTrigger then Scheduled else b.trigger }

  /** The series a counted build increments. */
  predicate Increments(key: Key, b: BuildStatus, s: Series) {
    || s == BuildsTotal(key, b.result, CountedTrigger(b))
    || (b.termination.Some? && b.termination.value.reason == "OOMKilled"
        && s == OomTotal(key, b.termination.value.container))
  }

  function CountedValue(m: Metrics, key: Key, b: BuildStatus, s: Series): Option<int> {
    var born := Born(m, key, s);
    if Counts(StateOf(m, key), b) && Increments(key, b, s) then Some(1 + if born.Some? then born.value else 0) else born
  }

  datatype Event =
    | Record(input: Input)
    | Terminal(key: Key, build: BuildStatus)
    | Forget(key: Key)

  predicate Finished(b: BuildStatus) { b.result == ResultSucceeded || b.result == ResultFailed }

  ghost predicate Step(m: Metrics, ev: Event, r: Metrics) {
    match ev
    case Record(input) =>
      && r.apps == m.apps[input.key := NextState(StateOf(m, input.key), input)]
      && forall s :: Lookup(r.series, s) == Exported(m, input, s)
    case Terminal(key, b) =>
      if Finished(b) then
        && r.apps == m.apps[key := if Counts(StateOf(m, key), b) then StateOf(m, key).(lastCountedJob := b.jobName)
            else StateOf(m, key)]
        && forall s :: Lookup(r.series, s) == CountedValue(m, key, b, s)
      else r == m
    case Forget(key) =>
      && r.apps == m.apps - {key}
      && forall s :: Lookup(r.series, s) == if s.app == key && key in m.apps then None else Lookup(m.series, s)
  }

  // ---- the recorder ----

  method DegradedReason(st: AppStatus) returns (reason: string, value: int)
    ensures reason == Reason(st) && value == if Holds(st.conditions, Degraded) then 1 else 0
  {
    for i := 0 to |st.conditions|
      invariant forall k :: 0 <= k < i ==> st.conditions[k].ctype != Degraded
    {
      if st.conditions[i].ctype == Degraded {
        CondIndexIs(st.conditions, Degraded, i);
        if st.conditions[i].isTrue {
          return st.conditions[i].reason, 1;
        }
        return "", 0;
      }
    }
    CondIndexIs(st.conditions, Degraded, |st.conditions|);
    return "", 0;
  }

  class MetricsRecorder {
    var apps: map<Key, AppState>
    var series: map<Series, int>

    function View(): Metrics reads this { Metrics(apps, series) }

    constructor ()
      ensures View() == Metrics(map[], map[])
    {
      apps, series := map[], map[];
    }

    method Add(s: Series, n: int)
      modifies `series
      ensures series == old(series)[s := n + if s in old(series) then old(series)[s] else 0]
    {
      series := series[s := n + if s in series then series[s] else 0];
    }

    method Drop(s: Series)
      modifies `series
      ensures series == old(series) - {s}
    {
      series := series - {s};
    }

    method SeedBuilds(key: Key, result: BuildResult)
      modifies `series
      ensures forall s :: Lookup(series, s) ==
                          if s.BuildsTotal? && s.app == key && s.result == result && s.trigger in TRIGGERS
                              && s !in old(series)
                          then Some(0) else Lookup(old(series), s)
    {
      for i := 0 to |TRIGGERS|
        invariant forall s :: Lookup(series, s) ==
                              if s.BuildsTotal? && s.app == key && s.result == result && s.trigger in TRIGGERS[..i]
                                  && s !in old(series)
                              then Some(0) else Lookup(old(series), s)
      {
        assert TRIGGERS[..i + 1] == TRIGGERS[..i] + [TRIGGERS[i]];
        Add(BuildsTotal(key, result, TRIGGERS[i]), 0);
      }
      assert TRIGGERS[..|TRIGGERS|] == TRIGGERS;
    }

    method SeedOoms(key: Key)
      modifies `series
      ensures forall s :: Lookup(series, s) ==
                          if s.OomTotal? && s.app == key && s.step in STEPS && s !in old(series) then Some(0)
                              else Lookup(old(series), s)
    {
      for i := 0 to |STEPS|
        invariant forall s :: Lookup(series, s) ==
                              if s.OomTotal? && s.app == key && s.step in STEPS[..i]
                                  && s !in old(series) then Some(0) else Lookup(old(series), s)
      {
        assert STEPS[..i + 1] == STEPS[..i] + [STEPS[i]];
        Add(OomTotal(key, STEPS[i]), 0);
      }
      assert STEPS[..|STEPS|] == STEPS;
    }

    method State(key: Key) returns (s: AppState)
      modifies this
      ensures s == StateOf(old(View()), key) && apps == old(apps)[key := s]
      ensures forall x :: Lookup(series, x) == Born(old(View()), key, x)
    {
      if key in apps {
        assert apps == apps[key := apps[key]];
        return apps[key];
      }
      s := NEW_STATE;
      apps := apps[key := s];
      SeedBuilds(key, RESULTS[0]);
      SeedBuilds(key, RESULTS[1]);
      SeedOoms(key);
    }

    method SetPhases(key: Key, shown: AppPhase)
      modifies `series
      ensures forall s :: Lookup(series, s) ==
                          if s.PhaseSeries? && s.app == key
                              && s.phase in PHASES then Some(if s.phase == shown then 1 else 0)
                              else Lookup(old(series), s)
    {
      for i := 0 to |PHASES|
        invariant forall s :: Lookup(series, s) ==
                              if s.PhaseSeries? && s.app == key
                                  && s.phase in PHASES[..i] then Some(if s.phase == shown then 1 else 0)
                                  else Lookup(old(series), s)
      {
        assert PHASES[..i + 1] == PHASES[..i] + [PHASES[i]];
        series := series[PhaseSeries(key, PHASES[i]) := if PHASES[i] == shown then 1 else 0];
      }
      assert PHASES[..|PHASES|] == PHASES;
    }

    method SyncUsed(key: Key, volume: string, sizes: map<string, int>)
      modifies `series
      ensures forall s :: Lookup(series, s) == if s == StorageUsed(key, volume) then Lookup(sizes, volume)
          else Lookup(old(series), s)
    {
      if volume in sizes {
        series := series[StorageUsed(key, volume) := sizes[volume]];
      } else {
        Drop(StorageUsed(key, volume));
      }
    }

    method SyncAlert(key: Key, volume: string, threshold: int)
      modifies `series
      ensures forall s :: Lookup(series, s) ==
                          if s == StorageAlert(key, volume) then (if threshold > 0 then Some(threshold) else None)
                              else Lookup(old(series), s)
    {
      if threshold > 0 {
        series := series[StorageAlert(key, volume) := threshold];
      } else {
        Drop(StorageAlert(key, volume));
      }
    }

    method SyncVolumes(key: Key, thresholds: map<string, int>, sizes: map<string, int>)
      modifies `series
      ensures forall s :: Lookup(series, s) == Synced(old(series), key, thresholds, thresholds.Keys, sizes, s)
    {
      var todo := thresholds.Keys;
      while todo != {}
        invariant todo <= thresholds.Keys
        invariant forall s ::
                    Lookup(series, s) == Synced(old(series), key, thresholds, thresholds.Keys - todo, sizes, s)
      {
        var v :| v in todo;
        SyncUsed(key, v, sizes);
        SyncAlert(key, v, thresholds[v]);
        todo := todo - {v};
      }
    }

    method SetDegraded(key: Key, last: string, reason: string, value: int)
      modifies `series
      ensures forall s :: Lookup(series, s) ==
                          if s == DegradedSeries(key, reason) then Some(value)
                          else if s == DegradedSeries(key, last) then None
                          else Lookup(old(series), s)
    {
      if reason != last {
        Drop(DegradedSeries(key, last));
      }
      series := series[DegradedSeries(key, reason) := value];
    }

    method SetGauges(key: Key, streak: int, threshold: int, since: int)
      modifies `series
      ensures forall s :: Lookup(series, s) ==
                          if s == FailureStreak(key) then Some(streak)
                          else if s == StreakThreshold(key) then Some(threshold)
                          else if s == RunningSince(key) then Some(since)
                          else Lookup(old(series), s)
    {
      series := series[FailureStreak(key) := streak];
      series := series[StreakThreshold(key) := threshold];
      series := series[RunningSince(key) := since];
    }

    /** The deadline in force when the running build was first recorded. */
    method Freeze(key: Key, s: AppState, input: Input) returns (r: AppState)
      modifies `series
      ensures r == s.(frozenDeadline := if InFlight(input.status) then ExportedDeadline(s, input) else 0)
      ensures forall x :: Lookup(series, x) == if x == Deadline(key) then Some(ExportedDeadline(s, input))
          else Lookup(old(series), x)
    {
      r := s;
      var deadline := input.deadline;
      if input.status.build.phase == BuildPending || input.status.build.phase == BuildRunning {
        if r.frozenDeadline == 0 {
          r := r.(frozenDeadline := deadline);
        }
        deadline := r.frozenDeadline;
      } else {
        r := r.(frozenDeadline := 0);
      }
      series := series[Deadline(key) := deadline];
    }

    method SetStatusSeries(s: AppState, input: Input) returns (r: AppState)
      modifies `series
      ensures r == NextState(s, input)
      ensures forall x :: Lookup(series, x) == GaugeValue(Lookup(old(series), x), s, input, x)
    {
      hide Lookup, Holds, Reason, InFlight;
      var key, st := input.key, input.status;
      SetGauges(key, st.failureStreak, input.streakThreshold, RunningSinceTime(st));
      SetPhases(key, if st.phase == NoAppPhase then AwaitingFirstBuild else st.phase);
      var reason, value := DegradedReason(st);
      SetDegraded(key, s.lastDegradedReason, reason, value);
      r := s.(lastDegradedReason := reason);
      r := Freeze(key, r, input);
    }

    method SyncVolumeSeries(input: Input)
      modifies `series
      ensures forall x :: Lookup(series, x) == VolumeValue(Lookup(old(series), x), input, x)
    {
      SyncVolumes(input.key, input.thresholds, input.status.storage.sizes);
      SyncUsed(input.key, OUTPUT_TOTAL, input.status.storage.sizes);
    }

    method RecordApp(input: Input)
      modifies this
      ensures Step(old(View()), Record(input), View())
    {
      hide Lookup, GaugeValue, VolumeValue, NextState, Born;
      var s := State(input.key);
      s := SetStatusSeries(s, input);
      apps := apps[input.key := s];
      SyncVolumeSeries(input);
    }

    method Count(key: Key, b: BuildStatus)
      modifies `series
      ensures forall s :: Lookup(series, s) ==
                          if Increments(key, b, s) then Some(1 + if s in old(series) then old(series)[s] else 0)
                              else Lookup(old(series), s)
    {
      Add(BuildsTotal(key, b.result, if b.trigger == NoTrigger then Scheduled else b.trigger), 1);
      if b.termination.Some? && b.termination.value.reason == "OOMKilled" {
        Add(OomTotal(key, b.termination.value.container), 1);
      }
    }

    method RecordTerminalBuild(key: Key, b: BuildStatus)
      modifies this
      ensures Step(old(View()), Terminal(key, b), View())
    {
      hide Increments, IsCounter;
      if b.result != ResultSucceeded && b.result != ResultFailed {
        return;
      }
      var s := State(key);
      if b.jobName == "" || b.jobName == s.lastCountedJob {
        return;
      }
      Count(key, b);
      apps := apps[key := s.(lastCountedJob := b.jobName)];
    }

    method ForgetApp(key: Key)
      modifies this
      ensures Step(old(View()), Forget(key), View())
    {
      if key in apps {
        series := map s | s in series && s.app != key :: series[s];
      }
      apps := apps - {key};
    }
  }

  /** The volume series once the volumes in `done` are synced. */
  function Synced(series: map<Series, int>, key: Key, thresholds: map<string, int>, done: set<string>,
      sizes: map<string, int>, s: Series): Option<int>
    requires done <= thresholds.Keys
  {
    if s.StorageUsed? && s.app == key && s.volume in done then Lookup(sizes, s.volume)
    else if s.StorageAlert? && s.app == key && s.volume in done then
      if thresholds[s.volume] > 0 then Some(thresholds[s.volume]) else None
    else Lookup(series, s)
  }

  // ---- all calls ----

  ghost predicate IsTrace(ms: seq<Metrics>, evs: seq<Event>) {
    && |ms| == |evs| + 1
    && ms[0] == Metrics(map[], map[])
    && forall k :: 0 <= k < |evs| ==> Step(ms[k], evs[k], ms[k + 1])
  }

  /** Every series belongs to a known app, every known app has its counters, an app's only
      degraded series is the last one written, and only listed phases are shown. */
  ghost predicate Exact(m: Metrics) {
    && (forall s :: Lookup(m.series, s).Some? ==> s.app in m.apps)
    && (forall s: Series :: s.app in m.apps && IsCounter(s) ==> Lookup(m.series, s).Some?)
    && (forall s :: Lookup(m.series, s).Some? && s.DegradedSeries? ==> s.reason == StateOf(m, s.app).lastDegradedReason)
    && (forall s :: Lookup(m.series, s).Some? && s.PhaseSeries? ==> s.phase in PHASES)
  }

  lemma StepExact(m: Metrics, ev: Event, r: Metrics)
    requires Exact(m) && Step(m, ev, r)
    ensures Exact(r)
  {}

  lemma {:induction false} TraceExact(ms: seq<Metrics>, evs: seq<Event>, k: nat)
    requires IsTrace(ms, evs) && k < |ms|
    ensures Exact(ms[k])
  {
    hide Step;
    if k == 0 {
    } else {
      TraceExact(ms, evs, k - 1);
      StepExact(ms[k - 1], evs[k - 1], ms[k]);
    }
  }

  /** At every point of every trace an app has series exactly when it has a state entry. */
  lemma SeriesIffState(ms: seq<Metrics>, evs: seq<Event>, k: nat, key: Key)
    requires IsTrace(ms, evs) && k < |ms|
    ensures (exists s :: s in ms[k].series && s.app == key) <==> key in ms[k].apps
  {
    TraceExact(ms, evs, k);
    var m := ms[k];
    var c := BuildsTotal(key, ResultSucceeded, Scheduled);
    if key in m.apps {
      assert IsCounter(c) && Lookup(m.series, c).Some?;
    }
    forall s | s in m.series
      ensures s.app in m.apps
    {
      assert Lookup(m.series, s).Some?;
    }
  }

  /** After a record the app has exactly one degraded series, all four phases with exactly one
      at 1, and storage series for exactly what is measured or limited. */
  lemma RecordIsExact(ms: seq<Metrics>, evs: seq<Event>, k: nat)
    requires IsTrace(ms, evs) && k < |evs| && evs[k].Record?
    ensures var key, st, r := evs[k].input.key, evs[k].input.status, ms[k + 1].series;
            && (forall reason :: DegradedSeries(key, reason) in r <==> reason == Reason(st))
            && r[DegradedSeries(key, Reason(st))] == (if Holds(st.conditions, Degraded) then 1 else 0)
            && (forall p :: PhaseSeries(key, p) in r && r[PhaseSeries(key, p)] == 1 <==> p == ShownPhase(st))
            && (forall p :: p in PHASES ==> PhaseSeries(key, p) in r)
            && (forall v :: v in evs[k].input.thresholds ==>
                  && (StorageUsed(key, v) in r <==> v in st.storage.sizes)
                  && (StorageAlert(key, v) in r <==> evs[k].input.thresholds[v] > 0))
  {
    TraceExact(ms, evs, k);
    var key, st, m, r := evs[k].input.key, evs[k].input.status, ms[k], ms[k + 1].series;
    assert forall s :: Lookup(r, s) == Exported(m, evs[k].input, s);
    assert Lookup(r, DegradedSeries(key, Reason(st))) == Exported(m, evs[k].input, DegradedSeries(key, Reason(st)));
    PhaseListed(ShownPhase(st));
    forall reason
      ensures DegradedSeries(key, reason) in r <==> reason == Reason(st)
    {
      assert Lookup(r, DegradedSeries(key, reason)) == Exported(m, evs[k].input, DegradedSeries(key, reason));
    }
    forall p
      ensures PhaseSeries(key, p) in r && r[PhaseSeries(key, p)] == 1 <==> p == ShownPhase(st)
    {
      PhaseListed(p);
      assert Lookup(r, PhaseSeries(key, p)) == Exported(m, evs[k].input, PhaseSeries(key, p));
    }
    forall p | p in PHASES
      ensures PhaseSeries(key, p) in r
    {
      assert Lookup(r, PhaseSeries(key, p)) == Exported(m, evs[k].input, PhaseSeries(key, p));
    }
    forall v | v in evs[k].input.thresholds
      ensures StorageUsed(key, v) in r <==> v in st.storage.sizes
      ensures StorageAlert(key, v) in r <==> evs[k].input.thresholds[v] > 0
    {
      assert Lookup(r, StorageUsed(key, v)) == Exported(m, evs[k].input, StorageUsed(key, v));
      assert Lookup(r, StorageAlert(key, v)) == Exported(m, evs[k].input, StorageAlert(key, v));
    }
  }

  /** What a record shows of the status and the spec, series by series; counters stay, and are born
      at 0 with a new app. */
  lemma RecordShows(m: Metrics, input: Input, r: Metrics)
    requires Step(m, Record(input), r)
    ensures var key, st := input.key, input.status;
            && Lookup(r.series, FailureStreak(key)) == Some(st.failureStreak)
            && Lookup(r.series, StreakThreshold(key)) == Some(input.streakThreshold)
            && Lookup(r.series, RunningSince(key))
               == Some(if (st.build.phase == BuildPending || st.build.phase == BuildRunning)
                          && st.build.startTime.Some? then st.build.startTime.value else 0)
            && (!InFlight(st) ==> Lookup(r.series, Deadline(key)) == Some(input.deadline))
            && (forall v :: v in input.thresholds || v == OUTPUT_TOTAL ==>
                  Lookup(r.series, StorageUsed(key, v)) == Lookup(st.storage.sizes, v))
            && (forall v :: v in input.thresholds ==>
                  Lookup(r.series, StorageAlert(key, v))
                  == if input.thresholds[v] > 0 then Some(input.thresholds[v]) else None)
            && (forall s: Series :: s.app == key && (s.BuildsTotal? || s.OomTotal?) ==>
                  Lookup(r.series, s) == if s !in m.series && key !in m.apps && IsCounter(s) then Some(0)
                                         else Lookup(m.series, s))
  {
    hide Reason, Holds, ShownPhase;
  }

  function AppOf(ev: Event): Key {
    match ev
    case Record(input) => input.key
    case Terminal(key, _) => key
    case Forget(key) => key
  }

  /** A call about one app touches nothing of another. */
  lemma OthersUntouched(m: Metrics, ev: Event, r: Metrics, s: Series)
    requires Step(m, ev, r) && s.app != AppOf(ev)
    ensures Lookup(r.series, s) == Lookup(m.series, s) && StateOf(r, s.app) == StateOf(m, s.app)
  {
    hide Reason, Holds;
    var shown := Lookup(r.series, s);
  }

  // ---- every call has its outcome ----

  ghost function Counters(key: Key): set<Series> {
    (set r, t | r in RESULTS && t in TRIGGERS :: BuildsTotal(key, r, t)) + (set x | x in STEPS :: OomTotal(key, x))
  }

  /** The series a record may leave behind. */
  ghost function Touched(m: Metrics, input: Input): set<Series> {
    var key := input.key;
    m.series.Keys + Counters(key)
    + (set p | p in PHASES :: PhaseSeries(key, p))
    + {DegradedSeries(key, Reason(input.status)), RunningSince(key), Deadline(key), FailureStreak(key),
       StreakThreshold(key)}
    + (set v | v in input.status.storage.sizes :: StorageUsed(key, v))
    + (set v | v in input.thresholds :: StorageAlert(key, v))
  }

  lemma ExportedIsTouched(m: Metrics, input: Input, s: Series)
    requires Exported(m, input, s).Some?
    ensures s in Touched(m, input)
  {
    hide Reason, Holds, ShownPhase;
  }

  lemma RecordHappens(m: Metrics, input: Input) returns (r: Metrics)
    ensures Step(m, Record(input), r)
  {
    hide Touched, Exported;
    var series := map s | s in Touched(m, input) && Exported(m, input, s).Some? :: Exported(m, input, s).value;
    r := Metrics(m.apps[input.key := NextState(StateOf(m, input.key), input)], series);
    forall s
      ensures Lookup(r.series, s) == Exported(m, input, s)
    {
      if Exported(m, input, s).Some? {
        ExportedIsTouched(m, input, s);
      }
    }
  }

  /** The series a counted build may leave behind. */
  ghost function CountTouched(m: Metrics, key: Key, b: BuildStatus): set<Series> {
    m.series.Keys + Counters(key) + {BuildsTotal(key, b.result, CountedTrigger(b))}
    + if b.termination.Some? then {OomTotal(key, b.termination.value.container)} else {}
  }

  lemma TerminalHappens(m: Metrics, key: Key, b: BuildStatus) returns (r: Metrics)
    ensures Step(m, Terminal(key, b), r)
  {
    r := m;
    if Finished(b) {
      var s := StateOf(m, key);
      var series := map x | x in CountTouched(m, key, b) && CountedValue(m, key, b, x).Some?
                      :: CountedValue(m, key, b, x).value;
      r := Metrics(m.apps[key := if Counts(s, b) then s.(lastCountedJob := b.jobName) else s], series);
      forall x
        ensures Lookup(r.series, x) == CountedValue(m, key, b, x)
      {}
    }
  }

  lemma ForgetHappens(m: Metrics, key: Key) returns (r: Metrics)
    ensures Step(m, Forget(key), r)
  {
    r := Metrics(m.apps - {key}, map s | s in m.series && !(s.app == key && key in m.apps) :: m.series[s]);
  }

  /** Every sequence of calls has a trace. */
  lemma {:induction false} TraceHappens(evs: seq<Event>) returns (ms: seq<Metrics>)
    ensures IsTrace(ms, evs)
  {
    hide Step;
    if evs == [] {
      ms := [Metrics(map[], map[])];
    } else {
      var n := |evs| - 1;
      var before := TraceHappens(evs[..n]);
      var r;
      match evs[n] {
        case Record(input) => r := RecordHappens(before[n], input);
        case Terminal(key, b) => r := TerminalHappens(before[n], key, b);
        case Forget(key) => r := ForgetHappens(before[n], key);
      }
      ms := before + [r];
      forall k | 0 <= k < |evs|
        ensures Step(ms[k], evs[k], ms[k + 1])
      {
        if k < n {
          assert ms[k] == before[k] && ms[k + 1] == before[k + 1] && evs[k] == evs[..n][k];
        }
      }
    }
  }

  // ---- the frozen deadline ----

  /** The event neither ends the app's in-flight build nor forgets the app. */
  predicate KeepsFlying(ev: Event, key: Key) {
    match ev
    case Record(input) => input.key == key ==> InFlight(input.status)
    case Terminal(_, _) => true
    case Forget(k) => k != key
  }

  /** The first deadline other than 0 among an app's records. */
  function FirstDeadline(evs: seq<Event>, key: Key): int {
    if evs == [] then 0
    else
      var before, last := FirstDeadline(evs[..|evs| - 1], key), evs[|evs| - 1];
      if before == 0 && last.Record? && last.input.key == key then last.input.deadline else before
  }

  ghost predicate Shows(m: Metrics, key: Key, d: int) {
    key in m.apps && m.apps[key].frozenDeadline == d && Lookup(m.series, Deadline(key)) == Some(d)
  }

  lemma FlyingStep(m: Metrics, ev: Event, r: Metrics, key: Key, d: int)
    requires Step(m, ev, r) && KeepsFlying(ev, key) && Shows(m, key, d)
    ensures Shows(r, key, if d == 0 && ev.Record? && ev.input.key == key then ev.input.deadline else d)
  {
    hide Reason, Holds;
    var shown := Lookup(r.series, Deadline(key));
  }

  lemma FlightStarts(m: Metrics, input: Input, r: Metrics)
    requires Step(m, Record(input), r) && InFlight(input.status) && StateOf(m, input.key).frozenDeadline == 0
    ensures Shows(r, input.key, input.deadline)
  {
    assert Lookup(r.series, Deadline(input.key)) == Exported(m, input, Deadline(input.key));
  }

  /** The records of the app of `evs[i]` show a build in flight from `i`, where no deadline was
      frozen, to `j`. */
  ghost predicate Stretch(ms: seq<Metrics>, evs: seq<Event>, i: nat, j: nat) {
    && IsTrace(ms, evs) && i <= j < |evs|
    && evs[i].Record? && InFlight(evs[i].input.status)
    && StateOf(ms[i], evs[i].input.key).frozenDeadline == 0
    && forall k :: i < k <= j ==> KeepsFlying(evs[k], evs[i].input.key)
  }

  /** Over every stretch of in-flight records of an app, whatever happens to other apps, the
      exported deadline is the first one recorded (other than 0), even if the spec's changes. */
  lemma {:induction false} DeadlineIsFrozen(ms: seq<Metrics>, evs: seq<Event>, i: nat, j: nat)
    requires Stretch(ms, evs, i, j)
    ensures Shows(ms[j + 1], evs[i].input.key, FirstDeadline(evs[i..j + 1], evs[i].input.key))
  {
    hide Step, Shows, StateOf;
    var key := evs[i].input.key;
    assert evs[i..j + 1][..j - i] == evs[i..j];
    if j == i {
      FlightStarts(ms[j], evs[j].input, ms[j + 1]);
    } else {
      DeadlineIsFrozen(ms, evs, i, j - 1);
      FlyingStep(ms[j], evs[j], ms[j + 1], key, FirstDeadline(evs[i..j], key));
    }
  }

  predicate RecordOf(ev: Event, key: Key) { ev.Record? && ev.input.key == key }

  /** The deadline a Job was first recorded with (other than 0). */
  function JobDeadline(evs: seq<Event>, key: Key, job: string): int {
    if evs == [] then 0
    else
      var before, last := JobDeadline(evs[..|evs| - 1], key, job), evs[|evs| - 1];
      if before == 0 && RecordOf(last, key) && last.input.status.build.jobName == job
      then last.input.deadline else before
  }

  /** The Job of an app's latest record. */
  function RunningJob(evs: seq<Event>, key: Key): string {
    if evs == [] then ""
    else if RecordOf(evs[|evs| - 1], key) then evs[|evs| - 1].input.status.build.jobName
    else RunningJob(evs[..|evs| - 1], key)
  }

  /** The Job of the first record with a deadline other than 0, the latest while there is none. */
  function OpeningJob(evs: seq<Event>, key: Key): string {
    if evs == [] then ""
    else if FirstDeadline(evs[..|evs| - 1], key) == 0 && RecordOf(evs[|evs| - 1], key)
    then evs[|evs| - 1].input.status.build.jobName
    else OpeningJob(evs[..|evs| - 1], key)
  }

  lemma {:induction false} NoDeadlineYet(evs: seq<Event>, key: Key, job: string)
    requires FirstDeadline(evs, key) == 0
    ensures JobDeadline(evs, key, job) == 0
  {
    if evs == [] {
    } else {
      NoDeadlineYet(evs[..|evs| - 1], key, job);
    }
  }

  lemma {:induction false} OpeningDeadline(evs: seq<Event>, key: Key)
    ensures JobDeadline(evs, key, OpeningJob(evs, key)) == FirstDeadline(evs, key)
  {
    if evs == [] {
    } else {
      var before := evs[..|evs| - 1];
      OpeningDeadline(before, key);
      if FirstDeadline(before, key) == 0 {
        NoDeadlineYet(before, key, OpeningJob(evs, key));
      }
    }
  }

  lemma {:induction false} StretchOpens(evs: seq<Event>, key: Key)
    requires evs != [] && RecordOf(evs[0], key) && evs[0].input.deadline != 0
    ensures FirstDeadline(evs, key) == evs[0].input.deadline
    ensures OpeningJob(evs, key) == evs[0].input.status.build.jobName
  {
    if |evs| == 1 {
      assert evs[..0] == [];
    } else {
      StretchOpens(evs[..|evs| - 1], key);
    }
  }

  /** A Job keeps the deadline it was first recorded with, be that before the stretch or in it. */
  lemma {:induction false} JobDeadlineSplit(evs: seq<Event>, key: Key, job: string, i: nat)
    requires i <= |evs|
    ensures JobDeadline(evs, key, job) ==
            if JobDeadline(evs[..i], key, job) != 0 then JobDeadline(evs[..i], key, job)
            else JobDeadline(evs[i..], key, job)
  {
    if i == |evs| {
      assert evs[..i] == evs && evs[i..] == [];
    } else {
      var n := |evs| - 1;
      JobDeadlineSplit(evs[..n], key, job, i);
      assert evs[..n][..i] == evs[..i] && evs[i..][..n - i] == evs[..n][i..];
    }
  }

  /** The app is known and its latest record shows a build in flight. */
  predicate Flying(evs: seq<Event>, key: Key) {
    if evs == [] then false
    else
      match evs[|evs| - 1]
      case Record(input) => if input.key == key then InFlight(input.status) else Flying(evs[..|evs| - 1], key)
      case Terminal(_, _) => Flying(evs[..|evs| - 1], key)
      case Forget(k) => k != key && Flying(evs[..|evs| - 1], key)
  }

  lemma {:induction false} FrozenMeansFlying(ms: seq<Metrics>, evs: seq<Event>, k: nat, key: Key)
    requires IsTrace(ms, evs) && k <= |evs| && StateOf(ms[k], key).frozenDeadline != 0
    ensures Flying(evs[..k], key)
  {
    if k == 0 {
    } else {
      assert Step(ms[k - 1], evs[k - 1], ms[k]) && evs[..k][..k - 1] == evs[..k - 1];
      if StateOf(ms[k - 1], key).frozenDeadline != 0 {
        FrozenMeansFlying(ms, evs, k - 1, key);
      }
    }
  }

  /** Whenever an app's build is shown in flight, a stretch has led there. */
  lemma {:induction false} FlightHasStretch(ms: seq<Metrics>, evs: seq<Event>, j: nat, key: Key) returns (i: nat)
    requires IsTrace(ms, evs) && j < |evs| && Flying(evs[..j + 1], key)
    ensures Stretch(ms, evs, i, j) && evs[i].input.key == key
  {
    hide Step;
    assert evs[..j + 1][..j] == evs[..j];
    if RecordOf(evs[j], key) && StateOf(ms[j], key).frozenDeadline == 0 {
      i := j;
    } else {
      if RecordOf(evs[j], key) {
        FrozenMeansFlying(ms, evs, j, key);
      }
      i := FlightHasStretch(ms, evs, j - 1, key);
    }
  }

  /** The exported deadline is the running Job's own, the one it was first recorded with, exactly
      when the Job that opened the stretch has the same in it: not for a Job started over another
      one still recorded in flight under another deadline, nor for one that was recorded in
      flight before the stretch under another. */
  lemma DeadlineIsOwnIff(ms: seq<Metrics>, evs: seq<Event>, i: nat, j: nat)
    requires Stretch(ms, evs, i, j)
    ensures var key, stretch := evs[i].input.key, evs[i..j + 1];
            var job, opener := RunningJob(stretch, key), OpeningJob(stretch, key);
            var own, earlier := JobDeadline(evs[..j + 1], key, job), JobDeadline(evs[..i], key, job);
            && (Shows(ms[j + 1], key, own) <==> JobDeadline(stretch, key, opener) == own)
            && own == (if earlier != 0 then earlier else JobDeadline(stretch, key, job))
            && (evs[i].input.deadline != 0 ==> opener == evs[i].input.status.build.jobName)
  {
    var key, stretch := evs[i].input.key, evs[i..j + 1];
    DeadlineIsFrozen(ms, evs, i, j);
    OpeningDeadline(stretch, key);
    assert evs[..j + 1][..i] == evs[..i] && evs[..j + 1][i..] == stretch;
    JobDeadlineSplit(evs[..j + 1], key, RunningJob(stretch, key), i);
    if evs[i].input.deadline != 0 {
      StretchOpens(stretch, key);
    }
  }

  // ---- the build total ----

  function Value(series: map<Series, int>, s: Series): int { if s in series then series[s] else 0 }

  function Total(series: map<Series, int>, key: Key, result: BuildResult): int {
    Value(series, BuildsTotal(key, result, Scheduled)) + Value(series, BuildsTotal(key, result, Manual))
    + Value(series, BuildsTotal(key, result, Commit)) + Value(series, BuildsTotal(key, result, SpecChange))
  }

  function BuildTotal(series: map<Series, int>, key: Key): int {
    Total(series, key, ResultSucceeded) + Total(series, key, ResultFailed)
  }

  /** Job names observed at their end since the app was last forgotten. */
  function Observed(evs: seq<Event>, key: Key): seq<string> {
    if evs == [] then []
    else
      var before := Observed(evs[..|evs| - 1], key);
      match evs[|evs| - 1]
      case Forget(k) => if k == key then [] else before
      case Terminal(k, b) => if k == key && Finished(b) && b.jobName != "" then before + [b.jobName] else before
      case Record(_) => before
  }

  function LastName(names: seq<string>): string { if names == [] then "" else names[|names| - 1] }

  function Changes(names: seq<string>): nat {
    if names == [] then 0
    else Changes(names[..|names| - 1]) + if names[|names| - 1] != LastName(names[..|names| - 1]) then 1 else 0
  }

  lemma SameTotals(m: map<Series, int>, r: map<Series, int>, key: Key)
    requires forall s: Series :: s.BuildsTotal? && s.app == key ==> Value(r, s) == Value(m, s)
    ensures BuildTotal(r, key) == BuildTotal(m, key)
  {}

  lemma CountedOnce(m: map<Series, int>, r: map<Series, int>, key: Key, result: BuildResult, trigger: Trigger)
    requires (result == ResultSucceeded || result == ResultFailed) && trigger != NoTrigger
    requires forall s: Series :: s.BuildsTotal? && s.app == key ==>
                           Value(r, s) == Value(m, s) + if s == BuildsTotal(key, result, trigger) then 1 else 0
    ensures BuildTotal(r, key) == BuildTotal(m, key) + 1
  {}

  lemma TotalsStep(m: Metrics, ev: Event, r: Metrics, key: Key)
    requires Exact(m) && Step(m, ev, r)
    ensures match ev
            case Record(_) => BuildTotal(r.series, key) == BuildTotal(m.series, key)
            case Forget(k) => BuildTotal(r.series, key) == if k == key then 0 else BuildTotal(m.series, key)
            case Terminal(k, b) =>
              BuildTotal(r.series, key) == BuildTotal(m.series, key)
                                           + if k == key && Finished(b) && Counts(StateOf(m, key), b) then 1 else 0
  {
    hide Reason, Holds, BuildTotal;
    if ev.Terminal? && ev.key == key && Finished(ev.build) && Counts(StateOf(m, key), ev.build) {
      forall s: Series | s.BuildsTotal? && s.app == key
        ensures Value(r.series, s) == Value(m.series, s)
                + if s == BuildsTotal(key, ev.build.result, CountedTrigger(ev.build)) then 1 else 0
      {
        assert Lookup(r.series, s) == CountedValue(m, key, ev.build, s);
      }
      CountedOnce(m.series, r.series, key, ev.build.result, CountedTrigger(ev.build));
    } else if ev.Forget? && ev.key == key {
      NothingLeft(m, key, r);
    } else {
      forall s: Series | s.BuildsTotal? && s.app == key
        ensures Value(r.series, s) == Value(m.series, s)
      {
        var shown := Lookup(r.series, s);
      }
      SameTotals(m.series, r.series, key);
    }
  }

  lemma NothingLeft(m: Metrics, key: Key, r: Metrics)
    requires Exact(m) && Step(m, Forget(key), r)
    ensures BuildTotal(r.series, key) == 0
  {}

  /** Every build is counted once: the total equals the number of changes of Job name in the
      sequence of ends observed, so a Job observed again after a lost status write adds 0. */
  lemma {:induction false} BuildsAreCountedOnce(ms: seq<Metrics>, evs: seq<Event>, k: nat, key: Key)
    requires IsTrace(ms, evs) && k <= |evs|
    ensures BuildTotal(ms[k].series, key) == Changes(Observed(evs[..k], key))
    ensures StateOf(ms[k], key).lastCountedJob == LastName(Observed(evs[..k], key))
  {
    hide BuildTotal;
    if k == 0 {
      NoSeries(key);
    } else {
      var names := Observed(evs[..k - 1], key);
      assert evs[..k][..k - 1] == evs[..k - 1];
      BuildsAreCountedOnce(ms, evs, k - 1, key);
      TraceExact(ms, evs, k - 1);
      assert Step(ms[k - 1], evs[k - 1], ms[k]);
      TotalsStep(ms[k - 1], evs[k - 1], ms[k], key);
      if evs[k - 1].Terminal? {
        assert (names + [evs[k - 1].build.jobName])[..|names|] == names;
      }
    }
  }

  lemma NoSeries(key: Key)
    ensures BuildTotal(map[], key) == 0
  {}

  // ---- each counter ----

  /** The builds counted since the app was last forgotten: ends under another Job name than the one
      observed before. */
  function CountedBuilds(evs: seq<Event>, key: Key): seq<BuildStatus> {
    if evs == [] then []
    else
      var n := |evs| - 1;
      var before := CountedBuilds(evs[..n], key);
      match evs[n]
      case Forget(k) => if k == key then [] else before
      case Terminal(k, b) =>
        if k == key && Finished(b) && b.jobName != "" && b.jobName != LastName(Observed(evs[..n], key))
        then before + [b] else before
      case Record(_) => before
  }

  /** The counters a build belongs to: its result and trigger, none being the clock's, and the
      container that ran out of memory. */
  predicate BelongsTo(b: BuildStatus, s: Series) {
    match s
    case BuildsTotal(_, result, trigger) =>
      && b.result == result && trigger != NoTrigger
      && (b.trigger == trigger || (b.trigger == NoTrigger && trigger == Scheduled))
    case OomTotal(_, step) =>
      b.termination.Some? && b.termination.value.reason == "OOMKilled" && b.termination.value.container == step
    case _ => false
  }

  function Tally(builds: seq<BuildStatus>, s: Series): nat {
    if builds == [] then 0
    else Tally(builds[..|builds| - 1], s) + if BelongsTo(builds[|builds| - 1], s) then 1 else 0
  }

  lemma CounterStep(m: Metrics, ev: Event, r: Metrics, s: Series)
    requires Exact(m) && Step(m, ev, r) && (s.BuildsTotal? || s.OomTotal?)
    ensures Value(r.series, s) ==
            match ev
            case Record(_) => Value(m.series, s)
            case Forget(k) => if k == s.app then 0 else Value(m.series, s)
            case Terminal(k, b) =>
              Value(m.series, s)
              + if k == s.app && Finished(b) && Counts(StateOf(m, k), b) && BelongsTo(b, s) then 1 else 0
  {
    hide Reason, Holds, ShownPhase;
    var shown, before := Lookup(r.series, s), Lookup(m.series, s);
  }

  /** Every counter at every point of every trace: the number of counted builds that belong to it. */
  lemma {:induction false} CountersAreExact(ms: seq<Metrics>, evs: seq<Event>, k: nat, s: Series)
    requires IsTrace(ms, evs) && k <= |evs| && (s.BuildsTotal? || s.OomTotal?)
    ensures Value(ms[k].series, s) == Tally(CountedBuilds(evs[..k], s.app), s)
  {
    hide Step, Exact, BelongsTo, Observed;
    if k == 0 {
    } else {
      var before := CountedBuilds(evs[..k - 1], s.app);
      assert evs[..k][..k - 1] == evs[..k - 1];
      CountersAreExact(ms, evs, k - 1, s);
      TraceExact(ms, evs, k - 1);
      CounterStep(ms[k - 1], evs[k - 1], ms[k], s);
      BuildsAreCountedOnce(ms, evs, k - 1, s.app);
      if evs[k - 1].Terminal? {
        assert (before + [evs[k - 1].build])[..|before|] == before;
      }
    }
  }
}
