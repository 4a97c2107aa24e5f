/** The sizes, deltas, release count and badge a persisted pass leaves, from the reports it read: the
    copier's, the measure Jobs' and the cleanup Jobs'. */
module Sizes {
  import opened Util
  import opened Status
  import opened Operator
  import opened Protocol
  import opened Invariant
  import opened Effects
  import Storage

  function Get(m: map<string, int>, k: string): Option<int> { if k in m then Some(m[k]) else None }

  function Or(a: Option<int>, b: Option<int>): Option<int> { if a.Some? then a else b }

  lemma OrNone(b: Option<int>)
    ensures Or(None, b) == b
  {}

  /** The growth shown for a key once a new size is read: the difference, unless there was no size
      before, there is no new one, or it is the same. */
  function Growth(was: Option<int>, read: Option<int>, shown: Option<int>): Option<int> {
    if was.Some? && read.Some? && was != read then Some(read.value - was.value) else shown
  }

  /** The read differs from the size there was. */
  predicate News(was: Option<int>, read: Option<int>) { read.Some? && read != was }

  // ---- one size ----

  lemma RecordSizeEffect(s: StorageStatus, key: string, bytes: int, now: int, k: string)
    ensures var r := RecordSize(s, key, bytes, now);
            && Get(r.sizes, k) == (if k == key then Some(bytes) else Get(s.sizes, k))
            && Get(r.deltas, k) == (if k == key then Growth(Get(s.sizes, k), Some(bytes), Get(s.deltas, k))
                                    else Get(s.deltas, k))
            && r.measuredAt == (if Get(s.sizes, key) == Some(bytes) then s.measuredAt else Some(now))
            && r.releaseCount == s.releaseCount
  {}

  // ---- the reports of a pass ----

  /** The sizes the copier of a success being recorded reported, and its count of releases. */
  function CopierSizes(c: Cluster, e: Env): map<string, int> {
    if RecordsSuccess(c, e) && CopierReport(RecordedJob(c, e)).Some?
    then CopierReport(RecordedJob(c, e)).value.sizes else map[]
  }

  function CopierCount(c: Cluster, e: Env): int {
    if RecordsSuccess(c, e) && CopierReport(RecordedJob(c, e)).Some?
    then CopierReport(RecordedJob(c, e)).value.releaseCount else 0
  }

  /** The bytes of a finished, readable measure Job. */
  function Measured(c: Cluster, v: Volume): Option<int> {
    if v in c.measures && c.measures[v].finish.JobComplete? && c.measures[v].bytes.Some?
    then Some(c.measures[v].bytes.value) else None
  }

  /** The result of a completed cleanup Job this pass reads. */
  function Pruned(c: Cluster, m: CleanupMode): Option<CleanupResult> {
    if Unread(c, m) && c.cleanups[m].finish.JobComplete? then c.cleanups[m].result else None
  }

  /** The size left by a cleanup: none where it skipped or found nothing to measure. */
  function PrunedSize(c: Cluster, m: CleanupMode): Option<int> {
    match Pruned(c, m)
    case None => None
    case Some(r) => if r.action == "skip" || r.before <= 0 then None else Some(r.after)
  }

  /** What the pass reads for a key from measure and cleanup Jobs. */
  function MeasuredFor(c: Cluster, k: string): Option<int> {
    if k == "cache" then Measured(c, CacheVolume)
    else if k == "dataCache" then Measured(c, DataCacheVolume)
    else None
  }

  function PrunedFor(c: Cluster, k: string): Option<int> {
    if k == "cache" then PrunedSize(c, CacheMode)
    else if k == "outputTotal" then PrunedSize(c, ReleasesMode)
    else None
  }

  /** A size once the copier's report is merged: it outranks the old one, and a leftover "source" goes. */
  function Merged(c: Cluster, e: Env, k: string): Option<int> {
    var sizes := CopierSizes(c, e);
    if sizes == map[] then Get(c.status.storage.sizes, k)
    else if k == "source" then None
    else Or(Get(sizes, k), Get(c.status.storage.sizes, k))
  }

  // ---- stage by stage ----

  lemma CopierEffect(st: AppStatus, spec: AppSpec, job: BuildJob, now: int, k: string)
    requires !job.finish.Unfinished?
    ensures var s, r := st.storage, RecordOutcome(st, spec, job, now).storage;
            var report := job.finish.JobComplete? && CopierReport(job).Some?;
            var sizes := if report then CopierReport(job).value.sizes else map[];
            var count := if report then CopierReport(job).value.releaseCount else 0;
            && Get(r.sizes, k) == (if sizes == map[] then Get(s.sizes, k)
                                   else if k == "source" then None
                                   else Or(Get(sizes, k), Get(s.sizes, k)))
            && r.deltas == s.deltas
            && r.measuredAt == (if sizes == map[] then s.measuredAt else Some(now))
            && r.releaseCount == if count > 0 then count else s.releaseCount
  {
    hide TerminalBuild, OutcomeConditions;
  }

  lemma ObservedSizes(c: Cluster, e: Env, k: string)
    requires Persists(c, e)
    ensures var s, r := c.status.storage, AfterObserve(c, e).status.storage;
            && Get(r.sizes, k) == Merged(c, e, k)
            && r.deltas == s.deltas
            && r.measuredAt == (if CopierSizes(c, e) == map[] then s.measuredAt else Some(e.now))
            && r.releaseCount == if CopierCount(c, e) > 0 then CopierCount(c, e) else s.releaseCount
  {
    hide RecordOutcome, ObserveBuild, CopierReport, StartBuild;
    DecidedBuild(c, e);
    ObservedBuild(c, e);
    if Recording(c, e) {
      CopierEffect(AfterBuild(c, e).status, c.spec, RecordedJob(c, e), e.now, k);
    }
  }

  lemma MeasuredSizes(st: AppStatus, c: Cluster, now: int, k: string)
    ensures var s, r := st.storage, ObserveMeasurements(st, c.measures, now).storage;
            && Get(r.sizes, k) == Or(MeasuredFor(c, k), Get(s.sizes, k))
            && Get(r.deltas, k) == Growth(Get(s.sizes, k), MeasuredFor(c, k), Get(s.deltas, k))
            && r.releaseCount == s.releaseCount
  {
    hide RecordSize;
    var one := HarvestMeasure(st, c.measures, CacheVolume, now);
    if Measured(c, CacheVolume).Some? {
      RecordSizeEffect(st.storage, "cache", c.measures[CacheVolume].bytes.value, now, k);
    }
    if Measured(c, DataCacheVolume).Some? {
      RecordSizeEffect(one.storage, "dataCache", c.measures[DataCacheVolume].bytes.value, now, k);
    }
    assert "cache" != "dataCache";
  }

  lemma MeasuredTime(st: AppStatus, c: Cluster, now: int)
    ensures var s, r := st.storage, ObserveMeasurements(st, c.measures, now).storage;
            r.measuredAt == if News(Get(s.sizes, "cache"), Measured(c, CacheVolume))
                               || News(Get(s.sizes, "dataCache"), Measured(c, DataCacheVolume))
                            then Some(now) else s.measuredAt
  {
    assert "cache" != "dataCache";
  }

  lemma PrunedOne(st: AppStatus, c: Cluster, m: CleanupMode, now: int, k: string)
    requires Action(st, m) == Action(c.status, m)
    ensures var s, r := st.storage, ObserveCleanup(st, c.cleanups, m, now).storage;
            var key := if m == CacheMode then "cache" else "outputTotal";
            var size := if k == key then PrunedSize(c, m) else None;
            && Get(r.sizes, k) == Or(size, Get(s.sizes, k))
            && Get(r.deltas, k) == Growth(Get(s.sizes, k), size, Get(s.deltas, k))
            && r.releaseCount == var p := Pruned(c, m);
                                 if m == ReleasesMode && p.Some? && p.value.action == "release-prune"
                                    && (p.value.kept > 0 || p.value.deleted > 0 || p.value.before == 0)
                                 then p.value.kept else s.releaseCount
  {
    hide RecordSize, CleanupOutcome;
    if ReadsResult(c.status, c.cleanups, m) && c.cleanups[m].result.Some? {
      RecordSizeEffect(st.storage, SizeKey(m), c.cleanups[m].result.value.after, now, k);
    }
  }

  lemma PrunedSizes(st: AppStatus, c: Cluster, now: int, k: string)
    requires forall m :: Action(st, m) == Action(c.status, m)
    ensures var s, r := st.storage, ObserveCleanups(st, c.cleanups, now).storage;
            && Get(r.sizes, k) == Or(PrunedFor(c, k), Get(s.sizes, k))
            && Get(r.deltas, k) == Growth(Get(s.sizes, k), PrunedFor(c, k), Get(s.deltas, k))
            && r.releaseCount == var p := Pruned(c, ReleasesMode);
                                 if p.Some? && p.value.action == "release-prune"
                                    && (p.value.kept > 0 || p.value.deleted > 0 || p.value.before == 0)
                                 then p.value.kept else s.releaseCount
  {
    hide ObserveCleanup, Pruned, PrunedSize;
    var one := ObserveCleanup(st, c.cleanups, CacheMode, now);
    assert Action(one, ReleasesMode) == Action(st, ReleasesMode) by { OtherActionKept(st, c, now); }
    PrunedOne(st, c, CacheMode, now, k);
    PrunedOne(one, c, ReleasesMode, now, k);
    assert "cache" != "outputTotal";
  }

  lemma OtherActionKept(st: AppStatus, c: Cluster, now: int)
    ensures Action(ObserveCleanup(st, c.cleanups, CacheMode, now), ReleasesMode) == Action(st, ReleasesMode)
  {}

  lemma PrunedOneTime(st: AppStatus, c: Cluster, m: CleanupMode, now: int)
    requires Action(st, m) == Action(c.status, m)
    ensures var s, r := st.storage, ObserveCleanup(st, c.cleanups, m, now).storage;
            r.measuredAt == if News(Get(s.sizes, if m == CacheMode then "cache" else "outputTotal"), PrunedSize(c, m))
                            then Some(now) else s.measuredAt
  {
    hide RecordSize, CleanupOutcome;
    if ReadsResult(c.status, c.cleanups, m) && c.cleanups[m].result.Some? {
      RecordSizeEffect(st.storage, SizeKey(m), c.cleanups[m].result.value.after, now, "");
    }
  }

  lemma PrunedTime(st: AppStatus, c: Cluster, now: int)
    requires forall m :: Action(st, m) == Action(c.status, m)
    ensures var s, r := st.storage, ObserveCleanups(st, c.cleanups, now).storage;
            r.measuredAt == if News(Get(s.sizes, "cache"), PrunedSize(c, CacheMode))
                               || News(Get(s.sizes, "outputTotal"), PrunedSize(c, ReleasesMode))
                            then Some(now) else s.measuredAt
  {
    hide ObserveCleanup, PrunedSize, News;
    var one := ObserveCleanup(st, c.cleanups, CacheMode, now);
    OtherActionKept(st, c, now);
    PrunedOneTime(st, c, CacheMode, now);
    PrunedOneTime(one, c, ReleasesMode, now);
    PrunedOne(st, c, CacheMode, now, "outputTotal");
    assert "cache" != "outputTotal";
    OrNone(Get(st.storage.sizes, "outputTotal"));
  }

  // ---- after the pass ----

  lemma StorageWritten(c: Cluster, e: Env)
    requires Persists(c, e)
    ensures var r, s := Reconcile(c, e).status.storage, AfterCleanupObserve(c, e).status.storage;
            r == s.(threshold := Storage.Worst(r.sizes, c.spec.storage))
  {
    hide AfterCleanupObserve, CleanupAct, Storage.Worst, ReadyConditions, PhaseOf;
    CleanupActFrame(AfterCleanupObserve(c, e), c, Busy(c), false, CacheMode, e.now);
    CleanupActFrame(AfterCacheAction(c, e), c, Busy(c), StartsCache(c, e), ReleasesMode, e.now);
  }

  /** Every size after a pass is the latest report of it: a cleanup's, else a measurement's, else the
      copier's, else the one from before; its growth follows, the badge is the worst of all, and the
      release count is the cleanup's, else the copier's, else the one from before. */
  lemma SizesAfterPass(c: Cluster, e: Env, k: string)
    requires Persists(c, e)
    ensures var s, r := c.status.storage, Reconcile(c, e).status.storage;
            var merged := Merged(c, e, k);
            var measured := Or(MeasuredFor(c, k), merged);
            && Get(r.sizes, k) == Or(PrunedFor(c, k), measured)
            && Get(r.deltas, k) == Growth(measured, PrunedFor(c, k),
                                          Growth(merged, MeasuredFor(c, k), Get(s.deltas, k)))
            && r.threshold == Storage.Worst(r.sizes, c.spec.storage)
            && r.releaseCount == var p := Pruned(c, ReleasesMode);
                                 if p.Some? && p.value.action == "release-prune"
                                    && (p.value.kept > 0 || p.value.deleted > 0 || p.value.before == 0)
                                 then p.value.kept
                                 else if CopierCount(c, e) > 0 then CopierCount(c, e)
                                 else s.releaseCount
  {
    hide Reconcile, AfterObserve, ObserveMeasurements, ObserveCleanups, Merged, Pruned, PrunedFor, MeasuredFor,
      CopierCount, Storage.Worst, Growth, Or, Action;
    var o := AfterObserve(c, e).status;
    forall m ensures Action(AfterMeasure(c, e).status, m) == Action(c.status, m) { ActionsUntouched(c, e, m); }
    ObservedSizes(c, e, k);
    MeasuredSizes(o, c, e.now, k);
    PrunedSizes(AfterMeasure(c, e).status, c, e.now, k);
    StorageWritten(c, e);
  }

  /** The time of the sizes moves exactly with a copier's report and with a read that differs. */
  lemma SizesTimed(c: Cluster, e: Env)
    requires Persists(c, e)
    ensures var cache, data, total := Merged(c, e, "cache"), Merged(c, e, "dataCache"), Merged(c, e, "outputTotal");
            Reconcile(c, e).status.storage.measuredAt ==
              if || CopierSizes(c, e) != map[]
                 || News(cache, Measured(c, CacheVolume)) || News(data, Measured(c, DataCacheVolume))
                 || News(Or(Measured(c, CacheVolume), cache), PrunedSize(c, CacheMode))
                 || News(total, PrunedSize(c, ReleasesMode))
              then Some(e.now) else c.status.storage.measuredAt
  {
    hide Reconcile, AfterObserve, ObserveMeasurements, ObserveCleanups, Merged, PrunedSize, Measured, CopierSizes, News,
      Storage.Worst, Action, Or, Growth;
    var o := AfterObserve(c, e).status;
    forall m ensures Action(AfterMeasure(c, e).status, m) == Action(c.status, m) { ActionsUntouched(c, e, m); }
    ObservedSizes(c, e, "cache");
    ObservedSizes(c, e, "dataCache");
    ObservedSizes(c, e, "outputTotal");
    MeasuredTime(o, c, e.now);
    MeasuredSizes(o, c, e.now, "cache");
    MeasuredSizes(o, c, e.now, "outputTotal");
    assert "cache" != "outputTotal" && "dataCache" != "outputTotal" && "cache" != "dataCache";
    OrNone(Merged(c, e, "outputTotal"));
    PrunedTime(AfterMeasure(c, e).status, c, e.now);
    StorageWritten(c, e);
  }
}
