/** Storage thresholds (internal/domain/storage.go): validation of their order and the
    badge computed from measured sizes. A threshold of 0 is unset. */
module Storage {
  import opened Util

  datatype VolumeThresholds = VolumeThresholds(cleanupBytes: int, alertBytes: int, capBytes: int)
  datatype StorageConfig = StorageConfig(cache: VolumeThresholds, dataCache: VolumeThresholds, output: VolumeThresholds)

  /** Severities from best to worst; `Unmeasured` is the empty string of the source. */
  datatype ThresholdState = Unmeasured | OK | Alert | Critical

  function Rank(s: ThresholdState): nat {
    match s
    case Unmeasured => 0
    case OK => 1
    case Alert => 2
    case Critical => 3
  }

  // ---- validation ----

  function Ordered(v: VolumeThresholds): seq<int> {
    [v.cleanupBytes, v.alertBytes, v.capBytes]
  }

  /** Every pair of set thresholds is strictly increasing, whether or not adjacent. */
  ghost predicate StrictlyIncreasing(vals: seq<int>) {
    forall i, j :: 0 <= i < j < |vals| && vals[i] != 0 && vals[j] != 0 ==> vals[i] < vals[j]
  }

  /** In the volume's own terms: each threshold that is set lies below every later one that is. */
  lemma IncreasingMeans(v: VolumeThresholds)
    ensures StrictlyIncreasing(Ordered(v)) <==>
            && (v.cleanupBytes != 0 && v.alertBytes != 0 ==> v.cleanupBytes < v.alertBytes)
            && (v.alertBytes != 0 && v.capBytes != 0 ==> v.alertBytes < v.capBytes)
            && (v.cleanupBytes != 0 && v.capBytes != 0 ==> v.cleanupBytes < v.capBytes)
  {
    var vals := Ordered(v);
    assert vals[0] == v.cleanupBytes && vals[1] == v.alertBytes && vals[2] == v.capBytes;
  }

  /** The scan of `validateVolume`: each set threshold against the previous set one. The
      error value is the pair of positions it reports. */
  method ValidateVolume(v: VolumeThresholds) returns (err: Option<(nat, nat)>)
    ensures err.None? <==> StrictlyIncreasing(Ordered(v))
    ensures err.Some? ==>
              && err.value.0 < err.value.1 < 3
              && Ordered(v)[err.value.0] != 0 && Ordered(v)[err.value.1] != 0
              && Ordered(v)[err.value.0] >= Ordered(v)[err.value.1]
              && StrictlyIncreasing(Ordered(v)[..err.value.1])
  {
    var ordered := Ordered(v);
    var prev := -1;
    for i := 0 to |ordered|
      invariant -1 <= prev < i
      invariant prev >= 0 ==> ordered[prev] != 0
      invariant forall k :: prev < k < i ==> ordered[k] == 0
      invariant forall k :: 0 <= k < i && ordered[k] != 0 ==> prev >= 0 && ordered[k] <= ordered[prev]
      invariant StrictlyIncreasing(ordered[..i])
    {
      if ordered[i] != 0 {
        if prev >= 0 && ordered[prev] >= ordered[i] {
          return Some((prev, i));
        }
        prev := i;
      }
    }
    assert ordered[..|ordered|] == ordered;
    return None;
  }

  ghost predicate ValidConfig(cfg: StorageConfig) {
    && StrictlyIncreasing(Ordered(cfg.cache))
    && StrictlyIncreasing(Ordered(cfg.dataCache))
    && StrictlyIncreasing(Ordered(cfg.output))
  }

  function Volumes(cfg: StorageConfig): seq<VolumeThresholds> {
    [cfg.cache, cfg.dataCache, cfg.output]
  }

  method ValidateStorage(cfg: StorageConfig) returns (ok: bool)
    ensures ok <==> ValidConfig(cfg)
  {
    var volumes := Volumes(cfg);
    for i := 0 to |volumes|
      invariant forall k :: 0 <= k < i ==> StrictlyIncreasing(Ordered(volumes[k]))
    {
      var err := ValidateVolume(volumes[i]);
      if err.Some? {
        assert !StrictlyIncreasing(Ordered(volumes[i]));
        return false;
      }
    }
    assert volumes[0] == cfg.cache && volumes[1] == cfg.dataCache && volumes[2] == cfg.output;
    return true;
  }

  // ---- resolution of a size key ----

  function ToLower(s: string): string {
    seq(|s|, i requires 0 <= i < |s| => if 'A' <= s[i] <= 'Z' then s[i] - 'A' + 'a' else s[i])
  }

  predicate OccursAt(s: string, sub: string, i: nat) {
    i + |sub| <= |s| && s[i..i + |sub|] == sub
  }

  predicate Contains(s: string, sub: string) {
    exists i :: 0 <= i <= |s| && OccursAt(s, sub, i)
  }

  function ThresholdsForKey(key: string, cfg: StorageConfig): Option<VolumeThresholds> {
    var k := ToLower(key);
    if Contains(k, "total") then None
    else if Contains(k, "output") then Some(cfg.output)
    else if Contains(k, "data") then Some(cfg.dataCache)
    else if Contains(k, "cache") then Some(cfg.cache)
    else None
  }

  lemma AbsentLetter(s: string, sub: string, j: nat)
    requires j < |sub| && sub[j] !in s
    ensures !Contains(s, sub)
  {}

  /** The keys the operator writes resolve to their own volume: `dataCache` is not taken for
      `cache`, and `outputTotal` (all retained releases) has no threshold although it
      contains "output". */
  lemma OperatorKeysResolve(cfg: StorageConfig)
    ensures ThresholdsForKey("cache", cfg) == Some(cfg.cache)
    ensures ThresholdsForKey("dataCache", cfg) == Some(cfg.dataCache)
    ensures ThresholdsForKey("output", cfg) == Some(cfg.output)
    ensures ThresholdsForKey("outputTotal", cfg) == None
    ensures ThresholdsForKey("source", cfg) == None
  {
    KeyCache(cfg);
    KeyDataCache(cfg);
    KeyOutput(cfg);
    KeyOutputTotal(cfg);
    KeySource(cfg);
  }

  lemma Present(s: string, sub: string, i: nat)
    requires OccursAt(s, sub, i)
    ensures Contains(s, sub)
  {}

  lemma KeyCache(cfg: StorageConfig)
    ensures ThresholdsForKey("cache", cfg) == Some(cfg.cache)
  {
    assert ToLower("cache") == "cache";
    AbsentLetter("cache", "total", 4);
    AbsentLetter("cache", "output", 3);
    AbsentLetter("cache", "data", 0);
    Present("cache", "cache", 0);
  }

  lemma KeyDataCache(cfg: StorageConfig)
    ensures ThresholdsForKey("dataCache", cfg) == Some(cfg.dataCache)
  {
    assert ToLower("dataCache") == "datacache";
    AbsentLetter("datacache", "total", 4);
    AbsentLetter("datacache", "output", 3);
    Present("datacache", "data", 0);
  }

  lemma KeyOutput(cfg: StorageConfig)
    ensures ThresholdsForKey("output", cfg) == Some(cfg.output)
  {
    assert ToLower("output") == "output";
    AbsentLetter("output", "total", 4);
    Present("output", "output", 0);
  }

  lemma KeyOutputTotal(cfg: StorageConfig)
    ensures ThresholdsForKey("outputTotal", cfg) == None
  {
    assert ToLower("outputTotal") == "outputtotal";
    Present("outputtotal", "total", 6);
  }

  lemma KeySource(cfg: StorageConfig)
    ensures ThresholdsForKey("source", cfg) == None
  {
    assert ToLower("source") == "source";
    AbsentLetter("source", "total", 4);
    AbsentLetter("source", "output", 3);
    AbsentLetter("source", "data", 0);
    AbsentLetter("source", "cache", 1);
  }

  // ---- badge ----

  predicate OverCap(v: VolumeThresholds, size: int) { v.capBytes > 0 && size >= v.capBytes }
  predicate OverAlert(v: VolumeThresholds, size: int) { v.alertBytes > 0 && size >= v.alertBytes }

  /** Severity of one measured key alone. */
  function Severity(key: string, size: int, cfg: StorageConfig): ThresholdState {
    match ThresholdsForKey(key, cfg)
    case None => OK
    case Some(v) => if OverCap(v, size) then Critical else if OverAlert(v, size) then Alert else OK
  }

  ghost predicate SomeAt(sizes: map<string, int>, cfg: StorageConfig, s: ThresholdState) {
    exists k :: k in sizes && Severity(k, sizes[k], cfg) == s
  }

  /** The worst severity over all measured keys. */
  ghost function Worst(sizes: map<string, int>, cfg: StorageConfig): ThresholdState {
    if |sizes| == 0 then Unmeasured
    else if SomeAt(sizes, cfg, Critical) then Critical
    else if SomeAt(sizes, cfg, Alert) then Alert
    else OK
  }

  /** The loop of `EvaluateThresholdState`; `:|` picks keys in an arbitrary order, as a Go
      map range does, and the result does not depend on it. */
  method EvaluateThresholdState(sizes: map<string, int>, cfg: StorageConfig) returns (r: ThresholdState)
    ensures r == Worst(sizes, cfg)
  {
    if |sizes| == 0 {
      return Unmeasured;
    }
    var critical, alert := false, false;
    var todo := sizes.Keys;
    while todo != {}
      invariant todo <= sizes.Keys
      invariant critical <==> exists k :: k in sizes && k !in todo && Severity(k, sizes[k], cfg) == Critical
      invariant forall k :: k in sizes && k !in todo && Severity(k, sizes[k], cfg) == Alert ==> alert
      invariant alert && !critical ==> exists k :: k in sizes && k !in todo && Severity(k, sizes[k], cfg) == Alert
      decreases todo
    {
      var key :| key in todo;
      var size := sizes[key];
      ghost var before := todo;
      todo := todo - {key};
      var v := ThresholdsForKey(key, cfg);
      if v.Some? {
        if v.value.capBytes > 0 && size >= v.value.capBytes {
          critical := true;
        }
        if v.value.alertBytes > 0 && size >= v.value.alertBytes {
          alert := true;
        }
      }
      assert forall k :: k in sizes && k !in todo <==> k in sizes && (k !in before || k == key);
    }
    if critical { return Critical; }
    if alert { return Alert; }
    return OK;
  }

  /** `Worst` is the least upper bound of the per-key severities. */
  lemma WorstIsLeastUpperBound(sizes: map<string, int>, cfg: StorageConfig)
    ensures forall k :: k in sizes ==> Rank(Severity(k, sizes[k], cfg)) <= Rank(Worst(sizes, cfg))
    ensures Worst(sizes, cfg).Unmeasured? <==> sizes == map[]
    ensures sizes != map[] ==> exists k :: k in sizes && Severity(k, sizes[k], cfg) == Worst(sizes, cfg)
  {}

  /** Some measured key has a threshold that is set and reached. */
  ghost predicate Reaches(sizes: map<string, int>, cfg: StorageConfig, threshold: VolumeThresholds -> int) {
    exists k :: && k in sizes && ThresholdsForKey(k, cfg).Some?
                && 0 < threshold(ThresholdsForKey(k, cfg).value) <= sizes[k]
  }

  /** The badge in terms of the thresholds: critical exactly when a cap is reached, alert exactly when
      none is and an alert is, and otherwise OK as soon as anything is measured. */
  lemma WorstIff(sizes: map<string, int>, cfg: StorageConfig)
    ensures var capped := Reaches(sizes, cfg, (v: VolumeThresholds) => v.capBytes);
            var alerted := Reaches(sizes, cfg, (v: VolumeThresholds) => v.alertBytes);
            && (Worst(sizes, cfg) == Critical <==> capped)
            && (Worst(sizes, cfg) == Alert <==> !capped && alerted)
            && (Worst(sizes, cfg) == OK <==> !capped && !alerted && sizes != map[])
  {
    hide ThresholdsForKey;
    if SomeAt(sizes, cfg, Critical) {
      var k :| k in sizes && Severity(k, sizes[k], cfg) == Critical;
      assert 0 < ThresholdsForKey(k, cfg).value.capBytes <= sizes[k];
    }
    if SomeAt(sizes, cfg, Alert) {
      var k :| k in sizes && Severity(k, sizes[k], cfg) == Alert;
      assert 0 < ThresholdsForKey(k, cfg).value.alertBytes <= sizes[k];
    }
    forall k | k in sizes && ThresholdsForKey(k, cfg).Some?
      ensures 0 < ThresholdsForKey(k, cfg).value.capBytes <= sizes[k] ==> Severity(k, sizes[k], cfg) == Critical
      ensures 0 < ThresholdsForKey(k, cfg).value.alertBytes <= sizes[k] ==>
                Severity(k, sizes[k], cfg) == Critical || Severity(k, sizes[k], cfg) == Alert
    {}
  }

  /** Growing sizes, or measuring more keys, never improves the badge. */
  lemma WorstMonotone(small: map<string, int>, large: map<string, int>, cfg: StorageConfig)
    requires forall k :: k in small ==> k in large && small[k] <= large[k]
    ensures Rank(Worst(small, cfg)) <= Rank(Worst(large, cfg))
  {}
}
