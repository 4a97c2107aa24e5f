/** The commit-watch poll interval as a cron schedule (internal/domain/watchschedule.go).
    Durations and instants are nanoseconds; cron minutes are counted from a midnight. */
module WatchCron {
  import opened Util

  const MINUTE := 60_000_000_000
  const HOUR := 60 * MINUTE

  /** One field of a cron expression: `*`, a number, or `*` followed by `/n`. */
  datatype Field = Star | At(n: nat) | Step(n: nat)

  /** The minute and hour fields; the other three are always `*`. */
  datatype Cron = Cron(minute: Field, hour: Field)

  datatype Error = Unparseable | BelowMinute | NotWholeMinutes | NotWholeHours | AboveDay
  datatype Result = Ok(cron: Cron) | Err(error: Error)

  function WatchCron(interval: Option<int>): Result {
    if interval.None? then Err(Unparseable)
    else
      var d := interval.value;
      if d < MINUTE then Err(BelowMinute)
      else if d % MINUTE != 0 then Err(NotWholeMinutes)
      else if d / MINUTE <= 59 then Ok(Cron(Step(d / MINUTE), Star))
      else if d % HOUR != 0 then Err(NotWholeHours)
      else if d / HOUR > 23 then Err(AboveDay)
      else Ok(Cron(At(0), Step(d / HOUR)))
  }

  ghost predicate WholeMinutes(d: int, k: int) { 1 <= k <= 59 && d == k * MINUTE }
  ghost predicate WholeHours(d: int, k: int) { 1 <= k <= 23 && d == k * HOUR }

  /** Accepted are exactly the whole minutes 1..59 and the whole hours 1..23. */
  lemma AcceptsExactly(d: int)
    ensures WatchCron(Some(d)).Ok? <==> (exists k :: WholeMinutes(d, k)) || (exists k :: WholeHours(d, k))
  {
    if WatchCron(Some(d)).Ok? {
      if d / MINUTE <= 59 {
        assert WholeMinutes(d, d / MINUTE);
      } else {
        assert WholeHours(d, d / HOUR);
      }
    }
  }

  /** Why an interval is rejected: too short, not whole minutes, above an hour but not whole hours, or
      more hours than the cron field can count. */
  lemma RejectsFor(d: int)
    ensures var r := WatchCron(Some(d));
            && (r == Err(BelowMinute) <==> d < MINUTE)
            && (r == Err(NotWholeMinutes) <==> d >= MINUTE && d % MINUTE != 0)
            && (r == Err(NotWholeHours) <==> d >= HOUR && d % MINUTE == 0 && d % HOUR != 0)
            && (r == Err(AboveDay) <==> d >= 24 * HOUR && d % HOUR == 0)
            && r != Err(Unparseable) && WatchCron(None) == Err(Unparseable)
  {
    if d % HOUR == 0 {
      assert d == HOUR * (d / HOUR) == MINUTE * (60 * (d / HOUR));
      assert d % MINUTE == 0;
    }
  }

  // ---- when a cron fires ----

  predicate Matches(f: Field, v: nat) {
    match f
    case Star => true
    case At(n) => v == n
    case Step(n) => n > 0 && v % n == 0
  }

  /** Cron fires at the start of minute `t`. */
  predicate Fires(c: Cron, t: int) {
    Matches(c.minute, t % 60) && Matches(c.hour, (t / 60) % 24)
  }

  predicate FiresIn(c: Cron, t: int, from: int, d: int) {
    from <= t * MINUTE < from + d && Fires(c, t)
  }

  // ---- the lumpy grid behind both forms: multiples of `k`, restarted every `base` ----

  predicate OnGrid(base: nat, k: nat, j: int)
    requires 0 < base && 0 < k
  {
    (j % base) % k == 0
  }

  lemma MultiplesAreApart(n: int, k: int)
    requires 0 < k && n != 0
    ensures n * k <= -k || k <= n * k
  {}

  lemma DivModUnique(x: int, q: int, r: nat, k: nat)
    requires r < k && x == q * k + r
    ensures x / k == q && x % k == r
  {
    var n := x / k - q;
    assert n * k == (x / k) * k - q * k;
    if n != 0 {
      MultiplesAreApart(n, k);
      assert false;
    }
  }

  lemma CeilMultiple(r: nat, k: nat) returns (q: nat)
    requires 0 < k
    ensures r <= q < r + k && q % k == 0
  {
    if r % k == 0 {
      q := r;
    } else {
      q := r - r % k + k;
      assert q == (r / k) * k + k == (r / k + 1) * k + 0;
      DivModUnique(q, r / k + 1, 0, k);
    }
  }

  /** Any `k` consecutive integers contain a grid point, even across a restart. */
  lemma GridHit(base: nat, k: nat, j0: int) returns (j: int)
    requires 0 < k < base
    ensures j0 <= j < j0 + k && OnGrid(base, k, j)
  {
    var r := j0 % base;
    var q := CeilMultiple(r, k);
    if q < base {
      j := j0 + (q - r);
      assert j % base == q by { AddMod(j0, base, q - r); }
    } else {
      j := j0 + (base - r);
      assert j % base == 0 by {
        assert j == (j0 / base) * base + base == (j0 / base + 1) * base + 0;
        DivModUnique(j, j0 / base + 1, 0, base);
      }
    }
  }

  lemma AddMod(j: int, base: nat, a: nat)
    requires 0 < base && j % base + a < base
    ensures (j + a) % base == j % base + a
  {
    assert j + a == (j / base) * base + (j % base + a);
    DivModUnique(j + a, j / base, j % base + a, base);
  }

  lemma DividesThrough(base: nat, k: nat, j: int)
    requires 0 < k < base && base % k == 0
    ensures OnGrid(base, k, j) <==> j % k == 0
  {
    var c := base / k;
    assert base == c * k;
    assert j == (j / base) * c * k + j % base by {
      assert (j / base) * (c * k) == (j / base) * c * k;
    }
    ShiftMod(j % base, (j / base) * c, k);
  }

  lemma ShiftMod(r: nat, n: int, k: nat)
    requires 0 < k
    ensures (n * k + r) % k == r % k
  {
    var q := r / k;
    assert n * k + r == n * k + q * k + r % k == (n + q) * k + r % k;
    DivModUnique(n * k + r, n + q, r % k, k);
  }

  lemma SameResidueClose(i: int, j: int, k: nat)
    requires 0 < k && i % k == j % k == 0 && i <= j < i + k
    ensures i == j
  {
    var n := j / k - i / k;
    assert n * k == (j / k) * k - (i / k) * k == j - i;
    if n != 0 {
      MultiplesAreApart(n, k);
      assert false;
    }
  }

  /** At most one grid point in every window of `k` exactly when `k` divides the base. */
  lemma GridUnique(base: nat, k: nat, i: int, j: int)
    requires 0 < k < base && base % k == 0
    requires OnGrid(base, k, i) && OnGrid(base, k, j) && i <= j < i + k
    ensures i == j
  {
    DividesThrough(base, k, i);
    DividesThrough(base, k, j);
    SameResidueClose(i, j, k);
  }

  lemma GridDouble(base: nat, k: nat)
    requires 0 < k < base && base % k != 0
    ensures OnGrid(base, k, base - base % k) && OnGrid(base, k, base)
    ensures base - base % k < base < base - base % k + k
  {
    var i := base - base % k;
    assert i == (base / k) * k;
    assert 0 <= i < base && i % base == i;
    ShiftMod(0, base / k, k);
    assert base % base == 0;
  }

  // ---- the schedule ----

  /** First minute not before the instant `x`. */
  function CeilMinute(x: int): (t: int)
    ensures x <= t * MINUTE < x + MINUTE
  {
    if x % MINUTE == 0 then x / MINUTE else x / MINUTE + 1
  }

  lemma HourIndex(t: int)
    ensures (60 * t) / 60 == t && (60 * t) % 60 == 0
  {}

  /** Every window of one interval contains a firing, wherever it starts. */
  lemma EveryWindowFires(d: int, from: int) returns (t: int)
    requires WatchCron(Some(d)).Ok?
    ensures FiresIn(WatchCron(Some(d)).cron, t, from, d)
  {
    var t0 := CeilMinute(from);
    if d / MINUTE <= 59 {
      t := GridHit(60, d / MINUTE, t0);
    } else {
      var h0 := if t0 % 60 == 0 then t0 / 60 else t0 / 60 + 1;
      var h := GridHit(24, d / HOUR, h0);
      t := 60 * h;
      HourIndex(h);
    }
  }

  predicate Even(d: int)
    requires WatchCron(Some(d)).Ok?
  {
    if d / MINUTE <= 59 then 60 % (d / MINUTE) == 0 else 24 % (d / HOUR) == 0
  }

  /** The firing in each window is the only one exactly when the interval divides the hour
      (minute form) or the day (hour form). */
  lemma WindowsFireOnceIff(d: int)
    requires WatchCron(Some(d)).Ok?
    ensures (forall from, t, u ::
               FiresIn(WatchCron(Some(d)).cron, t, from, d) && FiresIn(WatchCron(Some(d)).cron, u, from, d) ==> t == u)
            <==> Even(d)
  {
    var c := WatchCron(Some(d)).cron;
    if Even(d) {
      forall from, t, u | FiresIn(c, t, from, d) && FiresIn(c, u, from, d)
        ensures t == u
      {
        var lo, hi := if t <= u then t else u, if t <= u then u else t;
        if d / MINUTE <= 59 {
          GridUnique(60, d / MINUTE, lo, hi);
        } else {
          assert lo == 60 * (lo / 60) && hi == 60 * (hi / 60);
          GridUnique(24, d / HOUR, lo / 60, hi / 60);
        }
      }
    } else if d / MINUTE <= 59 {
      var k := d / MINUTE;
      GridDouble(60, k);
      var i := 60 - 60 % k;
      assert FiresIn(c, i, i * MINUTE, d) && FiresIn(c, 60, i * MINUTE, d);
    } else {
      var k := d / HOUR;
      GridDouble(24, k);
      var i := 24 - 24 % k;
      HourIndex(i);
      HourIndex(24);
      assert FiresIn(c, 60 * i, 60 * i * MINUTE, d) && FiresIn(c, 60 * 24, 60 * i * MINUTE, d);
    }
  }
}
