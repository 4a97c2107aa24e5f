/** Build history, failed-build history and failure streak (internal/controller/buildsteps.go),
    measured against the log of all builds ever recorded. */
module History {
  import opened Util
  import opened Status
  import P = Pipeline

  // ---- operations ----

  /** Index of the first entry of a Job, else the length. */
  function JobIndex(h: seq<BuildStatus>, name: string): (i: nat)
    ensures i <= |h|
    ensures i < |h| ==> h[i].jobName == name
    ensures forall k :: 0 <= k < i ==> h[k].jobName != name
  {
    if h == [] || h[0].jobName == name then 0 else 1 + JobIndex(h[1..], name)
  }

  function Append(h: seq<BuildStatus>, rec: BuildStatus, max: int): seq<BuildStatus> {
    var i := JobIndex(h, rec.jobName);
    if i < |h| then h[i := rec]
    else
      var all := [rec] + h;
      if 0 <= max < |all| then all[..max] else all
  }

  method AppendBuildHistory(h: seq<BuildStatus>, rec: BuildStatus, max: int) returns (out: seq<BuildStatus>)
    ensures out == Append(h, rec, max)
  {
    for i := 0 to |h|
      invariant forall k :: 0 <= k < i ==> h[k].jobName != rec.jobName
    {
      if h[i].jobName == rec.jobName {
        return h[i := rec];
      }
    }
    out := [rec] + h;
    if max >= 0 && |out| > max {
      out := out[..max];
    }
  }

  function FirstNamed(steps: seq<P.BuildStep>, want: P.Step): seq<P.BuildStep> {
    if steps == [] then []
    else if steps[0].name == want then [steps[0]]
    else FirstNamed(steps[1..], want)
  }

  /** A copy of the record that keeps only its failed step. */
  function Trim(rec: BuildStatus): BuildStatus {
    var want := if rec.failedStep.Some? then rec.failedStep else P.FailedStep(rec.steps);
    rec.(steps := if want.None? then [] else FirstNamed(rec.steps, want.value))
  }

  method TrimToFailedStep(rec: BuildStatus) returns (out: BuildStatus)
    ensures out == Trim(rec)
    ensures |out.steps| <= 1 && (forall s :: s in out.steps ==> s in rec.steps)
  {
    var want := rec.failedStep;
    if want.None? {
      want := P.FindFailedStep(rec.steps);
    }
    var kept := [];
    for i := 0 to |rec.steps|
      invariant kept == []
      invariant want.Some? ==> FirstNamed(rec.steps, want.value) == FirstNamed(rec.steps[i..], want.value)
    {
      assert rec.steps[i..][1..] == rec.steps[i + 1..];
      if want.Some? && rec.steps[i].name == want.value {
        kept := kept + [rec.steps[i]];
        break;
      }
    }
    out := rec.(steps := kept);
  }

  function AppendFailed(h: seq<BuildStatus>, rec: BuildStatus, max: int): seq<BuildStatus> {
    if rec.result != ResultFailed then h else Append(h, Trim(rec), max)
  }

  predicate CountsAsScheduledFailure(rec: BuildStatus) {
    rec.result == ResultFailed && (rec.trigger == Scheduled || rec.trigger == NoTrigger)
  }

  function UpdateStreak(current: nat, rec: BuildStatus): nat {
    if rec.result == ResultSucceeded then 0
    else if CountsAsScheduledFailure(rec) then current + 1
    else current
  }

  // ---- what each of them does ----

  ghost predicate NotIn(name: string, log: seq<BuildStatus>) {
    forall i :: 0 <= i < |log| ==> log[i].jobName != name
  }

  /** Entries left after one more record under a cap; a negative cap is none. */
  function Capped(n: nat, max: int): nat { if 0 <= max <= n then max else n + 1 }

  /** A new record goes in front and the oldest beyond the cap go; a record of a Job that has an
      entry takes its place. */
  lemma AppendEffect(h: seq<BuildStatus>, rec: BuildStatus, max: int)
    ensures NotIn(rec.jobName, h) ==> Append(h, rec, max) == ([rec] + h)[..Capped(|h|, max)]
    ensures forall i :: 0 <= i < |h| && h[i].jobName == rec.jobName && NotIn(rec.jobName, h[..i]) ==>
              Append(h, rec, max) == h[i := rec]
  {
    forall i | 0 <= i < |h| && h[i].jobName == rec.jobName && NotIn(rec.jobName, h[..i])
      ensures JobIndex(h, rec.jobName) == i
    {
      assert forall k :: 0 <= k < i ==> h[k] == h[..i][k];
    }
  }

  lemma {:induction false} FirstNamedAt(steps: seq<P.BuildStep>, want: P.Step, i: nat)
    requires i < |steps| && steps[i].name == want && forall k :: 0 <= k < i ==> steps[k].name != want
    ensures FirstNamed(steps, want) == [steps[i]]
  {
    if i == 0 {
    } else {
      FirstNamedAt(steps[1..], want, i - 1);
    }
  }

  /** The copy differs in its timeline only, of which it keeps the first step of the failed one's
      name, or, where the record names none, of the first that ended badly. */
  lemma TrimEffect(rec: BuildStatus, i: nat)
    requires i < |rec.steps| && forall k :: 0 <= k < i ==> rec.steps[k].name != rec.steps[i].name
    requires || rec.failedStep == Some(rec.steps[i].name)
             || (rec.failedStep == None && P.FailedStep(rec.steps) == Some(rec.steps[i].name))
    ensures Trim(rec) == rec.(steps := [rec.steps[i]])
  {
    FirstNamedAt(rec.steps, rec.steps[i].name, i);
  }

  // ---- what they mean for a log of recorded builds, oldest first ----

  function Last(log: seq<BuildStatus>): BuildStatus
    requires log != []
  {
    log[|log| - 1]
  }

  function Init(log: seq<BuildStatus>): seq<BuildStatus>
    requires log != []
  {
    log[..|log| - 1]
  }

  function NewestFirst(log: seq<BuildStatus>): seq<BuildStatus> {
    if log == [] then [] else [Last(log)] + NewestFirst(Init(log))
  }

  function FailedNewestFirst(log: seq<BuildStatus>): seq<BuildStatus> {
    if log == [] then []
    else (if Last(log).result == ResultFailed then [Trim(Last(log))] else []) + FailedNewestFirst(Init(log))
  }

  /** Position just after the last success. */
  function AfterLastSuccess(log: seq<BuildStatus>): (i: nat)
    ensures i <= |log|
  {
    if log == [] then 0
    else if Last(log).result == ResultSucceeded then |log|
    else AfterLastSuccess(Init(log))
  }

  function Count(log: seq<BuildStatus>): nat {
    if log == [] then 0 else Count(log[1..]) + if CountsAsScheduledFailure(log[0]) then 1 else 0
  }

  function Streak(log: seq<BuildStatus>): nat { Count(log[AfterLastSuccess(log)..]) }

  ghost predicate DistinctJobs(log: seq<BuildStatus>) {
    forall i, j :: 0 <= i < j < |log| ==> log[i].jobName != log[j].jobName
  }

  lemma {:induction false} NewestFirstNames(log: seq<BuildStatus>)
    ensures |NewestFirst(log)| == |log|
    ensures forall i :: 0 <= i < |log| ==> NewestFirst(log)[i] == log[|log| - 1 - i]
  {
    if log == [] {
    } else {
      NewestFirstNames(Init(log));
    }
  }

  lemma {:induction false} FailedNames(log: seq<BuildStatus>, name: string)
    requires NotIn(name, log)
    ensures NotIn(name, FailedNewestFirst(log))
  {
    if log == [] {
    } else {
      FailedNames(Init(log), name);
    }
  }

  lemma AppendIsPush(h: seq<BuildStatus>, full: seq<BuildStatus>, rec: BuildStatus, max: int)
    requires h <= full && NotIn(rec.jobName, full)
    ensures Append(h, rec, max) <= [rec] + full
  {}

  lemma NewestFirstPush(log: seq<BuildStatus>, rec: BuildStatus)
    ensures NewestFirst(log + [rec]) == [rec] + NewestFirst(log)
    ensures FailedNewestFirst(log + [rec])
            == (if rec.result == ResultFailed then [Trim(rec)] else []) + FailedNewestFirst(log)
  {}

  /** Recording one more build keeps both histories prefixes of the reversed log, whatever the
      caps are at that moment. */
  lemma HistoriesArePrefixes(log: seq<BuildStatus>, h: seq<BuildStatus>, failed: seq<BuildStatus>,
                             rec: BuildStatus, keepRecent: int, keepFailed: int)
    requires h <= NewestFirst(log) && failed <= FailedNewestFirst(log)
    requires NotIn(rec.jobName, log)
    ensures Append(h, rec, keepRecent) <= NewestFirst(log + [rec])
    ensures AppendFailed(failed, rec, keepFailed) <= FailedNewestFirst(log + [rec])
  {
    NewestFirstPush(log, rec);
    NewestFirstNames(log);
    FailedNames(log, rec.jobName);
    AppendIsPush(h, NewestFirst(log), rec, keepRecent);
    AppendIsPush(failed, FailedNewestFirst(log), Trim(rec), keepFailed);
  }

  lemma HistoryJobsDistinct(log: seq<BuildStatus>, h: seq<BuildStatus>)
    requires DistinctJobs(log) && h <= NewestFirst(log)
    ensures DistinctJobs(h)
  {
    NewestFirstNames(log);
  }

  lemma {:induction false} CountPush(log: seq<BuildStatus>, rec: BuildStatus)
    ensures Count(log + [rec]) == Count(log) + if CountsAsScheduledFailure(rec) then 1 else 0
  {
    if log == [] {
      assert ([rec])[1..] == [] && [] + [rec] == [rec];
    } else {
      assert (log + [rec])[1..] == log[1..] + [rec];
      CountPush(log[1..], rec);
    }
  }

  /** The running counter is the number of counted failures after the last success. */
  lemma StreakStep(log: seq<BuildStatus>, rec: BuildStatus)
    ensures Streak(log + [rec]) == UpdateStreak(Streak(log), rec)
  {
    var all := log + [rec];
    assert Init(all) == log && Last(all) == rec;
    var i := AfterLastSuccess(log);
    if rec.result == ResultSucceeded {
      assert all[|all|..] == [];
    } else {
      assert all[i..] == log[i..] + [rec];
      CountPush(log[i..], rec);
    }
  }

  lemma {:induction false} FirstNamedIsOne(steps: seq<P.BuildStep>, want: P.Step)
    ensures |FirstNamed(steps, want)| <= 1
    ensures FirstNamed(steps, want) != [] ==>
        FirstNamed(steps, want)[0] in steps && FirstNamed(steps, want)[0].name == want
    ensures (exists s :: s in steps && s.name == want) ==> FirstNamed(steps, want) != []
  {
    if steps == [] || steps[0].name == want {
    } else {
      FirstNamedIsOne(steps[1..], want);
      forall s | s in steps && s.name == want
        ensures s in steps[1..]
      {}
    }
  }

  /** Every entry of the failed history is the trimmed copy of a failure in the log. */
  lemma {:induction false} FailedEntryIsTrim(log: seq<BuildStatus>, i: nat) returns (k: nat)
    requires i < |FailedNewestFirst(log)|
    ensures k < |log| && log[k].result == ResultFailed && FailedNewestFirst(log)[i] == Trim(log[k])
  {
    var pushed := if Last(log).result == ResultFailed then 1 else 0;
    if i < pushed {
      k := |log| - 1;
    } else {
      k := FailedEntryIsTrim(Init(log), i - pushed);
    }
  }

  lemma {:induction false} FailedEntriesTrimmed(log: seq<BuildStatus>, i: nat)
    requires i < |FailedNewestFirst(log)|
    ensures var e := FailedNewestFirst(log)[i]; |e.steps| <= 1 && e.result == ResultFailed
  {
    var pushed := if Last(log).result == ResultFailed then 1 else 0;
    if i < pushed {
      var rec := Last(log);
      var want := if rec.failedStep.Some? then rec.failedStep else P.FailedStep(rec.steps);
      if want.Some? {
        FirstNamedIsOne(rec.steps, want.value);
      }
    } else {
      FailedEntriesTrimmed(Init(log), i - pushed);
      assert FailedNewestFirst(log)[i] == FailedNewestFirst(Init(log))[i - pushed];
    }
  }
}
