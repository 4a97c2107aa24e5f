/** The build pod's containers (internal/controller/buildpod.go), the step timeline projected
    from a running pod (internal/controller/buildsteps.go) and the console's choice of the
    container to show (console/internal/server/server.go). */
module Pipeline {
  import opened Util
  import PeakMemory

  /** Container names, plus the synthetic `Release` step that has no container. */
  datatype Step = ShimInstall | Clone | Setup | Fetch | Build | Copier | Release

  function StepName(s: Step): string {
    match s
    case ShimInstall => "shim-install"
    case Clone => "clone"
    case Setup => "setup"
    case Fetch => "fetch"
    case Build => "build"
    case Copier => "copier"
    case Release => "release"
  }

  datatype PhaseSpec = PhaseSpec(image: string, command: seq<string>)
  datatype PipelineSpec = PipelineSpec(skipSetup: bool, setup: PhaseSpec, fetch: PhaseSpec, nodeVersion: int)

  predicate PhaseConfigured(p: PhaseSpec) { p.image != "" || |p.command| > 0 }

  predicate SetupRuns(p: PipelineSpec) {
    !p.skipSetup && (PhaseConfigured(p.setup) || p.nodeVersion != 0)
  }

  /** The setup phase the pod runs; an omitted one gets the operator's default command. */
  function EffectiveSetup(p: PipelineSpec, defaultCommand: seq<string>): Option<PhaseSpec> {
    if !SetupRuns(p) then None
    else if PhaseConfigured(p.setup) then Some(p.setup)
    else Some(p.setup.(command := defaultCommand))
  }

  /** Container order of `BuildJob`: the init containers, then the main container. */
  function Containers(p: PipelineSpec, defaultCommand: seq<string>): seq<Step> {
    [ShimInstall, Clone]
    + (if EffectiveSetup(p, defaultCommand).Some? then [Setup] else [])
    + [Fetch, Build]
    + [Copier]
  }

  function ApplicableSteps(p: PipelineSpec): seq<Step> {
    [Clone]
    + (if SetupRuns(p) then [Setup] else [])
    + (if PhaseConfigured(p.fetch) then [Fetch] else [])
    + [Build, Copier, Release]
  }

  /** Setup runs exactly if it is not skipped and is configured or a managed toolchain is asked for; it
      runs its own command, or the default where none is configured, on its own image. */
  lemma SetupIs(p: PipelineSpec, dflt: seq<string>)
    ensures var s, own := EffectiveSetup(p, dflt), p.setup.image != "" || p.setup.command != [];
            && (s.Some? <==> !p.skipSetup && (own || p.nodeVersion != 0))
            && (s.Some? ==> s.value == PhaseSpec(p.setup.image, if own then p.setup.command else dflt))
            && (Setup in ApplicableSteps(p) <==> s.Some?) && (Setup in Containers(p, dflt) <==> s.Some?)
            && (Fetch in ApplicableSteps(p) <==> p.fetch.image != "" || p.fetch.command != [])
  {}

  // ---- pod status and timeline ----

  /** Times the kubelet left at zero are absent. */
  datatype ContainerState =
    | Waiting
    | Started(startedAt: Option<int>)
    | Terminated(exitCode: int, reason: string, message: string, startedAt: Option<int>, finishedAt: Option<int>)

  datatype ContainerStatus = ContainerStatus(name: Step, state: ContainerState)

  /** The copier's termination message, decoded. */
  datatype CopierMessage = CopierMessage(release: string, sizes: map<string, int>, releaseCount: int)

  /** `limits` holds the memory limit of every container of the pod spec that has one. */
  datatype Pod = Pod(
    name: string,
    inits: seq<ContainerStatus>,
    mains: seq<ContainerStatus>,
    copier: Option<CopierMessage>,
    limits: map<Step, string>)

  datatype StepStatus = Pending | Running | Succeeded | Failed | Aborted
  datatype BuildStep = BuildStep(
    name: Step,
    status: StepStatus,
    message: string,
    peakMemory: int,
    startedAt: Option<int>,
    finishedAt: Option<int>,
    memoryLimit: string)

  function PlainStep(name: Step, status: StepStatus): BuildStep { BuildStep(name, status, "", 0, None, None, "") }

  function FindStatus(statuses: seq<ContainerStatus>, name: Step): Option<ContainerStatus> {
    if statuses == [] then None
    else if statuses[0].name == name then Some(statuses[0])
    else FindStatus(statuses[1..], name)
  }

  lemma {:induction false} FindStatusIs(statuses: seq<ContainerStatus>, name: Step, i: nat)
    requires i <= |statuses| && (i < |statuses| ==> statuses[i].name == name)
    requires forall k :: 0 <= k < i ==> statuses[k].name != name
    ensures FindStatus(statuses, name) == if i < |statuses| then Some(statuses[i]) else None
  {
    if i == 0 {
    } else {
      FindStatusIs(statuses[1..], name, i - 1);
    }
  }

  method FindContainerStatus(statuses: seq<ContainerStatus>, name: Step) returns (r: Option<ContainerStatus>)
    ensures r == FindStatus(statuses, name)
  {
    for i := 0 to |statuses|
      invariant FindStatus(statuses, name) == FindStatus(statuses[i..], name)
    {
      assert statuses[i..][1..] == statuses[i + 1..];
      if statuses[i].name == name {
        return Some(statuses[i]);
      }
    }
    return None;
  }

  function Lookup(pod: Pod, name: Step): Option<ContainerStatus> {
    FindStatus(if name == Copier then pod.mains else pod.inits, name)
  }

  /** What the pod shows of a container; an absent status reads as not started. */
  function Seen(pod: Pod, name: Step): ContainerState {
    match Lookup(pod, name)
    case None => Waiting
    case Some(cs) => cs.state
  }

  function StatusOfState(s: ContainerState): StepStatus {
    match s
    case Waiting => Pending
    case Started(_) => Running
    case Terminated(code, _, _, _, _) => if code == 0 then Succeeded else Failed
  }

  function MemoryLimit(pod: Pod, name: Step): string { if name in pod.limits then pod.limits[name] else "" }

  function DeriveStep(name: Step, pod: Option<Pod>, releaseDone: bool): BuildStep {
    var plain := PlainStep(name, Pending);
    if name == Release then
      if releaseDone then plain.(status := Succeeded) else plain
    else if pod.None? then plain
    else
      var s := Seen(pod.value, name);
      plain.(status := StatusOfState(s),
             peakMemory := if name != Copier && s.Terminated? then PeakMemory.ParsePeak(s.message) else 0,
             startedAt := if s.Waiting? then None else s.startedAt,
             finishedAt := if s.Terminated? then s.finishedAt else None,
             memoryLimit := if s.Waiting? then "" else MemoryLimit(pod.value, name))
  }

  function DeriveSteps(applicable: seq<Step>, pod: Option<Pod>, releaseDone: bool): seq<BuildStep> {
    seq(|applicable|, i requires 0 <= i < |applicable| => DeriveStep(applicable[i], pod, releaseDone))
  }

  /** One container's share of its step: status, times, limit and, for wrapped phases, the peak. */
  method FillStep(step: BuildStep, pod: Pod, statuses: seq<ContainerStatus>) returns (r: BuildStep)
    requires step == PlainStep(step.name, Pending) && step.name != Release
    requires statuses == if step.name == Copier then pod.mains else pod.inits
    ensures r == DeriveStep(step.name, Some(pod), false) == DeriveStep(step.name, Some(pod), true)
  {
    r := step;
    var cs := FindContainerStatus(statuses, step.name);
    if cs.None? {
      return;
    }
    match cs.value.state
    case Waiting =>
    case Started(startedAt) =>
      r := r.(status := Running, startedAt := startedAt, memoryLimit := MemoryLimit(pod, step.name));
    case Terminated(code, _, message, startedAt, finishedAt) =>
      r := r.(status := if code == 0 then Succeeded else Failed, startedAt := startedAt, finishedAt := finishedAt);
      r := r.(memoryLimit := MemoryLimit(pod, step.name));
      if step.name != Copier {
        var peak := PeakMemory.ParsePeakMemory(message);
        r := r.(peakMemory := peak);
      }
  }

  method DeriveBuildSteps(applicable: seq<Step>, pod: Option<Pod>, releaseDone: bool) returns (steps: seq<BuildStep>)
    ensures steps == DeriveSteps(applicable, pod, releaseDone)
  {
    steps := [];
    for i := 0 to |applicable|
      invariant |steps| == i
      invariant forall k :: 0 <= k < i ==> steps[k] == DeriveStep(applicable[k], pod, releaseDone)
    {
      var step := PlainStep(applicable[i], Pending);
      match applicable[i] {
        case Release =>
          if releaseDone {
            step := step.(status := Succeeded);
          }
        case Copier =>
          if pod.Some? {
            step := FillStep(step, pod.value, pod.value.mains);
          }
        case _ =>
          if pod.Some? {
            step := FillStep(step, pod.value, pod.value.inits);
          }
      }
      steps := steps + [step];
    }
  }

  /** What the pod shows of a container is the first status of its name, among the main containers for
      the copier and the init containers for all others. */
  lemma SeenIs(pod: Pod, name: Step, i: nat)
    requires var statuses := if name == Copier then pod.mains else pod.inits;
             && i <= |statuses| && (i < |statuses| ==> statuses[i].name == name)
             && forall k :: 0 <= k < i ==> statuses[k].name != name
    ensures var statuses := if name == Copier then pod.mains else pod.inits;
            && Lookup(pod, name) == (if i < |statuses| then Some(statuses[i]) else None)
            && Seen(pod, name) == if i < |statuses| then statuses[i].state else Waiting
  {
    FindStatusIs(if name == Copier then pod.mains else pod.inits, name, i);
  }

  /** A step with a container shows that container: its status, times and limit once it has started,
      and its peak once it has ended. */
  lemma StepShowsContainer(name: Step, pod: Pod, releaseDone: bool)
    requires name != Release
    ensures var r, s := DeriveStep(name, Some(pod), releaseDone), Seen(pod, name);
            && r.name == name && r.message == ""
            && (r.status == Pending <==> s.Waiting?) && (r.status == Running <==> s.Started?)
            && (r.status == Succeeded <==> s.Terminated? && s.exitCode == 0)
            && (r.status == Failed <==> s.Terminated? && s.exitCode != 0)
            && (s.Waiting? ==> r.startedAt == None && r.finishedAt == None && r.memoryLimit == "")
            && (!s.Waiting? ==>
                  r.startedAt == s.startedAt && r.memoryLimit == if name in pod.limits then pod.limits[name] else "")
            && (s.Started? ==> r.finishedAt == None)
            && (s.Terminated? ==> r.finishedAt == s.finishedAt)
            && (!s.Terminated? || name == Copier ==> r.peakMemory == 0)
  {}

  /** Without a pod, and for the release step, there is nothing but the status. */
  lemma StepWithoutContainer(name: Step, pod: Option<Pod>, releaseDone: bool)
    requires name == Release || pod.None?
    ensures DeriveStep(name, pod, releaseDone)
        == PlainStep(name, if name == Release && releaseDone then Succeeded else Pending)
  {}

  /** End to end: the peak in a wrapped step is the number its shim wrote, for every log the container
      leaves before it, unless the log holds a report line already or ends in an unterminated line. */
  lemma StepShowsPeak(name: Step, pod: Pod, log: string, n: nat, releaseDone: bool)
    requires name != Release && name != Copier && n <= PeakMemory.MAX_INT64
    requires forall l :: l in PeakMemory.Complete(log) ==> PeakMemory.ReportedValue(l).None?
    requires Seen(pod, name).Terminated?
    requires Seen(pod, name).message == PeakMemory.Report(log, PeakMemory.Dec(n) + "\n")
    ensures DeriveStep(name, Some(pod), releaseDone).peakMemory
        == if PeakMemory.Blank(PeakMemory.Fragment(log)) then n else 0
  {
    PeakMemory.PeakRoundTrip(log, n);
  }

  /** Fallback for a succeeded build whose pod is already gone. */
  function AllSucceeded(applicable: seq<Step>): seq<BuildStep> {
    seq(|applicable|, i requires 0 <= i < |applicable| => PlainStep(applicable[i], Succeeded))
  }

  predicate Ended(s: StepStatus) { s == Failed || s == Aborted }

  /** Name of the first step that ended badly. */
  function FailedStep(steps: seq<BuildStep>): Option<Step> {
    if steps == [] then None
    else if Ended(steps[0].status) then Some(steps[0].name)
    else FailedStep(steps[1..])
  }

  method FindFailedStep(steps: seq<BuildStep>) returns (r: Option<Step>)
    ensures r == FailedStep(steps)
    ensures r.None? <==> forall s :: s in steps ==> !Ended(s.status)
  {
    for i := 0 to |steps|
      invariant FailedStep(steps) == FailedStep(steps[i..])
      invariant forall k :: 0 <= k < i ==> !Ended(steps[k].status)
    {
      assert steps[i..][1..] == steps[i + 1..];
      if steps[i].status == Failed || steps[i].status == Aborted {
        assert steps[i] in steps;
        return Some(steps[i].name);
      }
    }
    return None;
  }

  // ---- the kubelet: containers run one by one, no restarts ----

  datatype KubeletStep =
    | Start(i: nat, at: int)
    | Exit(i: nat, at: int, exitCode: int, reason: string, message: string)

  predicate Passed(s: ContainerState) { s.Terminated? && s.exitCode == 0 }

  predicate CanStep(run: seq<ContainerState>, s: KubeletStep) {
    s.i < |run| &&
    match s
    case Start(i, _) => run[i].Waiting? && forall j :: 0 <= j < i ==> Passed(run[j])
    case Exit(i, _, _, _, _) => run[i].Started?
  }

  function Advance(run: seq<ContainerState>, s: KubeletStep): seq<ContainerState>
    requires CanStep(run, s)
  {
    match s
    case Start(i, at) => run[i := Started(Some(at))]
    case Exit(i, at, code, reason, message) => run[i := Terminated(code, reason, message, run[i].startedAt, Some(at))]
  }

  /** Every container after one that has not passed is still waiting. */
  ghost predicate Sequential(run: seq<ContainerState>) {
    forall i, j :: 0 <= i < j < |run| && !Passed(run[i]) ==> run[j].Waiting?
  }

  ghost predicate IsPodRun(runs: seq<seq<ContainerState>>, steps: seq<KubeletStep>, n: nat) {
    && |runs| == |steps| + 1
    && |runs[0]| == n && (forall i :: 0 <= i < n ==> runs[0][i].Waiting?)
    && forall k :: 0 <= k < |steps| ==> CanStep(runs[k], steps[k]) && runs[k + 1] == Advance(runs[k], steps[k])
  }

  lemma {:induction false} PodRunsAreSequential(runs: seq<seq<ContainerState>>, steps: seq<KubeletStep>, n: nat, k: nat)
    requires IsPodRun(runs, steps, n) && k < |runs|
    ensures |runs[k]| == n && Sequential(runs[k])
  {
    if k == 0 {
    } else {
      PodRunsAreSequential(runs, steps, n, k - 1);
      assert CanStep(runs[k - 1], steps[k - 1]) && runs[k] == Advance(runs[k - 1], steps[k - 1]);
    }
  }

  ghost predicate ClockRuns(steps: seq<KubeletStep>) {
    forall i, j :: 0 <= i < j < |steps| ==> steps[i].at <= steps[j].at
  }

  /** No container starts before an earlier one has finished, and none finishes before it starts. */
  ghost predicate Timed(run: seq<ContainerState>, now: int) {
    && (forall i :: 0 <= i < |run| && !run[i].Waiting? ==> run[i].startedAt.Some? && run[i].startedAt.value <= now)
    && (forall i :: 0 <= i < |run| && run[i].Terminated? ==>
          run[i].finishedAt.Some? && run[i].startedAt.value <= run[i].finishedAt.value <= now)
    && (forall i, j :: 0 <= i < j < |run| && run[i].Terminated? && !run[j].Waiting? ==>
          run[i].finishedAt.value <= run[j].startedAt.value)
  }

  lemma TimedStep(run: seq<ContainerState>, s: KubeletStep, now: int)
    requires CanStep(run, s) && Timed(run, s.at) && Sequential(run) && s.at <= now
    ensures Timed(Advance(run, s), now)
  {}

  lemma {:induction false} PodRunsAreTimed(runs: seq<seq<ContainerState>>, steps: seq<KubeletStep>, n: nat, k: nat,
      now: int)
    requires IsPodRun(runs, steps, n) && ClockRuns(steps) && k < |runs| && (k > 0 ==> steps[k - 1].at <= now)
    ensures Timed(runs[k], now)
  {
    hide Sequential;
    if k == 0 {
    } else {
      PodRunsAreTimed(runs, steps, n, k - 1, steps[k - 1].at);
      assert CanStep(runs[k - 1], steps[k - 1]) && runs[k] == Advance(runs[k - 1], steps[k - 1]);
      assert Sequential(runs[k - 1]) by { PodRunsAreSequential(runs, steps, n, k - 1); }
      TimedStep(runs[k - 1], steps[k - 1], now);
    }
  }

  /** A pod that shows the state of every container of the build, and of no other. */
  ghost predicate Reports(pod: Pod, p: PipelineSpec, dflt: seq<string>, run: seq<ContainerState>) {
    && |run| == |Containers(p, dflt)|
    && (forall i :: 0 <= i < |run| ==> Seen(pod, Containers(p, dflt)[i]) == run[i])
    && (forall s :: s !in Containers(p, dflt) ==> Seen(pod, s).Waiting?)
  }

  // ---- where a step sits in the pod ----

  /** Index of a container in `Containers`. */
  function Slot(p: PipelineSpec, s: Step): nat {
    var fetchAt := if SetupRuns(p) then 3 else 2;
    match s
    case ShimInstall => 0
    case Clone => 1
    case Setup => 2
    case Fetch => fetchAt
    case Build => fetchAt + 1
    case _ => fetchAt + 2
  }

  lemma SlotIs(p: PipelineSpec, dflt: seq<string>, s: Step)
    requires s in Containers(p, dflt)
    ensures Slot(p, s) < |Containers(p, dflt)| && Containers(p, dflt)[Slot(p, s)] == s
  {}

  /** The applicable steps without `Release`, which comes last, are a subsequence of the pod's
      containers. */
  lemma StepsAreSubsequence(p: PipelineSpec, dflt: seq<string>)
    ensures var steps := ApplicableSteps(p);
            && |steps| >= 4 && steps[|steps| - 1] == Release && steps[|steps| - 2] == Copier
            && (forall i :: 0 <= i < |steps| - 1 ==> steps[i] != Release && steps[i] in Containers(p, dflt))
            && (forall i, j :: 0 <= i < j < |steps| - 1 ==> Slot(p, steps[i]) < Slot(p, steps[j]))
  {}

  /** Which optional phases there are: setup in pod and timeline alike, unless it is skipped or
      neither configured nor provided by a managed toolchain; fetch always in the pod, in the
      timeline only when configured. */
  lemma OptionalSteps(p: PipelineSpec, dflt: seq<string>)
    ensures Setup in Containers(p, dflt) <==> Setup in ApplicableSteps(p)
    ensures Setup in ApplicableSteps(p)
        <==> !p.skipSetup && (p.setup.image != "" || p.setup.command != [] || p.nodeVersion != 0)
    ensures Fetch in Containers(p, dflt)
    ensures Fetch in ApplicableSteps(p) <==> p.fetch.image != "" || p.fetch.command != []
  {}

  /** Containers after one that has not passed are waiting, whichever spec names them. */
  lemma PodOrder(p: PipelineSpec, dflt: seq<string>, pod: Pod, run: seq<ContainerState>, a: Step, b: Step)
    requires Reports(pod, p, dflt, run) && Sequential(run)
    requires a in Containers(p, dflt) && b in Containers(p, dflt) && Slot(p, a) < Slot(p, b)
    ensures !Passed(Seen(pod, a)) ==> Seen(pod, b).Waiting?
  {
    SlotIs(p, dflt, a);
    SlotIs(p, dflt, b);
  }

  /** The order of the containers that the timeline of a spec `q` may name in a pod of spec `p`. */
  lemma PodStates(p: PipelineSpec, dflt: seq<string>, pod: Pod, run: seq<ContainerState>)
    requires Reports(pod, p, dflt, run) && Sequential(run)
    ensures !Passed(Seen(pod, Clone)) ==> Seen(pod, Setup).Waiting? && Seen(pod, Fetch).Waiting?
    ensures !Passed(Seen(pod, Fetch)) ==> Seen(pod, Build).Waiting?
    ensures !Passed(Seen(pod, Build)) ==> Seen(pod, Copier).Waiting?
    ensures SetupRuns(p) && !Passed(Seen(pod, Setup)) ==> Seen(pod, Fetch).Waiting?
    ensures !SetupRuns(p) ==> Seen(pod, Setup).Waiting?
  {
    hide Seen, Sequential, Reports, Passed;
    OptionalSteps(p, dflt);
    assert {Clone, Fetch, Build, Copier} <= set s | s in Containers(p, dflt);
    PodOrder(p, dflt, pod, run, Clone, Fetch);
    PodOrder(p, dflt, pod, run, Fetch, Build);
    PodOrder(p, dflt, pod, run, Build, Copier);
    if SetupRuns(p) {
      PodOrder(p, dflt, pod, run, Clone, Setup);
      PodOrder(p, dflt, pod, run, Setup, Fetch);
    } else {
      AbsentWaits(p, dflt, pod, run, Setup);
    }
  }

  lemma AbsentWaits(p: PipelineSpec, dflt: seq<string>, pod: Pod, run: seq<ContainerState>, s: Step)
    requires Reports(pod, p, dflt, run) && s !in Containers(p, dflt)
    ensures Seen(pod, s).Waiting?
  {}

  // ---- the timeline's shape ----

  /** Succeeded*, then at most one other step, then Pending*. */
  ghost predicate Linear(steps: seq<BuildStep>) {
    forall i, j :: 0 <= i < j < |steps| && steps[i].status != Succeeded ==> steps[j].status == Pending
  }

  lemma PassedIsSucceeded(s: ContainerState)
    ensures StatusOfState(s) == Succeeded <==> Passed(s)
    ensures StatusOfState(s) == Pending <==> s.Waiting?
  {}

  /** The live spec `q` lists a setup step that the pod, built under `p`, does not have. */
  predicate SetupAddedLate(p: PipelineSpec, q: PipelineSpec) { SetupRuns(q) && !SetupRuns(p) }

  /** The step that follows setup in the timeline. */
  function AfterSetup(q: PipelineSpec): Step { if PhaseConfigured(q.fetch) then Fetch else Build }

  /** For every pod the kubelet can produce under a spec `p`, and every live spec `q` the
      timeline is derived from: it is linear exactly when the release step is not claimed before
      the copier has passed and no setup step was added under a build already past it. */
  lemma TimelineUnderEdits(p: PipelineSpec, q: PipelineSpec, dflt: seq<string>, pod: Pod, run: seq<ContainerState>,
                           releaseDone: bool)
    requires Reports(pod, p, dflt, run) && Sequential(run)
    ensures Linear(DeriveSteps(ApplicableSteps(q), Some(pod), releaseDone))
        <==> (releaseDone ==> Passed(Seen(pod, Copier))) && (SetupAddedLate(p, q) ==> Seen(pod, AfterSetup(q)).Waiting?)
  {
    hide Seen, Sequential, Reports, Passed, DeriveSteps, StatusOfState;
    PodStates(p, dflt, pod, run);
    PassedIsSucceeded(Seen(pod, Clone));
    PassedIsSucceeded(Seen(pod, Setup));
    PassedIsSucceeded(Seen(pod, Fetch));
    PassedIsSucceeded(Seen(pod, Build));
    PassedIsSucceeded(Seen(pod, Copier));
    LinearTimeline(q, DeriveSteps(ApplicableSteps(q), Some(pod), releaseDone), pod, releaseDone);
  }

  /** What linearity asks of the containers, step by step. */
  lemma LinearTimeline(q: PipelineSpec, steps: seq<BuildStep>, pod: Pod, releaseDone: bool)
    requires steps == DeriveSteps(ApplicableSteps(q), Some(pod), releaseDone)
    ensures var fetch, setup := PhaseConfigured(q.fetch), SetupRuns(q);
            var c, s, f := StatusOfState(Seen(pod, Clone)), StatusOfState(Seen(pod, Setup)),
                StatusOfState(Seen(pod, Fetch));
            var b, k := StatusOfState(Seen(pod, Build)), StatusOfState(Seen(pod, Copier));
            Linear(steps) <==>
            && (c != Succeeded ==>
                  (setup ==> s == Pending) && (fetch ==> f == Pending) && b == Pending && k == Pending && !releaseDone)
            && (setup && s != Succeeded ==> (fetch ==> f == Pending) && b == Pending && k == Pending && !releaseDone)
            && (fetch && f != Succeeded ==> b == Pending && k == Pending && !releaseDone)
            && (b != Succeeded ==> k == Pending && !releaseDone)
            && (k != Succeeded ==> !releaseDone)
  {
    hide Seen, StatusOfState, PeakMemory.ParsePeak;
    var n := |steps| - 1;
    assert steps[0] == DeriveStep(Clone, Some(pod), releaseDone);
    assert steps[n] == DeriveStep(Release, Some(pod), releaseDone);
    assert steps[n - 1] == DeriveStep(Copier, Some(pod), releaseDone);
    assert steps[n - 2] == DeriveStep(Build, Some(pod), releaseDone);
    assert SetupRuns(q) ==> steps[1] == DeriveStep(Setup, Some(pod), releaseDone);
    assert PhaseConfigured(q.fetch) ==> steps[n - 3] == DeriveStep(Fetch, Some(pod), releaseDone);
  }

  /** With the spec unedited since the pod was created. */
  lemma TimelineIsLinear(p: PipelineSpec, dflt: seq<string>, pod: Pod, run: seq<ContainerState>, releaseDone: bool)
    requires Reports(pod, p, dflt, run) && Sequential(run)
    ensures Linear(DeriveSteps(ApplicableSteps(p), Some(pod), releaseDone))
            <==> (releaseDone ==> Passed(Seen(pod, Copier)))
  {
    TimelineUnderEdits(p, p, dflt, pod, run, releaseDone);
  }

  lemma {:induction false} FailedStepAt(steps: seq<BuildStep>) returns (i: nat)
    requires FailedStep(steps).Some?
    ensures i < |steps| && Ended(steps[i].status) && FailedStep(steps) == Some(steps[i].name)
  {
    if Ended(steps[0].status) {
      i := 0;
    } else {
      i := FailedStepAt(steps[1..]);
      i := i + 1;
    }
  }

  predicate Broke(s: ContainerState) { s.Terminated? && s.exitCode != 0 }

  /** Containers run one by one, so at most one of them breaks. */
  lemma OneBreaks(p: PipelineSpec, dflt: seq<string>, pod: Pod, run: seq<ContainerState>, c: nat, s: Step)
    requires Reports(pod, p, dflt, run) && Sequential(run) && c < |run| && Broke(run[c])
    ensures Broke(Seen(pod, s)) <==> s == Containers(p, dflt)[c]
  {
    if s in Containers(p, dflt) {
      SlotIs(p, dflt, s);
    }
  }

  /** The step blamed for a broken container, in a pod of spec `p` under a live spec `q`: the
      container itself if the timeline lists it, and none if it does not (shim-install, a fetch
      that is not configured, a setup that was edited out). */
  lemma BlamedStep(p: PipelineSpec, q: PipelineSpec, dflt: seq<string>, pod: Pod, run: seq<ContainerState>, c: nat,
                   releaseDone: bool)
    requires Reports(pod, p, dflt, run) && Sequential(run) && c < |run| && Broke(run[c])
    ensures FailedStep(DeriveSteps(ApplicableSteps(q), Some(pod), releaseDone))
        == if Containers(p, dflt)[c] in ApplicableSteps(q) then Some(Containers(p, dflt)[c]) else None
  {
    hide Seen, Sequential, PeakMemory.ParsePeak, Containers;
    var names, broken := ApplicableSteps(q), Containers(p, dflt)[c];
    var steps := DeriveSteps(names, Some(pod), releaseDone);
    forall k | 0 <= k < |names|
      ensures Ended(steps[k].status) <==> names[k] == broken
    {
      OneBreaks(p, dflt, pod, run, c, names[k]);
      assert broken != Release by { NoReleaseContainer(p, dflt, c); }
    }
    if FailedStep(steps).Some? {
      var i := FailedStepAt(steps);
      assert names[i] == broken;
    } else {
      NoneFailed(steps);
    }
  }

  lemma NoReleaseContainer(p: PipelineSpec, dflt: seq<string>, c: nat)
    requires c < |Containers(p, dflt)|
    ensures Containers(p, dflt)[c] != Release
  {}

  /** And nothing is blamed while no container of the pod has broken. */
  lemma NobodyBlamed(p: PipelineSpec, q: PipelineSpec, dflt: seq<string>, pod: Pod, run: seq<ContainerState>,
                     releaseDone: bool)
    requires Reports(pod, p, dflt, run) && forall c :: 0 <= c < |run| ==> !Broke(run[c])
    ensures FailedStep(DeriveSteps(ApplicableSteps(q), Some(pod), releaseDone)) == None
  {
    hide PeakMemory.ParsePeak, Containers, Seen;
    var names := ApplicableSteps(q);
    var steps := DeriveSteps(names, Some(pod), releaseDone);
    forall k | 0 <= k < |names|
      ensures !Ended(steps[k].status)
    {
      WholeIsUnended(p, dflt, pod, run, names[k]);
    }
    NoEndNoFailure(steps);
  }

  lemma WholeIsUnended(p: PipelineSpec, dflt: seq<string>, pod: Pod, run: seq<ContainerState>, s: Step)
    requires Reports(pod, p, dflt, run) && forall c :: 0 <= c < |run| ==> !Broke(run[c])
    ensures !Broke(Seen(pod, s)) && !Ended(StatusOfState(Seen(pod, s)))
  {
    hide Seen;
    if s in Containers(p, dflt) {
      SlotIs(p, dflt, s);
    }
  }

  lemma {:induction false} NoEndNoFailure(steps: seq<BuildStep>)
    requires forall k :: 0 <= k < |steps| ==> !Ended(steps[k].status)
    ensures FailedStep(steps) == None
  {
    if steps == [] {
    } else {
      NoEndNoFailure(steps[1..]);
    }
  }

  lemma {:induction false} NoneFailed(steps: seq<BuildStep>)
    requires FailedStep(steps) == None
    ensures forall k :: 0 <= k < |steps| ==> !Ended(steps[k].status)
  {
    if steps == [] {
    } else {
      NoneFailed(steps[1..]);
    }
  }

  lemma SlotsFollowSteps(p: PipelineSpec, q: PipelineSpec, dflt: seq<string>, i: nat, j: nat)
    requires i < j < |ApplicableSteps(q)|
    requires ApplicableSteps(q)[i] in Containers(p, dflt) && ApplicableSteps(q)[j] in Containers(p, dflt)
    ensures Slot(p, ApplicableSteps(q)[i]) < Slot(p, ApplicableSteps(q)[j])
  {}

  lemma StepTimesAre(name: Step, pod: Pod, releaseDone: bool)
    ensures var r, s := DeriveStep(name, Some(pod), releaseDone), Seen(pod, name);
            && r.name == name
            && r.startedAt == (if name == Release || s.Waiting? then None else s.startedAt)
            && r.finishedAt == if name != Release && s.Terminated? then s.finishedAt else None
  {
    hide Seen, PeakMemory.ParsePeak;
  }

  lemma AbsentIsWaiting(p: PipelineSpec, dflt: seq<string>, pod: Pod, run: seq<ContainerState>, name: Step)
    requires Reports(pod, p, dflt, run)
    ensures name !in Containers(p, dflt) ==> Seen(pod, name).Waiting?
    ensures Release !in Containers(p, dflt)
  {
    hide Seen;
  }

  /** Two containers of a pod in their order, or one with itself. */
  lemma SeenInOrder(p: PipelineSpec, dflt: seq<string>, pod: Pod, run: seq<ContainerState>, now: int, a: Step, b: Step)
    requires Reports(pod, p, dflt, run) && Sequential(run) && Timed(run, now)
    requires Slot(p, a) < |Containers(p, dflt)| && Containers(p, dflt)[Slot(p, a)] == a
    requires Slot(p, b) < |Containers(p, dflt)| && Containers(p, dflt)[Slot(p, b)] == b
    requires Slot(p, a) <= Slot(p, b)
    ensures var s, t := Seen(pod, a), Seen(pod, b);
            && (Slot(p, a) < Slot(p, b) && !t.Waiting? ==>
                  && s.Terminated? && s.finishedAt.Some? && t.startedAt.Some?
                  && s.finishedAt.value <= t.startedAt.value)
            && (t.Terminated? ==>
                  t.startedAt.Some? && t.finishedAt.Some? && t.startedAt.value <= t.finishedAt.value)
  {
    hide Seen, Slot, Containers;
  }

  /** Steps of a timeline never overlap: a step that has started comes after the end of every
      earlier listed step with a container. */
  lemma StepTimesAreOrdered(p: PipelineSpec, q: PipelineSpec, dflt: seq<string>, pod: Pod, run: seq<ContainerState>,
                            now: int, releaseDone: bool, i: nat, j: nat)
    requires Reports(pod, p, dflt, run) && Sequential(run) && Timed(run, now) && i < j < |ApplicableSteps(q)|
    ensures var steps := DeriveSteps(ApplicableSteps(q), Some(pod), releaseDone);
            && (steps[i].name in Containers(p, dflt) && steps[j].startedAt.Some? ==> steps[i].finishedAt.Some?)
            && (steps[i].finishedAt.Some? && steps[j].startedAt.Some? ==>
                steps[i].finishedAt.value <= steps[j].startedAt.value)
            && (steps[j].finishedAt.Some? ==>
                steps[j].startedAt.Some? && steps[j].startedAt.value <= steps[j].finishedAt.value)
  {
    hide Seen, DeriveStep, ApplicableSteps, Slot, Containers, Reports, Sequential, Timed;
    var names := ApplicableSteps(q);
    var a, b := names[i], names[j];
    StepTimesAre(a, pod, releaseDone);
    StepTimesAre(b, pod, releaseDone);
    AbsentIsWaiting(p, dflt, pod, run, a);
    AbsentIsWaiting(p, dflt, pod, run, b);
    if a in Containers(p, dflt) && b in Containers(p, dflt) {
      SlotIs(p, dflt, a);
      SlotIs(p, dflt, b);
      SlotsFollowSteps(p, q, dflt, i, j);
      SeenInOrder(p, dflt, pod, run, now, a, b);
    } else if b in Containers(p, dflt) {
      SlotIs(p, dflt, b);
      SeenInOrder(p, dflt, pod, run, now, b, b);
    }
  }

  /** In a linear timeline the reported failed step is the only one that ended badly. */
  lemma {:induction false} FailedStepIsUnique(steps: seq<BuildStep>, i: nat)
    requires Linear(steps) && i < |steps| && Ended(steps[i].status)
    ensures FailedStep(steps) == Some(steps[i].name)
    ensures forall j :: 0 <= j < |steps| && Ended(steps[j].status) ==> j == i
  {
    if i == 0 {
    } else {
      assert steps[0].status == Succeeded;
      var rest := steps[1..];
      assert Linear(rest) by {
        forall a, b | 0 <= a < b < |rest| && rest[a].status != Succeeded
          ensures rest[b].status == Pending
        {
          assert rest[a] == steps[a + 1] && rest[b] == steps[b + 1];
        }
      }
      FailedStepIsUnique(rest, i - 1);
      forall j | 0 <= j < |steps| && Ended(steps[j].status)
        ensures j == i
      {
        if j > 0 { assert rest[j - 1] == steps[j]; }
      }
    }
  }

  // ---- console ----

  /** The steps with a container, in order. */
  function ContainerSteps(steps: seq<BuildStep>): seq<BuildStep> {
    if steps == [] then []
    else (if steps[0].name == Release then [] else [steps[0]]) + ContainerSteps(steps[1..])
  }

  /** Index of the first step with the given status at or after `from`, else the length. */
  function FirstIndex(steps: seq<BuildStep>, from: nat, want: set<StepStatus>): (i: nat)
    requires from <= |steps|
    ensures from <= i <= |steps|
    ensures i < |steps| ==> steps[i].status in want
    ensures forall k :: from <= k < i ==> steps[k].status !in want
    decreases |steps| - from
  {
    if from == |steps| || steps[from].status in want then from else FirstIndex(steps, from + 1, want)
  }

  /** The documented priority: failed, running, first pending after a success, first, last. */
  function Chosen(steps: seq<BuildStep>): Step {
    var failed := FirstIndex(steps, 0, {Failed, Aborted});
    var running := FirstIndex(steps, 0, {Running});
    var next := FirstIndex(steps, FirstIndex(steps, 0, {Succeeded}), {Pending});
    if failed < |steps| then steps[failed].name
    else if running < |steps| then steps[running].name
    else if next < |steps| then steps[next].name
    else if steps == [] then Build
    else if steps[0].status == Pending then steps[0].name
    else steps[|steps| - 1].name
  }

  lemma FirstIndexIs(steps: seq<BuildStep>, from: nat, want: set<StepStatus>, i: nat)
    requires from <= i <= |steps|
    requires i < |steps| ==> steps[i].status in want
    requires forall k :: from <= k < i ==> steps[k].status !in want
    ensures FirstIndex(steps, from, want) == i
  {}

  /** The step is the first one pending after one that succeeded. */
  ghost predicate NextUp(steps: seq<BuildStep>, i: nat) {
    && i < |steps| && steps[i].status == Pending && (exists k :: 0 <= k < i && steps[k].status == Succeeded)
    && forall j, k :: 0 <= k < j < i && steps[k].status == Succeeded ==> steps[j].status != Pending
  }

  /** The choice, case by case: the first step that ended badly, else the first running one, else the
      next one up, else the first while none has begun, and the last when all are done. */
  lemma ChosenIs(steps: seq<BuildStep>, i: nat)
    requires i < |steps|
    ensures var sound := forall k :: 0 <= k < |steps| ==> !Ended(steps[k].status);
            var idle := forall k :: 0 <= k < |steps| ==> steps[k].status != Running;
            && (Ended(steps[i].status) && (forall k :: 0 <= k < i ==> !Ended(steps[k].status)) ==>
                  Chosen(steps) == steps[i].name)
            && (sound && steps[i].status == Running && (forall k :: 0 <= k < i ==> steps[k].status != Running) ==>
                  Chosen(steps) == steps[i].name)
            && (sound && idle && NextUp(steps, i) ==> Chosen(steps) == steps[i].name)
            && ((forall k :: 0 <= k < |steps| ==> steps[k].status == Pending) ==> Chosen(steps) == steps[0].name)
            && ((forall k :: 0 <= k < |steps| ==> steps[k].status == Succeeded) ==>
                  Chosen(steps) == steps[|steps| - 1].name)
    ensures Chosen([]) == Build
  {
    if NextUp(steps, i) {
      FirstIndexIs(steps, FirstIndex(steps, 0, {Succeeded}), {Pending}, i);
    }
  }

  method DefaultContainer(steps: seq<BuildStep>) returns (c: Step)
    ensures c == Chosen(steps)
  {
    for i := 0 to |steps|
      invariant forall k :: 0 <= k < i ==> !Ended(steps[k].status)
    {
      if Ended(steps[i].status) {
        FirstIndexIs(steps, 0, {Failed, Aborted}, i);
        return steps[i].name;
      }
    }
    FirstIndexIs(steps, 0, {Failed, Aborted}, |steps|);
    for i := 0 to |steps|
      invariant forall k :: 0 <= k < i ==> steps[k].status != Running
    {
      if steps[i].status == Running {
        FirstIndexIs(steps, 0, {Running}, i);
        return steps[i].name;
      }
    }
    FirstIndexIs(steps, 0, {Running}, |steps|);
    var started := false;
    ghost var first := FirstIndex(steps, 0, {Succeeded});
    for i := 0 to |steps|
      invariant started <==> first < i
      invariant forall k :: first <= k < i ==> steps[k].status != Pending
    {
      if steps[i].status == Succeeded {
        started := true;
      } else if started && steps[i].status == Pending {
        FirstIndexIs(steps, first, {Pending}, i);
        return steps[i].name;
      }
    }
    FirstIndexIs(steps, first, {Pending}, |steps|);
    if |steps| > 0 {
      if steps[0].status == Pending {
        return steps[0].name;
      }
      return steps[|steps| - 1].name;
    }
    return Build;
  }

  /** On a linear timeline the console follows the first step that has not succeeded, and the
      last container once all have. */
  lemma ChosenFollowsTheBuild(steps: seq<BuildStep>)
    requires Linear(steps) && steps != []
    ensures var i := FirstIndex(steps, 0, {Pending, Running, Failed, Aborted});
            Chosen(steps) == steps[if i < |steps| then i else |steps| - 1].name
  {}

  lemma {:induction false} ContainerStepsDropRelease(steps: seq<BuildStep>)
    requires steps != [] && steps[|steps| - 1].name == Release
    requires forall i :: 0 <= i < |steps| - 1 ==> steps[i].name != Release
    ensures ContainerSteps(steps) == steps[..|steps| - 1]
  {
    if |steps| > 1 {
      ContainerStepsDropRelease(steps[1..]);
      assert [steps[0]] + steps[1..|steps| - 1] == steps[..|steps| - 1];
      assert steps[1..][..|steps| - 2] == steps[1..|steps| - 1];
    } else {
      assert steps[1..] == [];
    }
  }

  /** The console's choice when all steps but `at` and a pending one at 1 are done before `at` and
      pending after it. */
  lemma ChosenBlocks(steps: seq<BuildStep>, at: nat)
    requires |steps| >= 2 && steps[1].status == Pending && at <= |steps| && at != 1
    requires forall k :: 0 <= k < |steps| && k != 1 && k != at ==>
                           steps[k].status == if k < at then Succeeded else Pending
    requires at < |steps| ==> steps[at].status != Succeeded
    ensures Chosen(steps)
            == if at > 0 && (at == |steps| || steps[at].status == Pending) then steps[1].name else steps[at].name
  {
    var bad, busy := at < |steps| && Ended(steps[at].status), at < |steps| && steps[at].status == Running;
    FirstIndexIs(steps, 0, {Failed, Aborted}, if bad then at else |steps|);
    FirstIndexIs(steps, 0, {Running}, if busy then at else |steps|);
    FirstIndexIs(steps, 0, {Succeeded}, if at > 0 then 0 else |steps|);
    if at > 0 {
      FirstIndexIs(steps, 0, {Pending}, 1);
    }
  }

  /** The console's choice when a pending step was slipped in after the first. */
  lemma ChosenPastExtra(steps: seq<BuildStep>, rest: seq<BuildStep>)
    requires |steps| >= 2 && steps[1].status == Pending && rest == [steps[0]] + steps[2..] && Linear(rest)
    ensures var i := FirstIndex(rest, 0, {Pending, Running, Failed, Aborted});
            Chosen(steps) == if steps[0].status == Succeeded && (i == |rest| || rest[i].status == Pending)
                             then steps[1].name else rest[if i < |rest| then i else |rest| - 1].name
  {
    var i := FirstIndex(rest, 0, {Pending, Running, Failed, Aborted});
    var at := if i == 0 then 0 else i + 1;
    forall k | 0 <= k < i
      ensures rest[k].status == Succeeded
    {
      assert rest[k].status !in {Pending, Running, Failed, Aborted};
    }
    forall k | 0 <= k < |steps| && k != 1 && k != at
      ensures steps[k].status == if k < at then Succeeded else Pending
    {
      assert steps[k] == rest[if k == 0 then 0 else k - 1];
    }
    assert at < |steps| ==> steps[at] == rest[i];
    ChosenBlocks(steps, at);
  }

  /** The containers of the pod that the timeline of the live spec names. */
  function ListedContainers(p: PipelineSpec, q: PipelineSpec): (names: seq<Step>)
    ensures names != []
  {
    [Clone]
    + (if SetupRuns(q) && SetupRuns(p) then [Setup] else [])
    + (if PhaseConfigured(q.fetch) then [Fetch] else [])
    + [Build, Copier]
  }

  /** The first of them that has not passed, the last if all have. */
  function FirstOpen(pod: Pod, names: seq<Step>): Step
    requires names != []
  {
    if |names| == 1 || !Passed(Seen(pod, names[0])) then names[0] else FirstOpen(pod, names[1..])
  }

  lemma {:induction false} FirstOpenIs(pod: Pod, steps: seq<BuildStep>, names: seq<Step>)
    requires names != [] && |steps| == |names|
    requires forall k :: 0 <= k < |steps| ==> steps[k] == DeriveStep(names[k], Some(pod), false) && names[k] != Release
    ensures var i := FirstIndex(steps, 0, {Pending, Running, Failed, Aborted});
            FirstOpen(pod, names) == names[if i < |steps| then i else |steps| - 1]
  {
    var i := FirstIndex(steps, 0, {Pending, Running, Failed, Aborted});
    PassedIsSucceeded(Seen(pod, names[0]));
    assert steps[0].status == StatusOfState(Seen(pod, names[0])) != Aborted;
    if |names| == 1 || !Passed(Seen(pod, names[0])) {
    } else {
      assert i > 0;
      FirstOpenIs(pod, steps[1..], names[1..]);
      FirstIndexIs(steps[1..], 0, {Pending, Running, Failed, Aborted}, i - 1);
    }
  }

  /** The console's list: the timeline without the synthetic step. */
  ghost predicate Lists(q: PipelineSpec, pod: Pod, shown: seq<BuildStep>) {
    var names := ApplicableSteps(q);
    && |shown| == |names| - 1
    && forall k :: 0 <= k < |shown| ==>
         names[k] != Release && shown[k] == DeriveStep(names[k], Some(pod), false) && shown[k].name == names[k]
  }

  lemma ListedSteps(q: PipelineSpec, pod: Pod, releaseDone: bool)
    ensures Lists(q, pod, ContainerSteps(DeriveSteps(ApplicableSteps(q), Some(pod), releaseDone)))
  {
    hide Seen, PeakMemory.ParsePeak, ApplicableSteps, MemoryLimit, StatusOfState;
    var names := ApplicableSteps(q);
    StepsAreSubsequence(q, []);
    var steps := DeriveSteps(names, Some(pod), releaseDone);
    forall k | 0 <= k < |names| - 1
      ensures names[k] != Release && steps[k] == DeriveStep(names[k], Some(pod), false) && steps[k].name == names[k]
    {}
    ContainerStepsDropRelease(steps);
  }

  lemma LinearList(p: PipelineSpec, q: PipelineSpec, dflt: seq<string>, pod: Pod, run: seq<ContainerState>,
                   shown: seq<BuildStep>)
    requires Reports(pod, p, dflt, run) && Sequential(run) && Lists(q, pod, shown) && !SetupAddedLate(p, q)
    ensures Linear(shown)
  {
    hide Seen, Sequential, Reports, DeriveStep;
    var steps := DeriveSteps(ApplicableSteps(q), Some(pod), false);
    TimelineUnderEdits(p, q, dflt, pod, run, false);
    assert shown == steps[..|shown|];
  }

  /** A state that is neither running nor failed: nothing to show. */
  predicate Still(s: ContainerState) { s.Waiting? || Passed(s) }

  /** End to end, for every pod the kubelet can produce under `p` and every live spec `q`: the
      console shows the first listed container that has not passed, or the copier when all have,
      except that a setup step the pod does not have is shown exactly while it was added after
      the pod, the clone has passed and no listed container runs or has failed. */
  lemma ConsoleUnderEdits(p: PipelineSpec, q: PipelineSpec, dflt: seq<string>, pod: Pod, run: seq<ContainerState>,
                          releaseDone: bool)
    requires Reports(pod, p, dflt, run) && Sequential(run)
    ensures var open := FirstOpen(pod, ListedContainers(p, q));
            Chosen(ContainerSteps(DeriveSteps(ApplicableSteps(q), Some(pod), releaseDone)))
            == if SetupAddedLate(p, q) && Passed(Seen(pod, Clone)) && Still(Seen(pod, open)) then Setup else open
  {
    hide Seen, Sequential, Reports, Passed, DeriveSteps, ContainerSteps, Chosen, Linear, FirstOpen, DeriveStep;
    var names := ApplicableSteps(q);
    var shown := ContainerSteps(DeriveSteps(names, Some(pod), releaseDone));
    ListedSteps(q, pod, releaseDone);
    if SetupAddedLate(p, q) {
      ExtraSetup(p, q, dflt, pod, run, shown);
    } else {
      LinearList(p, q, dflt, pod, run, shown);
      ChosenFollowsTheBuild(shown);
      assert ListedContainers(p, q) == names[..|names| - 1];
      FirstOpenIs(pod, shown, ListedContainers(p, q));
    }
  }

  lemma ExtraSetup(p: PipelineSpec, q: PipelineSpec, dflt: seq<string>, pod: Pod, run: seq<ContainerState>,
                   shown: seq<BuildStep>)
    requires Reports(pod, p, dflt, run) && Sequential(run) && Lists(q, pod, shown) && SetupAddedLate(p, q)
    ensures var open := FirstOpen(pod, ListedContainers(p, q));
            Chosen(shown) == if Passed(Seen(pod, Clone)) && Still(Seen(pod, open)) then Setup else open
  {
    hide Seen, Sequential, Reports, Passed, Chosen, Linear, FirstOpen, DeriveStep;
    var without := q.(skipSetup := true);
    var rest := [shown[0]] + shown[2..];
    SkippedSetup(q, pod, shown);
    LinearList(p, without, dflt, pod, run, rest);
    AbsentSetup(p, dflt, pod, run);
    ChosenPastExtra(shown, rest);
    var listed := ListedContainers(p, q);
    assert listed == ApplicableSteps(without)[..|ApplicableSteps(without)| - 1];
    FirstOpenIs(pod, rest, listed);
    var i := FirstIndex(rest, 0, {Pending, Running, Failed, Aborted});
    var at := if i < |rest| then i else |rest| - 1;
    StepState(pod, listed[0], rest[0]);
    StepState(pod, listed[at], rest[at]);
  }

  lemma SkippedSetup(q: PipelineSpec, pod: Pod, shown: seq<BuildStep>)
    requires Lists(q, pod, shown) && SetupRuns(q)
    ensures |shown| >= 2 && shown[1].name == Setup && shown[1] == DeriveStep(Setup, Some(pod), false)
    ensures Lists(q.(skipSetup := true), pod, [shown[0]] + shown[2..])
  {
    hide DeriveStep;
    var names, without := ApplicableSteps(q), ApplicableSteps(q.(skipSetup := true));
    assert names[1] == Setup && without == [names[0]] + names[2..];
  }

  lemma AbsentSetup(p: PipelineSpec, dflt: seq<string>, pod: Pod, run: seq<ContainerState>)
    requires Reports(pod, p, dflt, run) && !SetupRuns(p)
    ensures DeriveStep(Setup, Some(pod), false).status == Pending
  {
    OptionalSteps(p, dflt);
  }

  lemma StepState(pod: Pod, name: Step, step: BuildStep)
    requires name != Release && step == DeriveStep(name, Some(pod), false)
    ensures step.status == Succeeded <==> Passed(Seen(pod, name))
    ensures step.status in {Pending, Succeeded} <==> Still(Seen(pod, name))
  {}

  /** With the spec unedited since the pod was created. */
  lemma ConsoleShowsActiveContainer(p: PipelineSpec, dflt: seq<string>, pod: Pod, run: seq<ContainerState>,
                                    releaseDone: bool)
    requires Reports(pod, p, dflt, run) && Sequential(run)
    ensures var shown := Chosen(ContainerSteps(DeriveSteps(ApplicableSteps(p), Some(pod), releaseDone)));
            shown == FirstOpen(pod, ListedContainers(p, p)) && shown in Containers(p, dflt)
  {
    hide Seen, Sequential, Reports, Passed, DeriveSteps, ContainerSteps, Chosen, DeriveStep;
    ConsoleUnderEdits(p, p, dflt, pod, run, releaseDone);
    FirstOpenListed(pod, ListedContainers(p, p));
    OptionalSteps(p, dflt);
  }

  lemma {:induction false} FirstOpenListed(pod: Pod, names: seq<Step>)
    requires names != []
    ensures FirstOpen(pod, names) in names
  {
    if |names| == 1 {
    } else {
      FirstOpenListed(pod, names[1..]);
    }
  }

  /** The edit that breaks both: configure setup under a pod that was built without it. Between
      build and copier the timeline is not linear, and the console shows a container that does
      not exist. */
  lemma SetupEditedIn(p: PipelineSpec, dflt: seq<string>, image: string)
    requires !SetupRuns(p) && image != ""
    ensures exists pod, run ::
              && Reports(pod, p, dflt, run) && Sequential(run)
              && var q := p.(skipSetup := false, setup := PhaseSpec(image, []));
                 var steps := DeriveSteps(ApplicableSteps(q), Some(pod), false);
                 !Linear(steps) && Chosen(ContainerSteps(steps)) == Setup && Setup !in Containers(p, dflt)
  {
    hide Reports, Sequential, DeriveSteps, ContainerSteps, Chosen, Linear;
    var pod, run := PodBeforeCopier(p, dflt);
    BrokenByEdit(p, dflt, image, pod, run);
  }

  lemma BrokenByEdit(p: PipelineSpec, dflt: seq<string>, image: string, pod: Pod, run: seq<ContainerState>)
    requires !SetupRuns(p) && image != ""
    requires Reports(pod, p, dflt, run) && Sequential(run) && forall s :: Still(Seen(pod, s))
    requires Passed(Seen(pod, Clone)) && Passed(Seen(pod, Fetch)) && Passed(Seen(pod, Build))
    ensures var q := p.(skipSetup := false, setup := PhaseSpec(image, []));
            var steps := DeriveSteps(ApplicableSteps(q), Some(pod), false);
            !Linear(steps) && Chosen(ContainerSteps(steps)) == Setup && Setup !in Containers(p, dflt)
  {
    hide Seen, Passed, DeriveSteps, ContainerSteps, Chosen, Linear, Reports, Sequential, Still;
    var q := p.(skipSetup := false, setup := PhaseSpec(image, []));
    assert SetupAddedLate(p, q) && Setup !in Containers(p, dflt) by { OptionalSteps(p, dflt); }
    TimelineUnderEdits(p, q, dflt, pod, run, false);
    ConsoleUnderEdits(p, q, dflt, pod, run, false);
    assert !Seen(pod, AfterSetup(q)).Waiting? by { PassedIsOver(Seen(pod, AfterSetup(q))); }
  }

  lemma PassedIsOver(s: ContainerState)
    ensures Passed(s) ==> !s.Waiting?
  {}

  const DONE := Terminated(0, "Completed", "", None, None)

  lemma PodBeforeCopier(p: PipelineSpec, dflt: seq<string>) returns (pod: Pod, run: seq<ContainerState>)
    requires !SetupRuns(p)
    ensures Reports(pod, p, dflt, run) && Sequential(run)
    ensures Passed(Seen(pod, Clone)) && Passed(Seen(pod, Fetch)) && Passed(Seen(pod, Build))
    ensures forall s :: Still(Seen(pod, s))
    ensures Lookup(pod, Setup) == None
  {
    var names := [ShimInstall, Clone, Fetch, Build];
    var inits := seq(4, i requires 0 <= i < 4 => ContainerStatus(names[i], DONE));
    pod := Pod("build", inits, [], None, map[]);
    run := [DONE, DONE, DONE, DONE, Waiting];
    assert Containers(p, dflt) == names + [Copier];
    forall s
      ensures Seen(pod, s) == if s in names then DONE else Waiting
      ensures s == Setup ==> Lookup(pod, s) == None
    {
      FindStatusIs(inits, s, if s == ShimInstall then 0 else if s == Clone then 1 else if s == Fetch then 2
                             else if s == Build then 3 else 4);
    }
  }

  const BROKEN := Terminated(1, "Error", "", None, None)

  /** A pod whose setup container broke. */
  const BROKEN_SETUP := Pod(
    "build", [ContainerStatus(ShimInstall, DONE), ContainerStatus(Clone, DONE), ContainerStatus(Setup, BROKEN)], [],
    None, map[])

  lemma SeenInBrokenSetup(s: Step)
    ensures Seen(BROKEN_SETUP, s)
        == if s == Setup then BROKEN else if s == ShimInstall || s == Clone then DONE else Waiting
  {
    FindStatusIs(BROKEN_SETUP.inits, s, if s == ShimInstall then 0 else if s == Clone then 1 else if s == Setup then 2
                                        else 3);
  }

  lemma SetupBreaks(p: PipelineSpec, dflt: seq<string>) returns (run: seq<ContainerState>)
    requires SetupRuns(p)
    ensures Reports(BROKEN_SETUP, p, dflt, run) && Sequential(run) && |run| > 2
    ensures Containers(p, dflt)[2] == Setup && run[2] == Seen(BROKEN_SETUP, Setup) && Broke(run[2])
  {
    hide Seen;
    run := [DONE, DONE, BROKEN, Waiting, Waiting, Waiting];
    assert Containers(p, dflt) == [ShimInstall, Clone, Setup, Fetch, Build, Copier];
    forall s { SeenInBrokenSetup(s); }
  }
}
