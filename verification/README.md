# Toggle web baker: the operator's protocol and its helpers, verified

A Dafny model of the web-baker operator (`internal/controller`, `internal/domain`), the build
shim (`images/shim`), the event limiters and the console's choice of log container.

The centre is the reconcile protocol of one App. The API server holds annotations, spec, persisted
status and the build, cleanup and measure Jobs. Users patch tokens and specs, Jobs finish, recorded
Jobs are reaped, and the operator reconciles: it may reject the App, break off at any step, lose
its status write after creating Jobs, or fail to delete Jobs afterwards. Everything delicate lies
between "Job created" and "status persisted".

- `Operator.dfy` specifies one reconcile, stage by stage, as a function of the API-server state.
- `Controller.dfy` is the reconciler as written: an App in memory changed step by step, loops over
  Job lists in no particular order, Jobs created on the server, one status write, then deletes.
  `ReconcileApp` is proved to be that function.
- `Protocol.dfy`, `Invariant.dfy` and `Theorems.dfy` run it against all interleavings: an inductive
  invariant and what it means for users. History variables (`Log`) record what happened; the
  operator never reads them.
- `Convergence.dfy` gives the decreasing measure and the fixed point, `Recovery.dfy` says from where
  such runs exist, `Scenarios.dfy` the runs where stronger promises fail, and
  `Witnesses.dfy` that the states behind them are reached.
- `Effects.dfy` and `Sizes.dfy` say what one pass leaves in status, field by field, in terms of the
  Jobs, annotations and spec it met.
- `Causes.dfy` and `Accounts.dfy` relate records, streak and histories to the Jobs, specs and requests
  behind them, over whole runs; `Served.dfy` the release on record to the one served; `Metering.dfy`
  the build counter, which counts before the status write, to the log; and `Deadlines.dfy` the
  exported deadline to the passes.
- `Status.dfy`, `History.dfy`, `Pipeline.dfy`, `Domain.dfy`, `Storage.dfy`: the values and
  calculations a reconcile is made of. `Pipeline.dfy` also models the kubelet and the console.
- `ShellQuote.dfy` (POSIX.1-2017 Shell Command Language, sections 2.2.1, 2.2.2, 2.3 and 2.6.7),
  `PeakMemory.dfy`, `WatchCron.dfy`, `RateLimit.dfy`, `Recorder.dfy`, `GitCred.dfy`: the smaller
  components, each with its whole-run properties.

Assumptions, fixed once: reconciles of one App are serialized and each reads one snapshot of its
Jobs; rebuild tokens are fresh (each value is requested at most once) and their short hash is
injective; a Job is not deleted from outside before its result is persisted, except a build Job on
which the operator has put a TTL; the operator is the only writer of the credential copy.

Where the code and its comments disagree the code is modelled.

- `internal/controller/cleanup.go:383-396` promises that a read cleanup Job is not stamped again
  while its delete keeps failing. This fails exactly when another request of the mode is open,
  because waiting puts the phase back to Pending in the same pass (`Scenarios.HeldRequestRereads`).
- The same comment takes a terminal phase beside a finished Job to mean that this Job's result is
  durable. A deleted Job's result is persisted exactly if it was before or the action had not ended
  (`Theorems.CleanupDurableBeforeDelete`); over an action that ended before, a Job whose start was
  lost is deleted unread and its request runs again (`Witnesses.ResultDroppedUnread`,
  `Witnesses.RequestRunsTwice`). Cleanup is at least once, not exactly once.
- A build outcome is lost in exactly three ways (`Theorems.LostExactly`): a rebuild that was deferred
  behind it (`Scenarios.DeferredRebuildLosesOutcome`), a new token that arrives before a Job whose
  status write conflicted is adopted (`Scenarios.UnadoptedJobIsLost`), or the TTL.
- `internal/controller/app_controller.go:668-673` puts that TTL on a succeeded Job before the status
  write (`Theorems.TtlPrecedesTheRecord`, `Witnesses.TtlWithoutRecord`). If the write is lost and
  the Job expires, a build that status names stays in flight until the next token, because a
  missing Job is ignored (`Theorems.DeadEndStep`, `Witnesses.DeadEndHappens`), and one that status
  does not name yet is built a second time (`Theorems.CreatedAgainIff`,
  `Witnesses.TokenBuiltTwice`). These are the only exceptions to convergence and to one Job per token.
- `internal/controller/cleanup.go:202-214` protects the releases status names from a cleanup. The
  one being served is among them exactly if the build that completed last was recorded, with its
  report (`Served.ServedIsCurrentIff`); a superseded one is not (`Served.ServedIsUnprotected`).
- `internal/controller/app_controller.go:470-471` leaves the Ready condition alone in phase Degraded,
  taking it to be set already. It holds what the latest other write made it (`Theorems.ReadyIsDecided`),
  so Ready and Degraded can both be true (`Witnesses.ReadyAndDegraded`).
- The timeline is derived from the live spec, not from the one the pod was built from. It stays
  linear, and the console on a real container, exactly as long as no setup step is added under a
  build already past it (`Pipeline.TimelineUnderEdits`, `Pipeline.ConsoleUnderEdits`).
- `internal/controller/platformfault.go:7-9` means to report the platform's failures and not the
  user's. A failed build is reported exactly if no user step that the live spec lists broke in its
  pod (`Theorems.PlatformBlamedIff`, `Causes.RecordedFailureBlamed`). So a build that runs into the
  user's own timeout and loses its pod is reported (`Witnesses.TimeoutReported`), and so is a setup
  step that breaks and is edited out of the spec (`Witnesses.WronglyReported`).
- `internal/controller/app_controller.go:576-578` says that the recorded images reflect the build
  that actually ran. They do exactly if the pass created the Job or the spec's images were not edited
  since (`Scenarios.AdoptedImages`, `Witnesses.OtherImages`).
- `internal/controller/metrics.go:91-95` means the frozen deadline to be the one in force when the
  running build was first recorded. It is exactly if the build that opened the stretch of in-flight
  records has the same in it (`Recorder.DeadlineIsOwnIff`). So a build started over one still shown
  in flight gets the other's (`Deadlines.DeadlineOfAnother`), and one whose end was observed but not
  written gets a later one (`Deadlines.DeadlineRestarts`).

Check everything with `dafny verify dfyconfig.toml`.

## Model

| member | source | states |
|---|---|---|
| `Domain.DecideBuild` | internal/domain/trigger.go:29-37 | a build starts iff the token is not the processed one and none is active; nothing is to do iff the tokens are equal |
| `Domain.DecideCleanup` | internal/domain/cleanup.go:32-40 | a cleanup starts iff a non-empty, unprocessed request meets neither an active build nor an active cleanup |
| `Operator.BuildJobNameInjective` | internal/controller/buildpod.go:528-530 | two tokens of one app give the same Job name iff they are equal |
| `Operator.TerminalBuild` | internal/controller/app_controller.go:637-717 | the record of an ended build is terminal, keeps Job name and trigger, and is a success iff the Job completed |
| `Theorems.ReachableInv` | internal/controller/app_controller.go:109-296 | the protocol invariant holds in every state reachable by any interleaving of users, Jobs and passes that succeed, are rejected, break off or lose their status write |
| `Theorems.SingleActiveBuild` | internal/controller/app_controller.go:220-240 | in every reachable state at most one build Job is unfinished |
| `Theorems.OneJobPerToken` | internal/controller/app_controller.go:547-556 | over a whole run at most one build Job is ever created per token, although a status write after Create may be lost and the Job adopted later, unless the cluster deleted the Job before it was recorded |
| `Theorems.RecordedAtMostOnce` | internal/controller/app_controller.go:613-626 | each Job's outcome enters persisted status at most once; status names the Job of the last processed token and is terminal iff that Job was recorded; (previous, current) are the last two recorded releases |
| `Theorems.RecordedUnlessSuperseded` | internal/controller/app_controller.go:220-244 | a finished Job named in status is recorded by the next persisted pass iff that pass starts no other build, and status keeps naming it under the same condition |
| `Theorems.OnlyStartSupersedes` | internal/controller/app_controller.go:226-240 | no step but a persisted pass that starts a build takes a Job out of status |
| `Theorems.SupersededForever` | internal/controller/app_controller.go:226-244 | a Job that neither status nor the pending token names stays unrecorded for the rest of every run |
| `Theorems.LostExactly` | internal/controller/app_controller.go:226-244 | the three ways to lose an outcome and no fourth: a created, unrecorded Job still named by status or by the pending token is given up by a step iff that step is a persisted pass starting another build over it in status, or a new token arriving before a pass adopted it into status; and it goes iff its TTL runs out |
| `Theorems.FailedJobsAreRetained` | internal/controller/app_controller.go:606-673 | asymmetric retention: in every reachable state only Jobs that completed have a TTL, so a failed Job is kept |
| `Theorems.TtlPrecedesTheRecord` | internal/controller/app_controller.go:668-673 | a TTL appears only when a pass observes the success of an unrecorded Job; that Job is then recorded iff this very pass persists |
| `Theorems.StrandedHasExpired` | internal/controller/app_controller.go:613-617 | status shows a build in flight whose Job is gone only if that Job expired unrecorded |
| `Theorems.DeadEndStep` | internal/controller/app_controller.go:613-617 | such a state, with its token processed, is left by a step iff that step is a new token; until then nothing is created or recorded |
| `Theorems.DeadEndForever` | internal/controller/app_controller.go:613-617 | in every run without a new token the build stays in flight, its record unchanged |
| `Theorems.CreatedAgainIff` | internal/controller/app_controller.go:547-556 | a pass creates a Job for the second time iff it expired unrecorded, and then no pass had adopted it into status |
| `Theorems.StatusTellsTheLog` | internal/controller/app_controller.go:741-750 | both histories are prefixes of the reversed log of recorded builds (all / failed and trimmed), Job names in the history are distinct, the streak counts the scheduled failures after the last success, "succeeded once" iff a success was recorded |
| `Theorems.DegradedIsLatestVerdict` | internal/controller/app_controller.go:439-493 | condition types are unique; Degraded is true iff the latest persisted event among rejections and recorded builds was a rejection or a failure |
| `Theorems.SuccessNeverReverts` | internal/controller/app_controller.go:426-428 | once true, "has succeeded once" stays true for the rest of every run |
| `Theorems.PhaseTellsTheStory` | internal/controller/app_controller.go:410-424 | each derived phase, in every reachable state, as an if-and-only-if over the log: awaiting until something was started, degraded after a bad verdict once a build ended, ready after a good one unless a build is observed running |
| `Theorems.DisplayedPhase` | internal/controller/app_controller.go:459-493 | the persisted phase in every reachable state: none before the first status write, Degraded after a persisted rejection, the derived one after a persisted pass |
| `Theorems.ReadyIsDecided` | internal/controller/app_controller.go:459-493 | Ready in every reachable state: it holds iff the latest write that was a rejection or showed another phase than Degraded was a pass in phase Ready |
| `Theorems.FailureIsExplained` | internal/controller/app_controller.go:688-717 | for every pod and every live spec, the record of a failed build names the container that broke with its reason, exit code, limit and finish time iff the live timeline lists it, and otherwise blames no step and adds no termination |
| `Theorems.BrokenContainerBlamed` | internal/controller/platformfault.go:7-32 | a failed build with a broken container is reported as the platform's iff that is the copier or one the live timeline does not list; the report is right iff a broken setup or fetch is still listed |
| `Theorems.UnexplainedFailure` | internal/controller/platformfault.go:24-31 | a failed build whose pod is gone or shows no broken container, such as a timeout, blames no step and is reported as the platform's |
| `Theorems.PlatformBlamedIff` | internal/controller/platformfault.go:7-32 | every failed build, for every pod or none and every live spec, is reported as the platform's iff no user step that the live timeline lists broke in its pod |
| `Theorems.CleanupIsExclusive` | internal/controller/cleanup.go:292-336 | a cleanup Job appears only through the operator, only when no build and no cleanup Job is unfinished, and only under a name that is free, so Create never meets an existing Job |
| `Theorems.SingleActiveCleanup` | internal/controller/cleanup.go:301-333 | in every reachable state at most one cleanup Job is unfinished |
| `Theorems.ResultIsVisible` | internal/controller/cleanup.go:366-437 | a pass that reads a cleanup result leaves its own time, the bytes that very Job freed (none for a failure or an unreadable result) and its summary or failure text in persisted status |
| `Theorems.CleanupDurableBeforeDelete` | internal/controller/app_controller.go:280-294 | the operator deletes a cleanup Job only after a successful status write; its result is persisted by then iff it was before or the action had not ended, in particular whenever its start was persisted |
| `Theorems.MeasureDurableBeforeDelete` | internal/controller/measure.go:153-176 | a measure Job is deleted only after a successful write whose sizes hold its bytes (or, for the cache, the size a cache prune reported in the same pass) |
| `Invariant.StepKeepsInv` | internal/controller/app_controller.go:109-296 | every enabled step keeps the invariant |
| `Invariant.PersistedPhase` | internal/controller/app_controller.go:459-472 | the phase a pass persists is the one its own persisted status derives |
| `Invariant.CleanupsAfter` | internal/controller/cleanup.go:292-357 | after any pass there is at most one new cleanup Job, fresh and from an idle state; finished ones go only after a successful write |
| `Invariant.RecordOutcomeLedger` | internal/controller/app_controller.go:637-751 | recording one outcome keeps histories, streak, success flag and conditions in step with the log extended by it |
| `Convergence.CalmPassDescends` | internal/controller/app_controller.go:209-295 | a pass without rejection, fault or failed delete never adds to the work left, and over finished Jobs strictly lowers it until none is left |
| `Convergence.CalmStarts` | internal/controller/cleanup.go:308-333 | a cleanup starts iff it is asked for, no build runs or starts, no cleanup runs, its last Job is gone and, for releases, the cache one did not just start |
| `Convergence.Converges` | internal/controller/app_controller.go:109-296 | from every reachable state, once thirteen calm reconciles met only finished Jobs, with any others in between: build marker and cleanup markers equal their tokens (or the cleanup token is empty), no Job is unfinished and no cleanup Job is left; the last build is terminal iff its Job did not expire unrecorded, in particular if the run did not start at a dead end and no Job expires unrecorded in it |
| `Convergence.RestRecordsAll` | internal/controller/app_controller.go:226-244 | then every build Job ever created was recorded or given up, or is the expired one of a dead end |
| `Convergence.QuietPass` | internal/controller/app_controller.go:244-294 | a quiet state is a fixed point of the reconcile |
| `Convergence.StatusSettles` | internal/controller/app_controller.go:269-289 | after the fourteenth such reconcile persisted status never changes again |
| `Recovery.AlwaysRecoverable` | internal/controller/app_controller.go:109-296 | a calm run of thirteen reconciles in which nothing expires unrecorded leads from a reachable state to a converged one iff that state is no dead end |
| `Scenarios.DeferredRebuildLosesOutcome` | internal/controller/app_controller.go:226-244 | from every new App with a token: a rebuild requested while the build runs makes its outcome, whatever it was, unrecorded for good |
| `Scenarios.UnadoptedJobIsLost` | internal/controller/app_controller.go:547-556 | from every new App with a token: the status write that would name the first Job conflicts, a new token arrives before it is adopted, and its outcome, whatever it was, is unrecorded for good |
| `Scenarios.AdoptedImages` | internal/controller/app_controller.go:576-579 | the images on record are those the build runs with iff the pass created the Job or the spec was not edited since |
| `Scenarios.ManualTriggerKept` | internal/controller/app_controller.go:581-588 | the last manual trigger changes iff a persisted pass starts a build for a user |
| `Scenarios.ReusedTokenIsRecordedAgain` | internal/controller/app_controller.go:554-556 | a pass that starts a build records an outcome at once iff the token's Job is still there, so fresh tokens are needed |
| `Scenarios.ClearedTokenStartsBuild` | internal/domain/trigger.go:29-37 | an annotation cleared to "" starts a build; an empty cleanup request starts none |
| `Scenarios.BuildStartsDespiteCleanup` | internal/controller/app_controller.go:220-240 | exclusion is one-sided: a build starts over a running cleanup |
| `Scenarios.TerminalActionDropsResult` | internal/controller/cleanup.go:383-400 | a finished cleanup Job over an already terminal action is deleted unread, and its request stays exactly as open as it was |
| `Scenarios.HeldRequestRereads` | internal/controller/cleanup.go:308-329 | while the delete of a read Job fails, the Job is read again iff another request of its mode is open |
| `Scenarios.ConflictedCleanupRunsTwice` | internal/controller/cleanup.go:340-357 | when the status write that starts a cleanup conflicts, the same request runs a second Job, however the first ended; over a terminal action the first one's result is never shown |
| `Witnesses.BuildAndCleanupRunTogether` | internal/controller/app_controller.go:220-240 | a state in which a build and a cleanup Job are both unfinished is reachable |
| `Witnesses.RequestRunsTwice` | internal/controller/cleanup.go:340-357 | from a reachable state with an ended cache action, one request runs two Jobs and status shows neither the first one's result |
| `Witnesses.ResultDroppedUnread` | internal/controller/cleanup.go:383-400 | a reachable state from which a pass deletes a cleanup Job whose result never enters status |
| `Witnesses.ResultReadTwice` | internal/controller/cleanup.go:308-329 | a reachable state from which a persisted pass reads a result and leaves it to be read again |
| `Witnesses.EmptyTokenIsBuilt` | internal/domain/trigger.go:29-37 | a state whose status names the Job of the empty token is reachable |
| `Witnesses.TimelineBreaks` | internal/controller/app_controller.go:630-635 | a reachable state whose persisted timeline is not linear and points the console to setup, of which the pod of its Job has no container |
| `Witnesses.ReadyAndDegraded` | internal/controller/app_controller.go:459-472 | a reachable state in which the Ready and the Degraded condition are both true |
| `Witnesses.WronglyReported` | internal/controller/platformfault.go:7-32 | a reachable state whose last recorded build broke in setup and was reported as the platform's failure |
| `Witnesses.TimeoutReported` | internal/controller/platformfault.go:24-31 | a reachable state whose last recorded build ran into its deadline and was reported as the platform's failure |
| `Witnesses.TtlWithoutRecord` | internal/controller/app_controller.go:668-673 | a reachable state with a TTL on a Job that was not recorded |
| `Witnesses.DeadEndHappens` | internal/controller/app_controller.go:613-617 | a reachable state whose status shows a build in flight, its token processed, and whose Job has expired |
| `Witnesses.TokenBuiltTwice` | internal/controller/app_controller.go:547-556 | a reachable state in which two Jobs of one token were created |
| `Witnesses.OtherImages` | internal/controller/app_controller.go:576-579 | a reachable state from which a persisted pass records images the adopted Job does not have |
| `Controller.App.SetCondition` | internal/controller/app_controller.go:439-456 | the condition list afterwards is the old one with this condition replaced in place or appended, the transition time kept when status and reason are unchanged |
| `Controller.App.RefreshPhase` | internal/controller/app_controller.go:459-472 | status becomes the derived phase with the matching Ready condition |
| `Controller.App.RecordSize` | internal/controller/measure.go:249-264 | size, delta and time become those of `RecordSize`; an identical re-read changes nothing |
| `Controller.IsBuildActive` | internal/controller/app_controller.go:531-543 | true iff some listed build Job is unfinished |
| `Controller.FreshRecord` | internal/controller/app_controller.go:557-580 | the record of a build about to run, with trigger, commit, steps and images |
| `Controller.StartBuild` | internal/controller/app_controller.go:547-591 | Job created or adopted, token recorded, build record replaced, manual trigger and build time stamped, as `Operator.StartBuild` |
| `Controller.ApplyCopierTermination` | internal/controller/app_controller.go:822-843 | release pointers shift by one report with the time they serve since, sizes merge without "source", count and time follow, as `ApplyCopier` |
| `Controller.MaybeStartMeasurement` | internal/controller/measure.go:126-143 | measure Jobs are created iff none was measured within the interval and no build is active, the cache one first, up to the first Create that fails |
| `Controller.FinishRecord` | internal/controller/app_controller.go:688-717 | pod name, step timeline, failed step and termination of an ended build |
| `Controller.StampStepMessage` | internal/controller/termination.go:49-56 | the message goes on the first step of that name and nowhere else |
| `Controller.ObserveSuccess` | internal/controller/app_controller.go:640-673 | what a completed Job writes before its timeline, with the measurement debounce taken from before the copier report, and the TTL put on its Job |
| `Controller.IsPlatformFault` | internal/controller/platformfault.go:10-32 | true for the operator's configuration, the copier, and a failed build that no user step is blamed for, and for nothing else |
| `Controller.ReportFailure` | internal/controller/app_controller.go:703-731 | both failure conditions with the Job's message, or reason and message of an OOM kill, and a report iff the platform is at fault |
| `Controller.ObserveOutcome` | internal/controller/app_controller.go:637-751 | status becomes `RecordOutcome` of the old one, with the Jobs created and the TTL set; a report iff the build failed and the platform is at fault |
| `Controller.RecordHistory` | internal/controller/app_controller.go:740-750 | both histories and the streak after one more record |
| `Controller.ObserveBuild` | internal/controller/app_controller.go:609-752 | no Job, missing Job, already terminal, running and ended, as `Operator.ObserveBuild` |
| `Controller.MeasureAnyOrder` | internal/controller/measure.go:159-174 | harvesting measure Jobs gives the same status in any list order |
| `Controller.ObserveMeasurement` | internal/controller/measure.go:153-176 | all readable measure Jobs are merged and returned |
| `Controller.CleanupAnyOrder` | internal/controller/cleanup.go:372-435 | harvesting cleanup Jobs gives the same status in any list order |
| `Controller.ReadResult` | internal/controller/cleanup.go:401-434 | action record, sizes and release count a finished cleanup Job leaves |
| `Controller.ObserveCleanup` | internal/controller/cleanup.go:366-437 | all finished cleanup Jobs are returned, read unless their action is terminal |
| `Controller.IsCleanupActive` | internal/controller/cleanup.go:273-284 | true iff some listed cleanup Job is unfinished |
| `Controller.StartCleanup` | internal/controller/cleanup.go:340-357 | Job created, action marked running under its request, as `Operator.StartCleanup` |
| `Controller.ReconcileCleanup` | internal/controller/cleanup.go:292-336 | observe, then decide both actions in turn with the started flag and the hold on harvested modes |
| `Controller.Fail` | internal/controller/app_controller.go:476-493 | a rejection is persisted as Ready=False and Degraded=True, or lost with its write, and reported iff the platform is at fault |
| `Controller.DeleteJobs` | internal/controller/app_controller.go:304-311 | exactly the harvested Jobs whose delete did not fail are gone |
| `Controller.RunPass` | internal/controller/app_controller.go:220-294 | steps 8 to 12 of a pass, broken off anywhere |
| `Controller.ReconcileApp` | internal/controller/app_controller.go:109-296 | the API server afterwards is `Operator.Reconcile` of the one before, for every rejection, fault and failed delete |
| `Status.SetCondEffect` | internal/controller/app_controller.go:439-456 | setting a condition gives it that value, reason and message, moves its time iff value or reason changed, leaves every other type alone and keeps types unique |
| `Status.PhaseIff` | internal/controller/app_controller.go:410-428 | each derived phase of any status as an iff over success time or hash, build phase and Degraded |
| `Status.ReadyFollowsPhase` | internal/controller/app_controller.go:459-472 | deriving the phase sets Ready in phase Ready, clears it while a build is awaited or observed, and leaves it when degraded |
| `Status.RefreshPhaseIdempotent` | internal/controller/app_controller.go:459-472 | deriving the phase twice is deriving it once |
| `History.AppendEffect` | internal/controller/buildsteps.go:168-181 | a new record goes in front and exactly the oldest beyond the cap go, a negative cap being none; a record of a Job that has an entry takes its place |
| `History.TrimEffect` | internal/controller/buildsteps.go:227-242 | the trimmed copy differs in its timeline only and keeps the first step of the failed one's name, or of the first that ended badly |
| `History.AppendBuildHistory` | internal/controller/buildsteps.go:168-181 | replaces the entry of the same Job or pushes to the front and cuts at the cap |
| `History.TrimToFailedStep` | internal/controller/buildsteps.go:227-242 | a copy with at most one step, taken from the record |
| `History.HistoriesArePrefixes` | internal/controller/buildsteps.go:168-220 | one more record keeps both histories prefixes of the reversed log under any caps |
| `History.StreakStep` | internal/controller/buildsteps.go:190-204 | the running counter equals the number of scheduled or untriggered failures after the last success |
| `History.FailedEntriesTrimmed` | internal/controller/buildsteps.go:215-242 | every entry of the failed history is a failure with at most one step |
| `History.HistoryJobsDistinct` | internal/controller/buildsteps.go:168-181 | Job names in the history are distinct |
| `Pipeline.SetupIs` | internal/controller/buildsteps.go:14-62 | setup runs iff it is not skipped and is configured or a managed toolchain is asked for, with its own command or the default on its own image; setup and fetch are listed iff they run or are configured |
| `Pipeline.FillStep` | internal/controller/buildsteps.go:280-296 | status, times, limit and peak of one container's step |
| `Pipeline.DeriveBuildSteps` | internal/controller/buildsteps.go:268-302 | the timeline loop computes the pointwise projection of the pod onto the steps |
| `Pipeline.SeenIs` | internal/controller/buildsteps.go:111-118 | what the pod shows of a container is the first status of its name, among the main containers for the copier and the init ones for all others |
| `Pipeline.StepShowsContainer` | internal/controller/buildsteps.go:78-98 | a step with a container shows its status as iffs over the container's state, its times and limit once it has started, and no peak before its end |
| `Pipeline.StepWithoutContainer` | internal/controller/buildsteps.go:268-302 | without a pod, and for the release step, a step is its status and nothing else |
| `Pipeline.StepShowsPeak` | internal/controller/buildsteps.go:334-355 | end to end: the peak in a wrapped step is the number its shim wrote after the container's log, iff that log leaves no unterminated line |
| `Pipeline.FindFailedStep` | internal/controller/buildsteps.go:247-254 | the first failed or aborted step; none iff there is none |
| `Pipeline.StepsAreSubsequence` | internal/controller/buildpod.go:421-439 | for every spec the applicable steps without release are, in order, a subsequence of the pod's containers |
| `Pipeline.PodRunsAreSequential` | internal/controller/buildpod.go:421-439 | in every run of a pod that starts containers one by one, all before a started one have passed |
| `Pipeline.PodRunsAreTimed` | internal/controller/buildpod.go:421-439 | under a non-decreasing clock no container of such a run starts before an earlier one has finished |
| `Pipeline.TimelineUnderEdits` | internal/controller/buildsteps.go:268-302 | for every pod such a run can produce under one spec and every live spec: the timeline is Succeeded*, at most one other, Pending*, iff the release step is not claimed before the copier passed and no setup step was added under a build already past it |
| `Pipeline.TimelineIsLinear` | internal/controller/buildsteps.go:268-302 | the same for an unedited spec: linear iff the release step is not claimed before the copier passed |
| `Pipeline.SetupEditedIn` | internal/controller/buildsteps.go:65-75 | the edit that breaks it: setup configured under a pod built without it makes the timeline not linear and the console show a container that does not exist |
| `Pipeline.StepTimesAreOrdered` | internal/controller/buildsteps.go:315-332 | steps of a timeline never overlap, whatever the live spec: once a step has started every earlier one with a container has finished, and not after that start |
| `Pipeline.BlamedStep` | internal/controller/buildsteps.go:247-254 | for every pod and every live spec the step blamed is the container that broke iff the timeline lists it, else none |
| `Pipeline.NobodyBlamed` | internal/controller/buildsteps.go:247-254 | no step is blamed while no container broke |
| `Pipeline.FindContainerStatus` | internal/controller/buildsteps.go:111-118 | the first status of that name |
| `Pipeline.FailedStepIsUnique` | internal/controller/buildsteps.go:247-254 | on a linear timeline the failed step reported is the only one that ended badly |
| `Pipeline.DefaultContainer` | console/internal/server/server.go:669-702 | the three loops compute the documented priority: failed, running, first pending after a success, first, last |
| `Pipeline.ChosenIs` | console/internal/server/server.go:669-702 | the choice on any timeline, case by case: the first step that ended badly, else the first running, else the first pending after a success, else the first while none has begun, the last when all are done |
| `Pipeline.ChosenFollowsTheBuild` | console/internal/server/server.go:669-702 | on a linear timeline the choice is the first step that has not succeeded, else the last |
| `Pipeline.ConsoleUnderEdits` | console/internal/server/server.go:623-702 | end to end for every pod and every live spec: the console shows the first listed container that has not passed, else the copier; a setup step the pod does not have is shown iff it was added late, the clone has passed and no listed container runs or failed |
| `Pipeline.ConsoleShowsActiveContainer` | console/internal/server/server.go:623-702 | the same for an unedited spec: always a container of the pod |
| `ShellQuote.RoundTrip` | images/shim/main.go:128-160 | tokenizing and quote-removing the printed line by the POSIX shell rules gives back exactly the argument vector |
| `ShellQuote.QuoteInjective` | images/shim/main.go:128-160 | different argument vectors print differently |
| `ShellQuote.BareIff` | images/shim/main.go:138-160 | a word is printed bare iff it is not empty and all its characters are safe |
| `ShellQuote.QuoteArgv` | images/shim/main.go:130-136 | the printing loop yields a line that reads back as its arguments |
| `PeakMemory.PeakRoundTrip` | internal/controller/buildsteps.go:334-355 | after log text without a complete report line the parser reads the shim's number iff the unterminated rest of that text is blank; otherwise 0, never a wrong number |
| `PeakMemory.NewlineTerminated` | images/shim/main.go:187-218 | text that is empty or ends in a newline leaves no unterminated rest |
| `PeakMemory.EarlierReportWins` | internal/controller/buildsteps.go:342-355 | a report line already in the log decides |
| `PeakMemory.ParsePeakMemory` | internal/controller/buildsteps.go:342-355 | for every input a value between 0 and 2^63-1, that of the first report line |
| `PeakMemory.Unreadable` | internal/controller/buildsteps.go:342-355 | a reported value that is no number or negative reads as 0 |
| `WatchCron.AcceptsExactly` | internal/domain/watchschedule.go:16-41 | accepted are exactly whole minutes 1..59 and whole hours 1..23 |
| `WatchCron.RejectsFor` | internal/domain/watchschedule.go:16-41 | each rejection and its reason as an iff: below a minute, not whole minutes, an hour or more but not whole hours, above 23 hours |
| `WatchCron.EveryWindowFires` | internal/domain/watchschedule.go:16-41 | for every accepted interval every window of that length contains a firing of the emitted cron |
| `WatchCron.WindowsFireOnceIff` | internal/domain/watchschedule.go:16-41 | every window contains exactly one firing iff the interval divides the hour or the day |
| `Storage.ValidateVolume` | internal/domain/storage.go:127-152 | accepts iff all pairs of set thresholds are strictly increasing, not only adjacent ones; an error names two that are not |
| `Storage.IncreasingMeans` | internal/domain/storage.go:127-152 | the accepted order in the volume's own terms: cleanup below alert below cap, wherever both are set |
| `Storage.ValidateStorage` | internal/domain/storage.go:56-63 | accepts iff every volume does |
| `Storage.EvaluateThresholdState` | internal/domain/storage.go:76-101 | the loop over the map, in any order, gives the worst per-volume severity |
| `Storage.OperatorKeysResolve` | internal/domain/storage.go:107-125 | which volume's thresholds each size key of the operator is held against |
| `Storage.WorstIff` | internal/domain/storage.go:76-101 | critical iff a measured key reaches a set cap of its volume, alert iff none does and one reaches a set alert, else OK as soon as anything is measured |
| `Storage.WorstIsLeastUpperBound` | internal/domain/storage.go:76-101 | the state is reached by some volume and exceeded by none; unmeasured iff nothing is measured |
| `Storage.WorstMonotone` | internal/domain/storage.go:76-101 | more or larger sizes never lower the state |
| `RateLimit.OperatorLimiter.Allow` | internal/observability/ratelimit.go:40-61 | decision and state of one call |
| `RateLimit.ConsoleLimiter.Allow` | console/internal/sentryhttp/ratelimit.go:40-61 | the same, with the sweep stamped before it deletes from the live map |
| `RateLimit.PruningChangesNothing` | internal/observability/ratelimit.go:40-61 | on every call sequence under a non-decreasing clock each call is decided as by a limiter that never forgets |
| `RateLimit.SendsAreSpaced` | internal/observability/ratelimit.go:56-60 | two allowed sends of one key are at least an hour apart |
| `RateLimit.SilenceEnds` | internal/observability/ratelimit.go:56-60 | a call an hour after every allowed send of its key is allowed |
| `RateLimit.EntriesStayYoung` | internal/observability/ratelimit.go:47-54 | after each call every entry is younger than the window plus one sweep interval |
| `RateLimit.JoinInjective` | internal/observability/ratelimit.go:65-67 | fingerprints that are not empty and hold no NUL share a key iff they are equal |
| `Recorder.MetricsRecorder.State` | internal/controller/metrics.go:109-152 | an unknown app gets its entry and all counters at 0, a known one nothing |
| `Recorder.DegradedReason` | internal/controller/metrics.go:191-194 | the reason of a true Degraded condition with value 1, else none with 0 |
| `Recorder.MetricsRecorder.RecordApp` | internal/controller/metrics.go:162-250 | new state and the value of every series of every app |
| `Recorder.MetricsRecorder.RecordTerminalBuild` | internal/controller/metrics.go:273-296 | a finished build of a Job other than the last counted one increments its series by one |
| `Recorder.MetricsRecorder.ForgetApp` | internal/controller/metrics.go:256-268 | exactly the app's series and entry are gone |
| `Recorder.SeriesIffState` | internal/controller/metrics.go:252-268 | at every point of every interleaving an app has series iff it has a state entry |
| `Recorder.RecordIsExact` | internal/controller/metrics.go:162-240 | after a record: one degraded series, four phases with exactly one at 1, storage series exactly for what is measured or limited |
| `Recorder.RecordShows` | internal/controller/metrics.go:162-250 | after a record: streak, its threshold, running-since, the live deadline when idle, and each used and alert series with its value; counters as before or born at 0 |
| `Recorder.OthersUntouched` | internal/controller/metrics.go:162-296 | a call about one app changes no series and no state of another |
| `Recorder.DeadlineIsFrozen` | internal/controller/metrics.go:209-221 | over every stretch of in-flight records the exported deadline is the first one recorded other than 0, whatever the spec says meanwhile |
| `Recorder.FlightHasStretch` | internal/controller/metrics.go:209-221 | whenever the latest record of a known app shows a build in flight, such a stretch has led there |
| `Recorder.DeadlineIsOwnIff` | internal/controller/metrics.go:91-95 | over every such stretch the exported deadline is the running Job's own, the one that Job was first recorded with in the whole trace, iff the Job that opened the stretch has the same in it; a deadline from before the stretch comes first; the opening Job is that of the first record unless its deadline was 0 |
| `Recorder.BuildsAreCountedOnce` | internal/controller/metrics.go:270-296 | the build total equals the number of changes of Job name in the sequence of observed ends |
| `Recorder.CountersAreExact` | internal/controller/metrics.go:273-296 | every build and OOM counter at every point of every trace is the number of ends, under another Job name than the one observed before and since the last forget, with that result and trigger (none counting as scheduled) or that container |
| `Metering.SightingsTellTheLog` | internal/controller/app_controller.go:734-750 | over every run of a new App the builds observed by passes that persisted are exactly the log of recorded builds, and none of them is observed again |
| `Metering.CounterTellsTheLog` | internal/controller/app_controller.go:734-750 | the build total is the number of recorded builds plus the observations whose write was lost and which were not directly repeated |
| `Metering.CountedBeforeRecorded` | internal/controller/app_controller.go:734-750 | a run of a new App whose first build is counted while no build is recorded |
| `Deadlines.DeadlineOfAnother` | internal/controller/app_controller.go:131-282 | a run of a new App, with all its calls to a recorder, in which a build started over one still shown in flight is shown with the deadline of that one |
| `Deadlines.DeadlineRestarts` | internal/controller/app_controller.go:131-283 | a run of a new App with one build, with all its calls, in which the write that would end the build is lost and the build is shown in flight again with a later deadline than it was first recorded with |
| `Recorder.TraceHappens` | internal/controller/metrics.go:162-296 | every sequence of calls has a trace |
| `Causes.RunKeepsCauses` | internal/controller/app_controller.go:637-751 | at every point of every run each record is the finished form of a build not ended before, made from the Job and spec its pass saw, and the releases on record are those these Jobs reported |
| `Causes.RecordedFailureIsExplained` | internal/controller/app_controller.go:688-717 | in every reachable state every failure on record names the container that broke in the pod it was recorded from, with reason, exit code, limit and time, iff the spec of that moment lists it, and otherwise nothing |
| `Causes.RecordedFailureBlamed` | internal/controller/platformfault.go:7-32 | in every reachable state every failure on record was reported as the platform's iff no listed user step broke in the pod it was recorded from |
| `Causes.ReleasesAreReports` | internal/controller/app_controller.go:822-831 | in every reachable state a release is on record under a Job iff that Job was recorded and reported it |
| `Accounts.StartedRecord` | internal/controller/app_controller.go:557-580 | a persisted pass that starts a build records it as manual iff a user asked, else as a commit's iff one is named, else as the clock's, with user, commit, Job name, start time, one more attempt and the rendered images |
| `Accounts.StartKept` | internal/controller/app_controller.go:609-635 | every other pass leaves these fields as they are |
| `Accounts.RecordsTellTheRequest` | internal/controller/buildsteps.go:153-161 | in every reachable state every record, and the build in status, carries Job name, trigger, user and commit of the request it was started for, and the attempts are the number of builds status has named |
| `Accounts.StreakCountsTheClock` | internal/controller/buildsteps.go:190-204 | in every reachable state the streak is the number of the clock's requests that failed since the last success, and BuildSucceeded says how the last recorded Job ended |
| `Accounts.HistoryIsComplete` | internal/controller/buildsteps.go:168-181 | in every reachable state, under a cap that never changed, the history is the whole reversed log of records cut at the cap (all of it without one) |
| `Accounts.FailedHistoryIsComplete` | internal/controller/buildsteps.go:215-220 | the same for the failed history and the trimmed failures |
| `Accounts.FailedEntryKeepsItsStep` | internal/controller/buildsteps.go:227-242 | in every reachable state an entry of the failed history that names a failed step has exactly that step left |
| `Accounts.RunKeepsAccounts` | internal/controller/app_controller.go:740-750 | at every point of every run streak, both history lengths under changing caps, requests and BuildSucceeded follow from the Jobs, specs and requests recorded |
| `Effects.ActionAfterPass` | internal/controller/cleanup.go:308-434 | every field of a cleanup action after a persisted pass, from its request and the Job read: started, waiting, succeeded iff the Job completed, failed iff not, or as it was |
| `Effects.CreatedJob` | internal/controller/buildpod.go:455-475 | the Job a pass creates is new, unfinished, rendered from the live spec and stamped with its hash; all others stay as they are |
| `Effects.TtlAfterPass` | internal/controller/app_controller.go:668-673 | a TTL appears iff a pass gets to see the completed Job of the build it starts, or of the one in status not ended there, and the patch works; none goes |
| `Effects.RunningRecord` | internal/controller/app_controller.go:626-635 | a pass over a running build shows phase, pod and live timeline and moves nothing else of the record |
| `Effects.PendingRecord` | internal/controller/app_controller.go:557-580 | a started build is pending with exactly the applicable steps, all pending |
| `Effects.EndedRecord` | internal/controller/app_controller.go:637-717 | completion time, pod name, message, logs reference and timeline of an ended build |
| `Effects.FailedTimeline` | internal/controller/termination.go:22-70 | the timeline of a failed build: each listed step as the pod shows it, and the reason with its limit on the one that broke and nowhere else |
| `Effects.MarksAfterPass` | internal/controller/app_controller.go:557-666 | processed token, build and success times, built hash from the Job's stamp, staleness against the live spec and serving time after a persisted pass |
| `Effects.OutcomeSays` | internal/controller/app_controller.go:703-720 | BuildSucceeded and its opposite Degraded after an outcome, with reason and message, OOM kills by step and limit |
| `Effects.ConditionsAfterPass` | internal/controller/app_controller.go:269-283 | the persisted conditions are those of the outcome recorded, else the ones before, apart from Ready |
| `Effects.RejectionSays` | internal/controller/app_controller.go:476-481 | a rejection clears Ready and sets Degraded with its reason and message, shows Degraded, and changes nothing else |
| `Effects.SeedsIff` | internal/controller/app_controller.go:210-218 | in every reachable state the operator seeds a token iff the App was never built and has none; it clears user and commit and does nothing else |
| `Effects.MeasuresAfterPass` | internal/controller/measure.go:126-176 | each measure Job after a persisted pass: deleted iff read and the delete works, created iff a success is recorded, the sizes are old or none and no build runs, up to the first failing Create |
| `Sizes.RecordSizeEffect` | internal/controller/measure.go:249-264 | one merged size: value, growth as new minus old iff it differs from one there was, time iff it differs, and no other key |
| `Sizes.SizesAfterPass` | internal/controller/app_controller.go:245-272 | every size and growth after a persisted pass from the reports it read (cleanup, else measurement, else copier, else as before, "source" dropped), the badge over exactly these sizes, and the release count |
| `Sizes.SizesTimed` | internal/controller/measure.go:240-264 | the time of the sizes moves iff the copier reported sizes or a read differs |
| `Served.ServedIsCurrentIff` | internal/controller/cleanup.go:202-214 | in every reachable state, for the Job that completed last: its release is the last on record iff the Job is recorded with a report, it is then the current one in status, and a releases cleanup protects it under the same condition |
| `Served.SuccessIsNews` | internal/controller/app_controller.go:613-626 | a pass records a success only as long as the Job that completed last is not on record, so an older one never takes its place |
| `Served.RunKeepsOrder` | internal/controller/app_controller.go:226-244 | at every point of every run the unfinished Job and the pending token's are the newest created, status names none older than a recorded one, and no completed Job is newer than the one served |
| `Served.ServedIsUnprotected` | internal/controller/cleanup.go:131-145 | a reachable state from which a pass starts a releases cleanup that does not protect the release being served |
| `GitCred.Decide` | internal/controller/gitcred.go:77-85 | the copy is synced only without override and for a known host |
| `GitCred.GitCluster.ReconcileGitCredential` | internal/controller/gitcred.go:225-291 | cluster state, outage flag and decision after one reconcile, or its error, for every combination of failing calls |
| `GitCred.GitCluster.DeleteOwnedSyncedCopy` | internal/controller/gitcred.go:300-312 | the copy goes iff its metadata can be read, this app owns it and the delete works, and nothing else goes; an error iff the read fails or there was one to delete and it did not go |
| `GitCred.GitCluster.GetSource` | internal/controller/gitcred.go:413-428 | the source iff it is there with both keys set |
| `GitCred.GitCluster.ValidateRepoAuthSecret` | internal/controller/gitcred.go:198-214 | accepts iff there is no override or its Secret has both keys set |
| `GitCred.MountIs` | internal/controller/gitcred.go:225-291 | what a reconcile that goes on mounts: the override, nothing off the sync path, the copy while the source is usable, and in an outage the copy iff it is there and its metadata can be read |
| `GitCred.SecretsAfter` | internal/controller/gitcred.go:225-312 | an outage changes no Secret; off the sync path no owned copy remains; no other Secret is ever touched |
| `GitCred.OutageIsLastRead` | internal/controller/gitcred.go:236-262 | at every point of every run the outage flag is set iff the latest read of the source found none usable |
| `GitCred.HashInjective` | internal/controller/gitcred.go:108-114 | without NUL in the user name equal hashes mean equal credentials |
| `GitCred.HashCollidesIff` | internal/controller/gitcred.go:108-114 | a credential shares its hash with another usable one iff it holds a NUL after the first character of the user name or before the last of the password |
| `GitCred.SkipRefinesApply` | internal/controller/gitcred.go:276-290 | over whole runs with failing calls, skipping on an equal hash gives the same states as applying every time |
| `GitCred.SkipIsStaleIff` | internal/controller/gitcred.go:276-290 | the skip leaves a stale copy iff the new credential differs and shares its hash |
| `GitCred.StaleCopyExample` | internal/controller/gitcred.go:104-114 | two usable credentials that share a hash |
| `GitCred.CopyHoldsLastSource` | internal/controller/gitcred.go:225-291 | in every state of every run, failing calls included, the copy holds the last valid source synced, or does not exist if none was since the app left the sync path |
| `GitCred.MountedIsUsable` | internal/controller/app_controller.go:175-186 | whatever a reconcile that goes on decides to mount exists with both keys set |
| `GitCred.PodSpec.AddGitCredential` | internal/controller/gitcred.go:145-169 | without a host nothing changes; with one a container gains the mount and is told the host iff its name is the given one or none is given, and is otherwise as it was |

## Left out

- Controller.ReconcileApp: does not model deletion, the finalizer, the serving objects and the metrics calls of a pass (`Metering` and `Deadlines` relate them to the passes), because one App lives throughout a run and those objects never feed back into status.
- Sending the Sentry reports of terminal failures: whether one is made is modelled (`reported`), its limiter in `RateLimit`.
- Controller.ApplyCopierTermination: does not model the node name, and takes the pod chosen by owner and finish time and its decoded message as given.
- `GitCred`: hosts are already parsed and lower-cased, and the log lines and Events of an outage are left out.
- Served.ServedIsCurrentIff: about the Jobs behind the releases; the output volume, its retention budget and the copier's flip are not modelled beyond "the build that completed last is served".
- ShellQuote.RoundTrip: about words; assignment prefixes and reserved words in command position are not modelled.
- PeakMemory.PeakRoundTrip: the raw number is the decimal text of the cgroup file; reading the file and opening the termination log are not modelled.
- Validation of config, images, node versions, watch settings and storage class, and the upkeep of PVCs, network policies, nginx, Service and Ingress: their outcome is a parameter (a rejection with reason and message, or a fault).
- Server-Side Apply, informers and caches: reads see one snapshot, writes succeed, conflict or fail.
- Hashes of specs and tokens: taken to be injective and represented by what they hash.
- Decoding of the copier, cleanup and measure messages: the Job carries the decoded message, and none where it is absent or unreadable; cleanup messages are kept as the result they summarize.
- Observed generation and PVC capacities, which nothing in the protocol reads.
- Times: integers without saturation. The zero time of a limiter is "never swept".
- `WatchCron`: the interval is a parsed duration; parsing of the duration and the text of the cron expression are not modelled.
- `Storage`: key matching lower-cases ASCII letters only.
- The clone, copier, clock, du and cleanup images, the console's other pages, log highlighting, the Loki client and the shim's process control: scripts, user interface and I/O.
