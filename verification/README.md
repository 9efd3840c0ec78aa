# StriVo verification

StriVo records live streams and runs what it recorded through pipelines of stages: transcribe, analyse, cut,
render. This project models the parts of StriVo whose correctness is hardest to see by reading them, and proves
what they promise.

**The pipeline engine** (`Stages`, `Cycles`, `Executor`, `RunInvariant`, `RegistryInvariant`, `ScanOrder`,
`Registry`, `OperationEffects`, the `Scheduler*` files and `StageHistory`). A durable registry keeps up to 500
runs. Each run is a graph of stages that move through Pending, Running, Done, Failed, Exhausted, Cancelled and
Skipped. A dispatcher takes a snapshot of the ready stages, lets go of the registry's mutex, and marks the entries
running one by one; workers report results, backoff timers ask for retries, people submit, cancel and retry runs,
and the daemon may crash at any moment and reopen the registry from its file. `Registry.dfy` (module `Registries`)
is the registry as the daemon holds it, a class with the same loops and fields; every method is proved equal to a
function of `Executor.dfy`, and `OperationEffects.dfy` says what each of these does in the fields of the runs
alone. `Scheduler.dfy` builds the whole runtime out of these functions: one event per critical section, any
interleaving between events. The theorems speak about every list of events from an empty daemon, and about every
schedule from then on. `SchedulerHazards` and `SchedulerMishaps` say what happens when a request outside their
hypotheses is carried out.

**Resource locks** (`LockOrder`, `Locks`, `SharedLocks`, `LoneWorker`, `Semaphores`). A stage's worker takes
several counting semaphores one after the other, in the order of the locks' debug text, and holds what it has while
it waits.

**Algorithmic cores** (`EditDistance`, `Search`, `SearchScoring`, `Preview`, `PreviewSizes`, `Proxy`, `Pyramid`,
`Uploads`, `UploadMonitor`, `UploadsSent`, `UploadRules`). The two-row Levenshtein loop; the subsequence and scored
fuzzy matchers; the bounded cache of preview frames; the piecewise-linear map between source and proxy time; the
waveform peak pyramid; and the upload watermarks, and what is sent because of them, over any number of checks.

`Wrappers` and `Sequences` hold the shared Option, Result and list helpers.

## What is assumed

The code relies on these without enforcing them; each is a visible condition in the model.

- An accepted run needs nothing that only an earlier life of it had: its states satisfy the run invariant, nothing in
  it is Running, nothing waits for a backoff, and nothing waits in a run that failed (`Startable`, in the guard of
  the `Submit` event). A run with nothing started is (`RunInvariant.FreshRunsAreSound`); validation
  (src/pipeline/executor.rs:117-208) does not look at states. What a refused submission contains does not matter.
- An accepted run brings stage ids no run has had before (`UnusedIds`, in the same guard). Nothing makes it so: a
  graph is submitted as its author wrote it (crates/strivo-web/src/routes/api.rs:796-820), and running it again keeps
  its stage ids (src/pipeline/runtime.rs:612-650). What happens otherwise is below.
- A manual retry fits its run (`RetryAllowed`). What happens otherwise is below.
- Writing the registry file succeeds.
- A stage's lock list names pairwise different resources and no capacity is zero (`Reasonable`; validation refuses
  a zero capacity, nothing refuses a repeated resource). What a repeated resource does is below.
- A worker that runs can end: the events that report a result or a failure are always possible for it, and backoff
  sleeps and timeouts may end at any moment.
- The sample rate of a waveform is positive; the program divides by it. (`Pyramid.Build`.)
- The neighbours in a proxy index's two lists are at least the comparison tolerance apart, which
  `Proxy.KeyframeTimes` proves of each list it makes. The lists come from separate probes (src/media/proxy.rs:399-402)
  and may differ in length.
- A frame's key always decodes to one file, when decodes may fail (`PreviewSizes.OnePathPerKey`). The code makes both
  from the time, but rounds it differently (src/media/preview.rs:186, src/media/proxy.rs:440-445): halfway between
  two milliseconds one key can stand for two files, as for 0.0625 s and 0.062 s. What happens then is below.
- A listed video carries the platform and the id of the channel it was listed for, as the platforms make it
  (src/platform/twitch.rs:726, src/platform/youtube.rs:707; `ListsOwnVideos` in `UploadsSent`).

## What the proofs found

- After a crash, a stage that was waiting for its backoff is never retried. Opening the file re-queues Running
  stages only (src/pipeline/executor.rs:254-259), the backoff sleeps died with the daemon
  (src/pipeline/runtime.rs:330-344), and the new daemon wakes its dispatcher once (src/daemon.rs:1044). What can
  still end such a run is a stage without a dispatch target, which is refused as soon as it is reached
  (src/pipeline/runtime.rs:128-136) and fails the whole run. `SchedulerCrash.CrashRecoversIff` proves that the
  reopened daemon finishes every run if and only if each active run with a Failed stage also has an unfinished
  stage without a dispatch target that waits, directly or through others, for no Failed one; the file shows all of
  that. `SchedulerStranding.ACrashCanStrandARun` gives events that strand a run.
- A run that failed while another of its stages was running can come back from a crash Failed with that stage
  Pending (`SchedulerStranding.ACrashCanLeaveAFailedRunWaiting`, events from an empty daemon). Without a crash a
  Failed run never has a Pending stage (`FailedRunsAreQuiet`); opening the file leaves it one exactly when a stage
  was Pending or Running (`FailedRunReopensWaitingIff`); and nothing the scheduler does by itself touches the run
  again (`AbandonedRunStays`).
- Running a graph again while its first run is still held can strand the new run. Failures and refusals are looked
  up by stage id alone, in the order of a hash map, and stop at the first run that has the id
  (src/pipeline/executor.rs:669-674, 733-742). `SchedulerMishaps.AReusedStageIdCanStrandARun` gives events: submit,
  cancel, submit again, let the stage fail; the old run is found first, the failure is dropped, and the new run is
  Running at rest with no worker. `ScanOrder.FailureReachesItsRunIff` proves that a failure or refusal of a running
  stage reaches its own run in every order if and only if no other held run has the stage id. A submission leaves the
  registry in shape exactly when it reuses no id of a run still held (`RegistryInvariant.SubmitOutcome`), and in a
  registry in shape no order matters (`ScanOrder.ScanOrderDoesNotMatter`).
- An accepted run whose stages an earlier life of it left Running never gets a worker for them, nor a timer for
  those left Failed: `SchedulerHazards.SubmissionIsTendedIff` proves that everything stays tended if and only if the
  run is `Startable`.
- A manual retry keeps the run invariant exactly when it targets a stage of an active run, or an Exhausted stage of
  a Failed one (`RunInvariant.ManualRetrySoundIff`). Retrying a stage of a cancelled run is answered as done, but the
  stage then waits in the cancelled run for ever, unless a stale snapshot still lists the run
  (`SchedulerMishaps.RetryOfACancelledRunIsLost`; `ARetryCanBeLost` gives the events). A retry brings back a second
  active run of the same job exactly when an equivalent run is active by then
  (`RegistryInvariant.RevivalKeepsActiveRunsDifferentIff`; `SchedulerMishaps.ARetryCanDoubleAJob` gives the events).
- The proxy time map indexes past the end of its list for one keyframe and a time at or after it, and for a list of
  images shorter than the list of keyframes and a time from the first keyframe without an image on
  (src/media/proxy.rs:191-194 and 203): `Proxy.MapStopsIff` proves that these are the only ways,
  `Proxy.MapStopsOnAShorterList` gives the second input. Mapping there and back is the identity exactly on lists of
  one length other than one, or when a list is empty (`Proxy.RoundTripsIff`).
- With two keyframes the stretch after the last one has slope one instead of the slope of the last segment (same
  lines); with more it has the segment's (`Proxy.TailFollowsLastSegmentIff`, `Proxy.TwoKeyframesTail`).
- The comment on `level_for_points` (src/media/pyramid.rs:84-86) promises the coarsest level that fits; the code
  returns the first, which is the finest. `Pyramid.LevelForPointsIsCoarsestIff` proves that the two agree exactly
  when there are fewer than two levels or the last but one does not fit; `Pyramid.ChosenLevelNeedNotBeCoarsest`
  gives an input where they differ. The model follows the code.
- The fuzzy matcher takes the leftmost match, which is not always the one its own bonuses score highest ("ab" in
  "a ab": `SearchScoring.LeftmostNeedNotScoreBest`). It is exactly when it earns what a table of best earnings says
  (`SearchScoring.ScoresBestIff`); in particular for every leftmost match in one piece at the start of a
  word (`WordStartRunScoresBest`) and every prefix (`PrefixScoresBest`).
- A worker whose list names a resource more often than its capacity allows waits for itself until the timeout:
  `LoneWorker.LoneWorkerFinishesIff` proves it for a worker with no other beside it, in both directions;
  `Locks.RepeatedLockBlocksItself` is such a run. Several workers can also block each other with a list each of them
  could finish alone: two that name a processor of capacity two twice (`Locks.SharedRepeatsDeadlock`).
- With one key for two files a larger preview cache can hold less than a smaller one
  (`PreviewSizes.ALargerCacheCanHoldLess`); otherwise it never does (`PreviewSizes.LargerCacheHoldsMore`).
- A video listed late, after a newer one was seen, is never selected (`Uploads.LateListingIsNeverSelected`).
- A selected video whose dedupe lookup fails (src/monitor/mod.rs:721-724) is dropped for good, because the
  watermark advances past it all the same. `UploadsSent.EverSentIff` proves, over any checks while the channel stays
  opted in, that a selected video with a url of its own is ever sent exactly when the check that selects it finds
  the url free and its lookup answers "not recorded"; `UploadsSent.AFailedLookupLosesAVideo` gives checks, as many
  as one likes, none of which sends it.
- When opted-in channels exist but the job store is missing, forgotten watermarks are dropped from memory but not
  from the file (src/monitor/mod.rs:588-605). `UploadMonitor.FileStaysInStepIff` proves that memory and file stay in
  step if and only if nothing was forgotten, no channel is opted in, or the store is there;
  `UploadsSent.ARestartRemembersWhatWasForgotten` gives checks after which a restarted monitor picks a video the
  running one does not.

## Model

| member | source | states |
|---|---|---|
| Cycles.CycleSearch.Cycle | src/pipeline/stage.rs:336-350 | a returned list starts and ends at one stage and every hop is an input edge; none is returned exactly when the graph has no cycle, and then the order in which stages were finished is topological and covers every stage |
| Cycles.CycleSearch.Dfs | src/pipeline/stage.rs:351-376 | ends on every graph, dangling inputs and self-loops included; either closes a real cycle or finishes the stage and leaves the path as it was |
| Cycles.AcyclicIffOrdered | src/pipeline/stage.rs:326-376 | having no cycle and having a topological order are the same |
| Cycles.MinimalStage | src/pipeline/stage.rs:336-376 | any non-empty set of stages of an acyclic graph has a member none of whose inputs is in the set |
| Registries.ValidationErrors | src/pipeline/executor.rs:117-197 | the report names every broken rule and no kept one, in the published order of the rules |
| Registries.Validate | src/pipeline/executor.rs:199-208 | a refusal names the first broken rule, and there is none exactly when the graph is accepted |
| Registries.PipelineRegistry.Open | src/pipeline/executor.rs:213-279 | no file gives an empty registry; text that cannot be parsed, or one invalid run, gives an empty registry and sets the file aside under the name that says which; any other file gives its runs in order with interrupted work re-queued |
| Registries.PipelineRegistry.Persist | src/pipeline/executor.rs:285-309 | the file afterwards says what the registry says |
| Registries.PipelineRegistry.Submit | src/pipeline/executor.rs:62-91 | the loop over the history, the refusals in order, and the new registry equal the submission function; the history stays within its bound and in step with the file, and in shape if and only if the submission is refused or the run reuses no stage id of a run still held |
| Registries.PipelineRegistry.ReadyStages | src/pipeline/executor.rs:317-341 | the list equals the ready stages in submission order |
| Registries.PipelineRegistry.MarkStageRunning | src/pipeline/executor.rs:343-366 | new state and answer equal the specification; the file follows |
| Registries.PipelineRegistry.CompleteStage | src/pipeline/executor.rs:368-392 | a result is taken only from a Running stage; new state, with the run's own state worked out anew, equals the specification |
| Registries.PipelineRegistry.MarkStageFailed | src/pipeline/executor.rs:667-713 | a failure counts one attempt, or exhausts the stage, fails the run and skips what has not started; the file follows unless the stage is found but not running |
| Registries.PipelineRegistry.ExhaustStage | src/pipeline/executor.rs:731-760 | a permanent failure exhausts the stage whatever attempts are left |
| Registries.PipelineRegistry.RetryFailedStage | src/pipeline/executor.rs:601-621 | only a Failed stage of an active run goes back to Pending |
| Registries.PipelineRegistry.RetryStage | src/pipeline/executor.rs:531-596 | a Failed or Exhausted stage is re-armed, with its stopped siblings when it was Exhausted |
| Registries.PipelineRegistry.CancelPipeline | src/pipeline/executor.rs:646-661 | everything not terminal is Cancelled and so is the run |
| OperationEffects.RulesInFields | src/pipeline/executor.rs:117-197 | what each rule asks of the stages, field by field: no walk along inputs comes back to its start; there is a stage; no id twice; every input names a stage; no attempt count and no declared capacity is zero; no plugin or verb is blank |
| OperationEffects.SubmissionEffect | src/pipeline/executor.rs:62-91 | a submission is accepted exactly when the graph breaks no rule, its id is not held, no Pending or Running run has its name and its subject, and the history does not hold 500 such runs; the answer names the first reason in that order; a refusal changes nothing, an acceptance appends the run and drops, from 500 runs only, the one that ended longest ago in submission order |
| OperationEffects.ReadinessEffect | src/pipeline/executor.rs:317-341 | a slot is listed exactly when its run is Pending or Running, its stage is Pending and every input names a stage that is Done or Skipped; runs are listed as submitted, stages as authored |
| OperationEffects.StartEffect | src/pipeline/executor.rs:343-366 | a Pending or Failed stage becomes Running and so does its run; counters, error, other stages and other runs stay |
| OperationEffects.ResultEffect | src/pipeline/executor.rs:368-417 | a Running stage becomes Done with the artifacts given; the run fails with the first exhausted stage's error if there is one, or is Done without error if every stage has ended, or is Running if one runs, or stays as it was |
| OperationEffects.FailureEffect | src/pipeline/executor.rs:667-713 | a failure of a Running stage adds exactly one to its attempts; if that makes them the maximum, the stage is Exhausted, the run Failed with that error and every other Pending or Failed stage Skipped; otherwise the stage is Failed with the error and that attempt number, and nothing else changes |
| OperationEffects.RefusalEffect | src/pipeline/executor.rs:731-760 | a refused Running stage is Exhausted with its attempts at the maximum, and its run ends as after a last failure |
| OperationEffects.AutomaticRetryEffect | src/pipeline/executor.rs:601-621 | a Failed stage of a Pending or Running run becomes Pending with its attempts kept; everything else is answered with nothing |
| OperationEffects.ManualRetryEffect | src/pipeline/executor.rs:531-596 | a Failed stage keeps its attempts and its siblings stay; an Exhausted one starts over, with every sibling that is Failed, Exhausted, Skipped or Cancelled; a Failed run becomes Running, and the error goes |
| OperationEffects.CancelEffect | src/pipeline/executor.rs:646-661 | Pending, Running and Failed stages become Cancelled and so does the run, with its error kept; other stages stay |
| OperationEffects.TokensTriggered | src/pipeline/executor.rs:646-656 | cancelling triggers the tokens of exactly the stages it ends |
| OperationEffects.UnknownStage | src/pipeline/executor.rs:531-760 | a failure, refusal or retry for a stage that no held run has is answered with nothing and changes nothing |
| OperationEffects.UnknownSlot | src/pipeline/executor.rs:343-384 | so are a start and a result for a run or a stage that is not held |
| OperationEffects.SavedAsHeld | src/pipeline/executor.rs:285-309 | the file has one entry for each held run, as it is, in submission order |
| OperationEffects.RestartEffect | src/pipeline/executor.rs:249-265 | a saved registry that is opened again has the same runs in the same order; a run is Pending if it was Running and otherwise keeps its state; a Running stage is Pending and otherwise unchanged; every other field of every run and stage stays |
| RunInvariant.FreshRunsAreSound | src/pipeline/executor.rs:62-91 | a fresh run with an accepted graph has the run invariant (valid graph, started work only behind finished inputs, attempts within budget, run state in agreement with its stages) and is startable |
| RunInvariant.StartedIsSound | src/pipeline/executor.rs:343-366 | starting a Pending stage with finished inputs keeps it and uses work up |
| RunInvariant.CompletedIsSound | src/pipeline/executor.rs:368-417 | so does taking a result, which cannot revive a run |
| RunInvariant.FailedIsSound | src/pipeline/executor.rs:667-698 | so does a failure, whether retried or final |
| RunInvariant.ExhaustedIsSound | src/pipeline/executor.rs:700-760 | so does exhausting a stage, which always leaves the run Failed |
| RunInvariant.RequeuedIsSound | src/pipeline/executor.rs:249-265 | so does re-queueing on open, which changes nothing the second time |
| RunInvariant.ManualRetrySoundIff | src/pipeline/executor.rs:531-596 | a manual retry re-establishes the whole invariant if and only if it fits; finished work is kept and the run is active again |
| RegistryInvariant.RoomIsMade | src/pipeline/executor.rs:62-91 | making room removes exactly the oldest terminal run, and only from a full history |
| RegistryInvariant.SubmitOutcome | src/pipeline/executor.rs:62-91 | a refused submission changes nothing; an accepted one is the registry after the eviction plus the run, at the end, and in shape if and only if the run reuses no stage id of a run still held; a full history of active runs refuses |
| RegistryInvariant.EvictionKeepsOrder | src/pipeline/executor.rs:62-91 | survivors keep their order, and every run before the evicted one is active |
| RegistryInvariant.ActiveRunsSurviveSubmission | src/pipeline/executor.rs:62-91 | no submission evicts or touches an active run |
| RegistryInvariant.SubmitKeepsActiveRunsDifferent | src/pipeline/executor.rs:62-91 | no submission makes two active runs with the same name and subject |
| RegistryInvariant.RevivalKeepsActiveRunsDifferentIff | src/pipeline/executor.rs:531-596 | reviving a run keeps that true if and only if no equivalent run is active by then |
| RegistryInvariant.CrashRoundTrip | src/pipeline/executor.rs:213-309 | what a sound registry wrote is never quarantined: it comes back in order with exactly Running turned Pending |
| RegistryInvariant.SecondOpenChangesNothing | src/pipeline/executor.rs:213-309 | opening twice is opening once |
| ScanOrder.ScanOrderDoesNotMatter | src/pipeline/executor.rs:531-621 | in a registry in shape failures, refusals and retries do the same in whatever order the map lists the runs |
| ScanOrder.FailureReachesItsRunIff | src/pipeline/executor.rs:667-760 | a failure or refusal of a running stage changes its own run, as it should, in every order of the map if and only if no other held run has a stage with its id |
| ScanOrder.SubmissionKeepsScan | src/pipeline/executor.rs:62-91 | after any submission the submission order is one of the orders the map may have, reused stage ids included |
| SchedulerSafety.SnapshotIsExact | src/pipeline/executor.rs:317-341 | a snapshot lists each ready stage exactly once and nothing else |
| SchedulerSafety.MarkedWasPending | src/pipeline/runtime.rs:105-132 | a stale snapshot entry that can still be marked running is Pending in an active run with all inputs done |
| SchedulerRuns.LateResultChangesNothing | src/pipeline/executor.rs:368-392 | a result, a failure or an end reported by a worker whose stage is no longer running changes nothing but the list of workers |
| SchedulerSafety.EveryEventKeepsInv | src/pipeline/runtime.rs:36-204 | every event keeps the runtime invariant: sound runs, tasks in agreement with stage states, one live worker per stage, safe snapshots, no lost wake-up |
| SchedulerSafety.RunsKeepInv | src/pipeline/runtime.rs:36-351 | so does every list of events |
| SchedulerRuns.StartedWorkHasItsInputs | src/pipeline/runtime.rs:113-132 | in every reachable state, crashes included, a stage that is Running, Failed, Done or Exhausted has all its inputs Done |
| SchedulerRuns.SnapshotsStaySafe | src/pipeline/runtime.rs:113-132 | in every reachable state each unprocessed snapshot entry has all its inputs Done |
| SchedulerRuns.WorkIsAccountedFor | src/pipeline/runtime.rs:168-204 | at most one live worker per stage; attempts stay within budget and agree with the state; a stage is dispatched at most once per attempt of its budget, plus once per crash, plus a whole budget per manual retry |
| StageHistory.AttemptsAreFailures | src/pipeline/executor.rs:667-698 | over any events, crashes included, in which a stage is neither refused nor retried by hand, its attempts grow by exactly the number of failures reported while it was Running |
| StageHistory.FailuresAreDispatched | src/pipeline/runtime.rs:105-214 | over any events at all a stage takes no more failures than it was dispatched, counting a start still under way on either side |
| StageHistory.ExhaustedExactlyWhenSpent | src/pipeline/executor.rs:667-698 | over any events in which it is left to itself, a stage is exhausted if and only if it has failed as often as it had attempts left, and it never fails more often |
| SchedulerRuns.HistoryStaysInShape | src/pipeline/executor.rs:62-91 | in every reachable state the order lists exactly the held runs, each once, at most 500; without manual retries active runs differ; the file would be read back whole |
| SchedulerRuns.EventKeepsRuns | src/pipeline/executor.rs:343-698 | across any event a held run is the same run with its finished work and outputs kept, and without a manual retry it does not come back to life |
| SchedulerRuns.OverIsFinal | src/pipeline/executor.rs:646-698 | without manual retries a run that is over stays over and a cancelled one never changes again, whatever late results, failures and timers arrive |
| SchedulerRuns.ResultsCountOnce | src/pipeline/executor.rs:368-392 | over any run of events, retries by hand and crashes included, a stage's result is accepted at most once |
| SchedulerProgress.InternalStepsDescend | src/pipeline/runtime.rs:36-351 | every step the scheduler takes by itself goes down a well-founded order |
| SchedulerProgress.EveryScheduleSettles | src/pipeline/runtime.rs:36-351 | every unbroken schedule, however unfair, comes to rest |
| SchedulerProgress.SomeStageIsFree | src/pipeline/executor.rs:317-341 | an active run always has an unfinished stage whose inputs are all done |
| SchedulerProgress.RestMeansFinished | src/pipeline/runtime.rs:105-204 | at rest a run is finished or held up by a Failed stage without a timer |
| SchedulerProgress.RetriesNeverForgotten | src/pipeline/runtime.rs:315-346 | as long as the daemon does not crash, every Failed stage of an active run has a timer, or was Failed already in a given past (none, for a daemon that never crashed) |
| SchedulerProgress.EveryRunFinishes | src/pipeline/runtime.rs:36-351 | from any crash-free past every schedule ends, and then each run is Done with all stages Done, Failed with an Exhausted stage, or Cancelled; accepted runs are startable and bring unused stage ids, and manual retries fit |
| SchedulerCrash.StrandedToTheEnd | src/pipeline/executor.rs:249-265 | a run held up by a failure without a timer can reach, by the scheduler's own steps, a rest in which that failure still holds it up |
| SchedulerCrash.CrashRecoversIff | src/pipeline/executor.rs:249-265 | after a crash every schedule finishes every run if and only if each active run with a Failed stage has an unfinished stage without a dispatch target that waits for no Failed one |
| SchedulerCrash.NothingHeldUpFinishes | src/pipeline/runtime.rs:105-204 | from any state where no run is held up in that sense every schedule finishes every run, whatever timers were lost |
| SchedulerTargets.RunsKeepTargets | src/pipeline/runtime.rs:128-168 | over any events a worker only exists for a stage with a dispatch target, and the dispatcher knows whether the stage it holds has one |
| SchedulerTargets.DoneWasReported | src/pipeline/executor.rs:368-392 | a stage the scheduler turns Done is the one whose worker reported it |
| SchedulerStranding.ACrashCanStrandARun | src/pipeline/runtime.rs:330-344 | such a crash is reachable: one stage with a dispatch target, one failure, one crash before the backoff is over |
| SchedulerStranding.FailedRunsAreQuiet | src/pipeline/executor.rs:700-713 | over any events without a crash no Failed run has a Pending stage |
| SchedulerStranding.FailedRunReopensWaitingIff | src/pipeline/executor.rs:249-265 | opening the file leaves a Failed run a Pending stage if and only if it had one Pending or Running |
| SchedulerStranding.AbandonedRunStays | src/pipeline/executor.rs:317-341 | a run that is over with nothing running is left as it is by every step the scheduler takes by itself |
| SchedulerStranding.ACrashCanLeaveAFailedRunWaiting | src/pipeline/executor.rs:249-265 | a crash-free run of events from an empty daemon after which a crash leaves a Failed run with a Pending stage |
| SchedulerHazards.SubmissionIsTendedIff | src/pipeline/executor.rs:62-91 | after an accepted submission with unused stage ids the runtime invariant holds, every Failed stage of an active run has a timer and no Failed run has a stage waiting, if and only if the run is startable |
| SchedulerHazards.ReuseBreaksTheInvariant | src/pipeline/executor.rs:62-91 | an accepted run that reuses a stage id of a run still held ends the runtime invariant |
| SchedulerMishaps.AReusedStageIdCanStrandARun | src/pipeline/runtime.rs:612-650 | submit, cancel, submit the graph again, dispatch and fail: at rest the new run is Running with no worker |
| SchedulerMishaps.RetryOfACancelledRunIsLost | src/pipeline/executor.rs:531-596 | a manual retry of a stage of a cancelled run that is not on the dispatcher's list is answered, and the stage is Pending in the cancelled run after any steps of the scheduler |
| SchedulerMishaps.ARetryCanBeLost | src/pipeline/executor.rs:531-596 | that happens: a stage is refused, its failed run is cancelled, and the stage is retried |
| SchedulerMishaps.ARetryCanDoubleAJob | src/pipeline/executor.rs:531-596 | a run fails for good, its job is submitted again, and the retry of the failed run makes the job active twice |
| LockOrder.SameResourceMeansSameSemaphore | src/pipeline/executor.rs:780-789 | two locks are the same resource exactly when they resolve to the same semaphore, whatever capacities they declare |
| LockOrder.KeysOrderResources | src/pipeline/runtime.rs:223-226 | the debug texts of locks on different resources compare as the resources do, whatever capacities are declared |
| LockOrder.ResourceOrderIsTotal | src/pipeline/runtime.rs:223-226 | of two different resources exactly one comes first |
| LockOrder.ResourceOrderIsTransitive | src/pipeline/runtime.rs:223-226 | and that order is transitive |
| LockOrder.SortAscends | src/pipeline/runtime.rs:223-226 | sorting locks on different resources climbs strictly through that order |
| LockOrder.SortOrdersKeys | src/pipeline/runtime.rs:223-226 | whatever the list, repeated resources included, the sort returns its locks in the order of their debug texts |
| LockOrder.KindsAreOrdered | src/pipeline/runtime.rs:223-226 | services come before the processor, then the disk, files, and the graphics card |
| Locks.PermitsAddUp | src/pipeline/executor.rs:910-966 | over any run of workers, held and free permits of each resource add up to the capacity its first caller declared, which never changes |
| SharedLocks.FirstCallerDecides | src/pipeline/executor.rs:930-957 | an unknown processor, disk or service gets as many permits as the lock declares, the graphics card and a file get one; a known one is left as it is |
| SharedLocks.SharersHoldTogether | src/pipeline/executor.rs:924-966 | for every n and k up to n, k workers with one lock each on a processor, disk or service for which the first declares n come to hold it all at once, whatever the others declare, with n - k permits left |
| SharedLocks.FirstAskDecides | src/pipeline/executor.rs:924-966 | in any run of workers the capacity of a semaphore is the number in the first lock that asked for it |
| SharedLocks.NeverMoreThanDeclared | src/pipeline/executor.rs:924-966 | and never more workers than that number hold the resource at once |
| Locks.ExclusiveLocks | src/pipeline/executor.rs:924-957 | no two workers ever hold the graphics card, or one file, at once |
| Locks.NoDeadlock | src/pipeline/runtime.rs:223-279 | over any run of workers, while one is left, one of them holds all its locks, or has yet to queue, or can be granted the permit it waits for |
| Locks.EveryWaiterIsServed | src/pipeline/runtime.rs:223-279 | with no timeout and no cancellation every schedule ends after exactly the steps owed, and only when every worker has had all its locks and finished |
| Locks.RepeatedLockBlocksItself | src/pipeline/runtime.rs:223-279 | a list naming one resource twice can reach a state where only giving up is left |
| LoneWorker.LoneWorkerFinishesIff | src/pipeline/runtime.rs:223-279 | a worker that begins when no other is left, whatever workers came before, ends whatever steps it takes if and only if no resource occurs in its list more often than its capacity, fixed earlier or by the first lock on it |
| Locks.UnsortedOrdersDeadlock | src/pipeline/runtime.rs:223-226 | two workers that take their locks in declared order run into a state where each waits for the other while all permits are accounted for |
| Locks.SharedRepeatsDeadlock | src/pipeline/runtime.rs:223-279 | two workers that each name a processor of capacity two twice begin, take one permit each, and wait for each other |
| Semaphores.ResourceRegistry.Lookup | src/pipeline/executor.rs:930-957 | the first caller fixes the capacity; later callers find the semaphore unchanged |
| Semaphores.ResourceRegistry.Acquire | src/pipeline/executor.rs:910-966 | a permit arrives only from a semaphore with one free, and takes exactly that one; a refusal takes none |
| Semaphores.ResourceRegistry.DropPermits | src/pipeline/runtime.rs:227-279 | dropping the permits gives each back to its semaphore |
| Semaphores.ResourceRegistry.AcquireStageLocks | src/pipeline/runtime.rs:216-280 | either all locks are lent to the caller, in key order, or none is and every semaphore has what it had; none means a wait ended early, the list repeats a resource, or some resource had no permit free to begin with |
| EditDistance.Levenshtein | src/search.rs:86-109 | the result is the least number of single insertions, deletions and substitutions that turn one string into the other |
| EditDistance.EditDistanceIsAMetric | src/search.rs:85-109 | that number is zero exactly for equal strings, symmetric, obeys the triangle inequality, and lies between the difference and the larger of the lengths |
| EditDistance.LevIsEditDistance | src/search.rs:94-108 | the table of the two-row loop holds edit distances: a chain of that many edits exists and none is shorter |
| Search.FuzzySubsequence | src/search.rs:3-15 | true exactly when the needle's characters occur in the haystack in order |
| Search.FuzzyFind | src/search.rs:38-83 | a match is returned exactly when a case-folded embedding exists; its spans are the leftmost embedding, position by position, and its score is the sum of its rewards less a quarter of the unmatched length |
| Search.ExactMatchesFold | src/search.rs:34-36 | whatever the plain search finds, the folding one finds too |
| Search.ScoreBounds | src/search.rs:57-80 | a needle of n characters scores between 10n and 24n - 2, less a quarter of the unmatched length |
| Search.PrefixIsMatchedInPlace | src/search.rs:28-33 | a needle the haystack starts with is matched exactly there and earns at least 18n + 4 in bonuses |
| SearchScoring.FoldingIs | src/search.rs:34-36 | two characters match when they are the same or the capital and the small form of one of the 26 letters |
| SearchScoring.ScoreCounted | src/search.rs:57-80 | the score of a match is ten for each character, eight for each that follows on the one before, twelve at the front of the text, six for each behind a space, underscore, hyphen, slash or full stop, less one for every four characters unmatched |
| SearchScoring.ScoresBestIff | src/search.rs:38-83 | a match, the returned one included, scores at least as much as every other embedding if and only if it earns the most that a table over needle and haystack allows |
| SearchScoring.WordStartRunScoresBest | src/search.rs:57-80 | a leftmost match in one piece at the start of a word is scored at least as high as every embedding |
| SearchScoring.PrefixScoresBest | src/search.rs:28-33 | so is the match of a needle the haystack starts with, ignoring case |
| SearchScoring.LeftmostNeedNotScoreBest | src/search.rs:38-83 | "ab" in "a ab" is matched at 0 and 3, which scores less than 2 and 3 |
| Preview.PreviewCache.Get | src/media/preview.rs:66-73 | a hit returns the stored path and moves the key to the back; a miss changes nothing |
| Preview.PreviewCache.Forget | src/media/preview.rs:75-83 | the key leaves the map and the queue |
| Preview.PreviewCache.Insert | src/media/preview.rs:92-112 | new state and list of evicted paths equal the specification |
| Preview.EntriesAfter | src/media/preview.rs:66-131 | which keys are held after an operation, and that each has the path last given for it |
| Preview.InsertingANewKey | src/media/preview.rs:98-111 | a new key evicts nothing below the bound and exactly the front of the queue at the bound |
| Preview.TraceKeepsValid | src/media/preview.rs:45-131 | over any operations the queue lists exactly the held keys, each once, and the bound is never exceeded |
| Preview.ByLastUseSorts | src/media/preview.rs:64-73 | the reference list of used keys names each once, in the order of its last use |
| Preview.IsLeastRecentlyUsed | src/media/preview.rs:45-131 | over operations that forget nothing the queue is the most recently used keys, oldest first, up to the bound |
| Preview.ServesTheMostRecent | src/media/preview.rs:178-199 | after any frame requests that succeed, vanished files included, the cache holds the most recently requested frames |
| PreviewSizes.LargerCacheHoldsMore | src/media/preview.rs:22-27 | after the same requests a larger cache holds everything a smaller one does, whichever decodes fail and whichever files vanish, provided a key always decodes to one file or no decode fails |
| PreviewSizes.ALargerCacheCanHoldLess | src/media/preview.rs:186-199 | four requests, two of them for one key and two files, after which a cache of one holds a frame that a cache of two does not |
| Preview.PreviewSurface.Frame | src/media/preview.rs:178-199 | a hit whose file is there is served; a vanished file is forgotten and decoded anew; a failed decode leaves the frame out |
| Preview.RequestEffect | src/media/preview.rs:178-199 | a request is answered with the path held if its file is there and otherwise with the frame decoded, which is then what is held; other keys keep their paths, less the front of a full queue |
| Proxy.TimelinesCorrespond | src/media/proxy.rs:121-146 | source and proxy times are mutually inverse images of each other, on every real time |
| Proxy.MapsAreInverse | src/media/proxy.rs:176-208 | mapping there and back is the identity, in all three branches |
| Proxy.MapIncreases | src/media/proxy.rs:176-208 | later times map to later times, across segments too |
| Proxy.MapInterpolates | src/media/proxy.rs:176-208 | between two keyframes the map is on the line through them and their images, before the first keyframe on that of the first two, and after the last on that of the last two if there are more than two |
| Proxy.MapHitsKeyframes | src/media/proxy.rs:176-208 | every keyframe that has a partner maps exactly to it, for lists of any lengths but a single keyframe |
| Proxy.MapStopsIff | src/media/proxy.rs:176-208 | the map runs out of its list exactly for a single keyframe from its time on, and for a list of images too short for the keyframes up to the time |
| Proxy.MapNeverStopsIff | src/media/proxy.rs:176-208 | it never does if and only if there are several keyframes and no fewer images |
| Proxy.MapWithoutPartner | src/media/proxy.rs:176-208 | where a segment's end has no partner the image stands still after the last one, and before the first keyframe a list of one goes on at one a second |
| Proxy.MapStopsOnAShorterList | src/media/proxy.rs:184-203 | three keyframes, two images and a time after the last keyframe: it does |
| Proxy.RoundTripsIff | src/media/proxy.rs:176-208 | mapping there and back is the identity on all times if and only if a list is empty or both have one length other than one |
| Proxy.TailFollowsLastSegmentIff | src/media/proxy.rs:176-208 | times after the last keyframe continue the last segment if and only if there are more than two keyframes or the only segment has slope one |
| Proxy.TwoKeyframesTail | src/media/proxy.rs:176-208 | with two keyframes they continue with slope one |
| Proxy.SeekFindsLastKeyframe | src/media/proxy.rs:148-165 | a seek starts at the last keyframe at or before the time; it is refused exactly before the first keyframe or when that keyframe has no image |
| Proxy.SeekAgreesWithMap | src/media/proxy.rs:148-165 | its proxy time is the image of that keyframe and, on lists of one length, never past the image of the time asked for |
| Proxy.SeekResidualIsBounded | src/media/proxy.rs:148-174 | up to the last keyframe the residual is at most the worst gap |
| Proxy.WorstGapIsAGap | src/media/proxy.rs:167-174 | the worst gap is the gap before some keyframe, or zero with fewer than two |
| Proxy.WorstGapBounds | src/media/proxy.rs:167-174 | and no gap is larger |
| Proxy.KeyframeTimes | src/media/proxy.rs:541-597 | the cleaned list has gaps of at least the tolerance, holds only probed times, and has one at or just below every probed time |
| Proxy.GappedInNumbers | src/media/proxy.rs:594-595 | the tolerance is two to the power of minus 52 |
| Proxy.OneListRepresents | src/media/proxy.rs:594-595 | those facts leave only one possible list |
| Pyramid.Build | src/media/pyramid.rs:58-82 | bucket j of level k is the largest magnitude among the samples from j to j + 1 times the base times 2^k; all levels but the last are longer than 64, the last is not, and the loop ends |
| Pyramid.LevelIsUnique | src/media/pyramid.rs:58-82 | that settles every value of a level |
| Pyramid.JustEnoughIsRoundedUp | src/media/pyramid.rs:60-77 | a level has as many buckets as the number of samples divided by the bucket width, rounded up |
| Pyramid.LevelIsChosen | src/media/pyramid.rs:84-92 | of any levels the first is chosen that has no more points than asked for, where at least one is asked for; the last when there is none |
| Pyramid.LevelForPointsIsFinestFit | src/media/pyramid.rs:84-92 | the level chosen is the finest that fits and still has more than half the points asked for, or the coarsest when none fits |
| Pyramid.LevelForPointsIsCoarsestIff | src/media/pyramid.rs:84-92 | it is the coarsest that fits, as the comment promises, if and only if there are fewer than two levels or the last but one does not fit |
| Pyramid.ChosenLevelNeedNotBeCoarsest | src/media/pyramid.rs:84-92 | 65 samples and room for 100 points: the finer of two levels that fit is chosen |
| Pyramid.SilenceStaysSilent | src/media/pyramid.rs:58-82 | a bucket is zero exactly when every sample under it is |
| Uploads.WatermarkKeysDiffer | src/monitor/uploads.rs:93-96 | channels of different platforms or ids never share a watermark |
| Uploads.SelectionIsExact | src/monitor/uploads.rs:100-123 | exactly the new entries are selected, as often as they are listed |
| Uploads.SelectionKeepsOrder | src/monitor/uploads.rs:100-123 | the selection is the listing read, front to back, at exactly the places that hold a new entry |
| Uploads.WatermarkIsNewestSeen | src/monitor/uploads.rs:125-140 | after any checks the watermark is the newest time any of them has seen, and absent exactly before the first listing |
| Uploads.WatermarkNeverDecreases | src/monitor/uploads.rs:125-140 | it never moves back |
| Uploads.EachCheckSelectsTheNews | src/monitor/uploads.rs:100-123 | the first listing selects nothing; a later check selects exactly the listed dated videos newer than everything seen before, less captured broadcasts |
| Uploads.NothingIsSelectedTwice | src/monitor/uploads.rs:100-140 | what a later check selects was published after everything an earlier one selected |
| Uploads.LateListingIsNeverSelected | src/monitor/uploads.rs:111-123 | a video no newer than something already seen is never selected |
| UploadMonitor.ChannelMonitor.CheckUploads | src/monitor/mod.rs:565-780 | watermarks, report, the remembered urls with their times, and the watermark file equal their specifications |
| UploadMonitor.FileStaysInStepIff | src/monitor/mod.rs:588-605 | a file in step with the memory is in step after a check if and only if nothing was forgotten, no channel is opted in, or the store is there |
| UploadRules.FileIsWrittenIff | src/monitor/mod.rs:588-605 | the watermark file, whatever it says, is written if and only if a watermark changed and either the store is there or no channel is checked |
| UploadMonitor.EachChannelAlone | src/monitor/mod.rs:677-757 | within one check each watermark moves as the checks of its own platform and channel id say, a channel listed twice included |
| UploadMonitor.ChannelFollowsItsOwnChecks | src/monitor/mod.rs:565-757 | over any checks of the whole list a watermark is that of its channel's own checks since it was last left out, whatever happens to other channels and to its own toggles |
| UploadMonitor.OptingOutForgets | src/monitor/mod.rs:577-589 | a channel left out of one check has no watermark afterwards |
| UploadMonitor.RoundIsOneCheck | src/monitor/mod.rs:677-757 | what is picked at one position of one check is what that channel's own latest check selects |
| UploadMonitor.QueueIsRight | src/monitor/mod.rs:703-745 | every selected video is counted once; exactly those neither being fetched nor recorded are sent, each url once |
| UploadRules.CheckedChannels | src/monitor/mod.rs:573-578 | the channels checked are those with one of the two switches on, Patreon apart, in the order of the list |
| UploadRules.KeyInLetters | src/monitor/uploads.rs:93-96 | a watermark is kept under the platform's name, a colon and the channel id |
| UploadRules.PickedExactly | src/monitor/uploads.rs:73-123 | over any checks of the whole list, a video is picked if and only if the store is there and at some channel's turn it is listed, dated later than all that channel has shown since it was last left out, which is something, and is not a live broadcast during which, or within 30 minutes of which, a capture of that channel began; a length unknown or beyond the calendar counts as none |
| UploadRules.BusyExactly | src/monitor/mod.rs:613-675 | a url is left alone while a job resolves or records it, or for 30 minutes after it was queued unless a job for it has finished or failed |
| UploadRules.RememberedAfter | src/monitor/mod.rs:642-675 | after a check the urls it sent are remembered with their moments, and those still waiting with theirs |
| UploadRules.ReportCounts | src/monitor/mod.rs:703-745 | each counter of the report is the number of picked videos left alone, found recorded, not looked up, or sent |
| UploadsSent.SentIff | src/monitor/mod.rs:703-745 | in any check a url is sent if and only if it is free and some video selected then has it and is found unrecorded |
| UploadsSent.PickedOnce | src/monitor/mod.rs:565-757 | while its channel stays opted in a video selected in one check of the whole list is selected in no other |
| UploadsSent.EverSentIff | src/monitor/mod.rs:703-757 | over any checks while its channel stays opted in, a selected video with a url of its own is ever sent if and only if the check that selects it finds the url free and the video unrecorded |
| UploadsSent.AFailedLookupLosesAVideo | src/monitor/mod.rs:716-724 | after one failed lookup a video is sent by none of any number of later checks that list it |
| UploadsSent.ARestartRemembersWhatWasForgotten | src/monitor/mod.rs:588-605 | a channel is followed, then left out of a check that finds the store missing; followed again, a restarted monitor picks a new video that the running one does not |

## Left out

- Names, kinds, costs, timestamps, providers and cancellation handles of stages, and the explanatory text of rule
  violations: no property proved here depends on them. The provider override of a manual retry is left out with them.
- `update_stage`, `skip_stage`, `mark_stage_done` and `remove`: they change stages outside the run invariant
  (a Failed update does not count an attempt, a skip has no guard), so they are not events of the model.
- A manual retry aimed at a merely Failed stage of a Failed run: the model states what it does to the run
  (`RunInvariant.ManualRetrySoundIff`) but the runs of events leave it out. One aimed at a stage of a Cancelled run is
  followed to its end (`SchedulerMishaps.RetryOfACancelledRunIsLost`).
- SchedulerProgress.EveryRunFinishes: leaves out histories in which an accepted run reuses a stage id or a manual
  retry does not fit, because it does not hold of them (`SchedulerMishaps`).
- Locks.NoDeadlock: several workers whose lists repeat a resource are not covered, because they can block each other
  (`Locks.SharedRepeatsDeadlock`); an exact condition for any number of them is not given.
- PreviewSizes.LargerCacheHoldsMore: leaves out a failed decode of a key that has had two files, because it does not
  hold then (`PreviewSizes.ALargerCacheCanHoldLess`).
- Registries.ValidationErrors: how often a rule is reported and the details that point at the offending stage, input
  or lock are left out; which rules are reported, and in what order, is exact.
- Registries.PipelineRegistry.Open: reading the file, and renaming it out of the way, always succeed.
- Registries.PipelineRegistry.RetryStage: the provider a person may choose for the retry is left out with the
  stages' providers.
- Semaphores.ResourceRegistry.Acquire: one caller at a time, so a caller that finds no free permit gives up where
  the source waits while others run; waiting among any number of workers is the subject of `Locks`.
- Semaphores.ResourceRegistry.AcquireStageLocks: no other worker touches the semaphores between two waits; the
  interleavings are the subject of `Locks`.
- Proxy.KeyframeTimes: starts from the list of probed times; the text the probe prints is not parsed.
- Real time: backoff delays, the lock timeout and the age of a queued url's memory are moments the environment
  chooses; only the age limit of `UploadMonitor.StillQueued` is compared.
- The order in which queued workers are served: any queued worker may be granted a free permit, so the results hold
  for first come, first served as well.
- The measurement behind the capture reserve: it may refuse any disk lock at any time. The module
  src/recording/capacity.rs is not part of this model.
- Process spawning, ffmpeg and ffprobe, sockets, HTTP, JSON text and file-system calls: what they answer is a
  parameter. Files deleted on eviction appear as the list of evicted paths; `PreviewCache.clear` is the function
  `Cleared` and its method.
- Floating point: times and samples are real numbers, so rounding, infinities and not-a-number are not modelled.
- Proxy.MapsAreInverse: stated for strictly increasing lists; on an unsorted list the program's binary search and
  the first-later-time search of the model may differ.
- Search.FuzzyFind: scores are unbounded integers, so 32-bit wrap-around for astronomically long needles is not
  modelled; only ASCII letters are folded, as in the source.
- LockOrder.KeysOrderResources: which characters count as printable is a parameter of the debug text rather than the
  Unicode table.
- Uploads.SelectionIsExact: times are unbounded, so overflow of a calendar date near the end of its range is not
  modelled.
- `WaveformPyramid::peaks`, filmstrips, proxy building and the stores on disk.
- Licences, webhooks, the web interface, configuration and daemon wiring.
