/**
  A stage's attempt counter over whole runs of the scheduler: it counts the failures taken, no more and no
  less, and every failure was paid for with a dispatch.
 */
module StageHistory {
  import opened Wrappers
  import opened Stages
  import opened Executor
  import opened RunInvariant
  import opened RegistryInvariant
  import opened Scheduler
  import opened SchedulerSafety
  import SchedulerRuns
  import Effects = OperationEffects

  /** A worker's report of failure that reaches its stage while it is Running. */
  predicate FailureTaken(s: Runtime, e: Event, slot: Slot) {
    e.Fail? && e.slot == slot && Holds(s.registry, slot) && StageAt(s.registry, slot).state.Running?
  }

  ghost function FailuresTaken(s: Runtime, events: seq<Event>, slot: Slot): nat {
    if events == [] then 0
    else
      var init := events[..|events| - 1];
      FailuresTaken(s, init, slot) +
      if Run(s, init).Some? && FailureTaken(Run(s, init).value, events[|events| - 1], slot) then 1 else 0
  }

  /** The two things other than failures that set counters: a refusal of the stage, a retry by hand in its run. */
  predicate SetsCounter(s: Runtime, e: Event, slot: Slot) {
    || (e.Refuse? && s.current == Some(slot))
    || (e.ManualRetry? && RetryStage(s.registry, e.stage).1 == Some(slot.pipeline))
  }

  ghost predicate LeftToItself(s: Runtime, events: seq<Event>, slot: Slot) {
    forall k :: 0 <= k < |events| ==>
      Run(s, events[..k]).Some? ==> !SetsCounter(Run(s, events[..k]).value, events[k], slot)
  }

  function Busy(st: Stage): nat {
    if st.state.Running? then 1 else 0
  }

  /** One stage across one event; `failed` is 1 if the event is a failure taken, else 0. */
  predicate Counts(st: Stage, next: Stage, failed: nat) {
    && next.maxAttempts == st.maxAttempts
    && next.attempts == st.attempts + failed
    && (next.state.Exhausted? ==> (st.state.Exhausted? && failed == 0) || next.attempts == next.maxAttempts)
  }

  /** A stage starts running only when dispatched, and stops running when a failure is taken. */
  predicate Paid(st: Stage, next: Stage, failed: nat, dispatched: nat) {
    failed + Busy(next) <= Busy(st) + dispatched
  }

  lemma StageOfRun(s: Runtime, id: PipelineId, j: nat)
    requires Inv(s) && id in s.registry.pipelines && j < |s.registry.pipelines[id].stages|
    ensures Effects.IsStage(s.registry, id, j) && WithinBudget(s.registry.pipelines[id].stages[j])
    ensures Index(s.registry.pipelines[id], s.registry.pipelines[id].stages[j].id) == j
  {
    ShapeOf(s.registry);
    RunOf(s.registry, id);
    IndexOfStage(s.registry.pipelines[id], j);
    hide RegInv, StagesOk, SingleWorkers, IdsCoherent, QueueSafe, NoLostWakeup, ActiveRunsDiffer, WellShaped, Index,
      WithinBudget;
  }

  /** Stage j of run id in two registries. */
  ghost predicate AtPlace(r: Registry, t: Registry, id: PipelineId, j: nat) {
    id in r.pipelines && id in t.pipelines && j < |r.pipelines[id].stages| && j < |t.pipelines[id].stages|
  }

  ghost predicate CountsAt(r: Registry, t: Registry, id: PipelineId, j: nat, failed: nat, dispatched: nat,
                          counterSet: bool)
    requires AtPlace(r, t, id, j)
  {
    var (st, next) := (r.pipelines[id].stages[j], t.pipelines[id].stages[j]);
    (counterSet || Counts(st, next, failed)) && Paid(st, next, failed, dispatched)
  }

  lemma FailureCountsAt(r: Registry, at: PipelineId, i: nat, error: string, id: PipelineId, j: nat)
    requires Effects.IsStage(r, at, i) && WithinBudget(r.pipelines[at].stages[i]) && Effects.IsStage(r, id, j)
    ensures var t := MarkFailed(r, r.pipelines[at].stages[i].id, error).0;
      var failed := if at == id && i == j && r.pipelines[id].stages[j].state.Running? then 1 else 0;
      AtPlace(r, t, id, j) && CountsAt(r, t, id, j, failed, 0, false)
  {
    Effects.FailureEffect(r, at, i, error);
    hide MarkFailed, WellShaped, Design, DistinctIds;
  }

  lemma UnknownFailureCounts(r: Registry, sid: StageId, error: string, id: PipelineId, j: nat)
    requires Owner(r, sid).None? && id in r.pipelines && j < |r.pipelines[id].stages|
    ensures var t := MarkFailed(r, sid, error).0; AtPlace(r, t, id, j) && CountsAt(r, t, id, j, 0, 0, false)
  {
    hide Owner;
  }

  lemma SamePlace(r: Registry, slot: Slot, id: PipelineId, j: nat)
    requires Holds(r, slot) && Effects.IsStage(r, id, j)
    ensures slot == Slot(id, r.pipelines[id].stages[j].id)
      <==> slot.pipeline == id && Index(r.pipelines[slot.pipeline], slot.stage) == j
  {
    IndexOfStage(r.pipelines[id], j);
    assert slot == Slot(slot.pipeline, slot.stage);
    hide WellShaped, Design, DistinctIds;
  }

  lemma HeldStage(s: Runtime, slot: Slot) returns (i: nat)
    requires Inv(s) && Holds(s.registry, slot)
    ensures i == Index(s.registry.pipelines[slot.pipeline], slot.stage)
    ensures Effects.IsStage(s.registry, slot.pipeline, i)
    ensures s.registry.pipelines[slot.pipeline].stages[i].id == slot.stage
    ensures WithinBudget(s.registry.pipelines[slot.pipeline].stages[i])
  {
    i := Index(s.registry.pipelines[slot.pipeline], slot.stage);
    hide Inv, WithinBudget, Effects.IsStage;
    StageOfRun(s, slot.pipeline, i);
  }

  /** The owner of a stage id that a live task remembers, in terms of its slot. */
  lemma OwnerIfHeld(s: Runtime, slot: Slot)
    requires Inv(s) && (slot in s.workers || slot in s.timers || s.current == Some(slot))
    ensures Owner(s.registry, slot.stage) == if Holds(s.registry, slot) then Some(slot.pipeline) else None
  {
    hide StagesOk, QueueSafe, NoLostWakeup, SingleWorkers, ActiveRunsDiffer, WellShaped, Holds, IdsCoherent;
    ShapeOf(s.registry);
    OwnerOfTask(s, slot);
  }

  lemma FailureCounts(s: Runtime, slot: Slot, error: string, id: PipelineId, j: nat)
    requires Inv(s) && slot in s.workers && id in s.registry.pipelines && j < |s.registry.pipelines[id].stages|
    ensures var (st, t) := (s.registry.pipelines[id].stages[j], MarkFailed(s.registry, slot.stage, error).0);
      var failed := if slot == Slot(id, st.id) && st.state.Running? then 1 else 0;
      AtPlace(s.registry, t, id, j) && CountsAt(s.registry, t, id, j, failed, 0, false)
  {
    hide *;
    OwnerIfHeld(s, slot);
    StageOfRun(s, id, j);
    if Holds(s.registry, slot) {
      SamePlace(s.registry, slot, id, j);
      var i := HeldStage(s, slot);
      FailureCountsAt(s.registry, slot.pipeline, i, error, id, j);
    } else {
      NotHeld(s.registry, id, j);
      UnknownFailureCounts(s.registry, slot.stage, error, id, j);
    }
  }

  lemma NotHeld(r: Registry, id: PipelineId, j: nat)
    requires Effects.IsStage(r, id, j)
    ensures Holds(r, Slot(id, r.pipelines[id].stages[j].id))
  {
    IndexOfStage(r.pipelines[id], j);
  }

  lemma RefusalCountsAt(r: Registry, at: PipelineId, i: nat, error: string, id: PipelineId, j: nat)
    requires Effects.IsStage(r, at, i) && Effects.IsStage(r, id, j)
    ensures var t := ExhaustStage(r, r.pipelines[at].stages[i].id, error).0;
      AtPlace(r, t, id, j) && CountsAt(r, t, id, j, 0, 0, at == id && i == j)
  {
    Effects.RefusalEffect(r, at, i, error);
    hide ExhaustStage, WellShaped, Design, DistinctIds;
  }

  lemma UnknownRefusalCounts(r: Registry, sid: StageId, error: string, id: PipelineId, j: nat)
    requires Owner(r, sid).None? && id in r.pipelines && j < |r.pipelines[id].stages|
    ensures var t := ExhaustStage(r, sid, error).0; AtPlace(r, t, id, j) && CountsAt(r, t, id, j, 0, 0, false)
  {
    hide Owner;
  }

  lemma RefusalCounts(s: Runtime, slot: Slot, error: string, id: PipelineId, j: nat)
    requires Inv(s) && s.current == Some(slot) && id in s.registry.pipelines && j < |s.registry.pipelines[id].stages|
    ensures var (st, t) := (s.registry.pipelines[id].stages[j], ExhaustStage(s.registry, slot.stage, error).0);
      AtPlace(s.registry, t, id, j) && CountsAt(s.registry, t, id, j, 0, 0, slot == Slot(id, st.id))
  {
    hide *;
    OwnerIfHeld(s, slot);
    StageOfRun(s, id, j);
    if Holds(s.registry, slot) {
      SamePlace(s.registry, slot, id, j);
      var i := HeldStage(s, slot);
      RefusalCountsAt(s.registry, slot.pipeline, i, error, id, j);
    } else {
      NotHeld(s.registry, id, j);
      UnknownRefusalCounts(s.registry, slot.stage, error, id, j);
    }
  }

  lemma BackoffCountsAt(r: Registry, at: PipelineId, i: nat, id: PipelineId, j: nat)
    requires Effects.IsStage(r, at, i) && Effects.IsStage(r, id, j)
    ensures var t := RetryFailed(r, r.pipelines[at].stages[i].id).0;
      AtPlace(r, t, id, j) && CountsAt(r, t, id, j, 0, 0, false)
  {
    Effects.AutomaticRetryEffect(r, at, i);
    hide RetryFailed, WellShaped, Design, DistinctIds;
  }

  lemma BackoffCounts(s: Runtime, slot: Slot, id: PipelineId, j: nat)
    requires Inv(s) && slot in s.timers && id in s.registry.pipelines && j < |s.registry.pipelines[id].stages|
    ensures var t := RetryFailed(s.registry, slot.stage).0;
      AtPlace(s.registry, t, id, j) && CountsAt(s.registry, t, id, j, 0, 0, false)
  {
    hide *;
    OwnerIfHeld(s, slot);
    StageOfRun(s, id, j);
    if Holds(s.registry, slot) {
      var i := HeldStage(s, slot);
      BackoffCountsAt(s.registry, slot.pipeline, i, id, j);
    } else {
      UnownedRetries(s.registry, slot.stage);
      SameCounts(s.registry, s.registry, id, j);
    }
  }

  lemma UnownedRetries(r: Registry, sid: StageId)
    requires Owner(r, sid).None?
    ensures RetryFailed(r, sid).0 == RetryStage(r, sid).0 == r && RetryStage(r, sid).1 == None
  {
    hide Owner;
  }

  lemma SameCounts(r: Registry, t: Registry, id: PipelineId, j: nat)
    requires id in r.pipelines && id in t.pipelines && t.pipelines[id] == r.pipelines[id]
    requires j < |r.pipelines[id].stages|
    ensures AtPlace(r, t, id, j) && CountsAt(r, t, id, j, 0, 0, false)
  {
  }

  lemma ManualRetryCountsAt(r: Registry, at: PipelineId, i: nat, id: PipelineId, j: nat)
    requires Effects.IsStage(r, at, i) && Effects.IsStage(r, id, j)
    ensures var (t, answer) := RetryStage(r, r.pipelines[at].stages[i].id);
      AtPlace(r, t, id, j) && CountsAt(r, t, id, j, 0, 0, answer == Some(id))
  {
    Effects.ManualRetryEffect(r, at, i);
    hide RetryStage, WellShaped, Design, DistinctIds;
  }

  lemma ManualRetryCounts(s: Runtime, sid: StageId, id: PipelineId, j: nat)
    requires Inv(s) && id in s.registry.pipelines && j < |s.registry.pipelines[id].stages|
    ensures var (t, answer) := RetryStage(s.registry, sid);
      AtPlace(s.registry, t, id, j) && CountsAt(s.registry, t, id, j, 0, 0, answer == Some(id))
  {
    hide *;
    StageOfRun(s, id, j);
    var o := Owner(s.registry, sid);
    if o.Some? {
      var i := HeldStage(s, Slot(o.value, sid));
      ManualRetryCountsAt(s.registry, o.value, i, id, j);
    } else {
      UnownedRetries(s.registry, sid);
      SameCounts(s.registry, s.registry, id, j);
    }
  }

  lemma ResultCountsAt(r: Registry, at: PipelineId, i: nat, artifacts: seq<Artifact>, id: PipelineId, j: nat)
    requires Effects.IsStage(r, at, i) && Effects.IsStage(r, id, j)
    ensures var t := CompleteStage(r, Slot(at, r.pipelines[at].stages[i].id), artifacts).0;
      AtPlace(r, t, id, j) && CountsAt(r, t, id, j, 0, 0, false)
  {
    Effects.ResultEffect(r, at, i, artifacts);
    hide CompleteStage, WellShaped, Design, DistinctIds, Effects.SettledAfter;
  }

  lemma NotHeldNotTouched(r: Registry, slot: Slot, artifacts: seq<Artifact>)
    requires !Holds(r, slot)
    ensures CompleteStage(r, slot, artifacts) == MarkRunning(r, slot) == (r, false)
  {
  }

  lemma ResultCounts(s: Runtime, slot: Slot, artifacts: seq<Artifact>, id: PipelineId, j: nat)
    requires Inv(s) && id in s.registry.pipelines && j < |s.registry.pipelines[id].stages|
    ensures var t := CompleteStage(s.registry, slot, artifacts).0;
      AtPlace(s.registry, t, id, j) && CountsAt(s.registry, t, id, j, 0, 0, false)
  {
    hide *;
    StageOfRun(s, id, j);
    if Holds(s.registry, slot) {
      var i := HeldStage(s, slot);
      assert slot == Slot(slot.pipeline, slot.stage);
      ResultCountsAt(s.registry, slot.pipeline, i, artifacts, id, j);
    } else {
      NotHeldNotTouched(s.registry, slot, artifacts);
      SameCounts(s.registry, s.registry, id, j);
    }
  }

  lemma StartCountsAt(r: Registry, at: PipelineId, i: nat, id: PipelineId, j: nat)
    requires Effects.IsStage(r, at, i) && Effects.IsStage(r, id, j)
    ensures var (t, ok) := MarkRunning(r, Slot(at, r.pipelines[at].stages[i].id));
      AtPlace(r, t, id, j) && CountsAt(r, t, id, j, 0, if ok && at == id && i == j then 1 else 0, false)
  {
    Effects.StartEffect(r, at, i);
    hide MarkRunning, WellShaped, Design, DistinctIds;
  }

  lemma StartCounts(s: Runtime, slot: Slot, id: PipelineId, j: nat)
    requires Inv(s) && id in s.registry.pipelines && j < |s.registry.pipelines[id].stages|
    ensures var ((t, ok), st) := (MarkRunning(s.registry, slot), s.registry.pipelines[id].stages[j]);
      && AtPlace(s.registry, t, id, j)
      && CountsAt(s.registry, t, id, j, 0, if ok && slot == Slot(id, st.id) then 1 else 0, false)
  {
    hide *;
    StageOfRun(s, id, j);
    if Holds(s.registry, slot) {
      SamePlace(s.registry, slot, id, j);
      var i := HeldStage(s, slot);
      assert slot == Slot(slot.pipeline, slot.stage);
      StartCountsAt(s.registry, slot.pipeline, i, id, j);
    } else {
      NotHeldNotTouched(s.registry, slot, []);
      SameCounts(s.registry, s.registry, id, j);
    }
  }

  lemma CancelCounts(r: Registry, run: PipelineId, id: PipelineId, j: nat)
    requires Effects.IsStage(r, id, j)
    ensures AtPlace(r, CancelPipeline(r, run), id, j) && CountsAt(r, CancelPipeline(r, run), id, j, 0, 0, false)
  {
    Effects.CancelEffect(r, run);
    hide CancelPipeline, WellShaped, Design, DistinctIds;
  }

  lemma RestartCounts(s: Runtime, id: PipelineId, j: nat)
    requires Inv(s) && id in s.registry.pipelines && j < |s.registry.pipelines[id].stages|
    ensures var t := Opened(Persisted(s.registry));
      AtPlace(s.registry, t, id, j) && CountsAt(s.registry, t, id, j, 0, 0, false)
  {
    hide StagesOk, SingleWorkers, IdsCoherent, QueueSafe, NoLostWakeup, ActiveRunsDiffer;
    Effects.RestartEffect(s.registry);
    hide Opened, RegInv, Persisted;
  }

  // --------------------------------------------------------------- one event

  lemma StageKeepsItsPlace(s: Runtime, e: Event, slot: Slot)
    requires Inv(s) && Enabled(s, e) && Holds(s.registry, slot) && slot.pipeline in Apply(s, e).registry.pipelines
    ensures Holds(Apply(s, e).registry, slot)
    ensures Index(Apply(s, e).registry.pipelines[slot.pipeline], slot.stage)
      == Index(s.registry.pipelines[slot.pipeline], slot.stage)
  {
    hide Inv, Enabled, Apply, Kept, SchedulerRuns.StaysOver, Index;
    SchedulerRuns.EventKeepsRuns(s, e, slot.pipeline);
    KeptHoldsSame(s.registry.pipelines[slot.pipeline], Apply(s, e).registry.pipelines[slot.pipeline]);
  }

  /** What a mark does: the head of the queue is dispatched, or it was out of date. */
  lemma MarkDispatches(s: Runtime, slot: Slot)
    requires Enabled(s, Mark)
    ensures s.queue != []
    ensures var (t, head) := (Apply(s, Mark), s.queue[0]);
      && t.registry == MarkRunning(s.registry, head).0
      && Dispatches(t, slot) == Dispatches(s, slot) + if MarkRunning(s.registry, head).1 && slot == head then 1 else 0
  {
    hide Started;
  }

  lemma GuardOf(s: Runtime, e: Event)
    requires Enabled(s, e)
    ensures e.Fail? || e.Finish? ==> e.slot in s.workers
    ensures e.BackoffElapsed? ==> e.slot in s.timers
    ensures e.Refuse? ==> s.current.Some?
  {
    hide CleanSubmission, RetryAllowed;
  }

  /** What the events that are not about a submission make of the registry. */
  lemma RegistryAfter(s: Runtime, e: Event)
    requires Enabled(s, e) && !e.Submit? && !e.Mark?
    ensures Apply(s, e).registry
      == match e
         case Cancel(run) => CancelPipeline(s.registry, run)
         case ManualRetry(sid) => RetryStage(s.registry, sid).0
         case Crash => Opened(Persisted(s.registry))
         case Refuse(error) => ExhaustStage(s.registry, s.current.value.stage, error).0
         case Finish(slot, artifacts) => CompleteStage(s.registry, slot, artifacts).0
         case Fail(slot, error) => MarkFailed(s.registry, slot.stage, error).0
         case BackoffElapsed(slot) => RetryFailed(s.registry, slot.stage).0
         case _ => s.registry
    ensures Apply(s, e).dispatches == s.dispatches
  {
    hide *;
    GuardOf(s, e);
    match e {
      case Cancel(run) => CancelStep(s, run);
      case ManualRetry(sid) => RetryStep(s, sid);
      case Crash => CrashStep(s);
      case Refuse(error) => RefuseStep(s, error);
      case Finish(slot, artifacts) => FinishStep(s, slot, artifacts);
      case Fail(slot, error) => FailStep(s, slot, error);
      case BackoffElapsed(slot) => BackoffStep(s, slot);
      case _ => QuietStep(s, e);
    }
  }

  lemma CancelStep(s: Runtime, run: PipelineId)
    ensures Apply(s, Cancel(run)).registry == CancelPipeline(s.registry, run)
    ensures Apply(s, Cancel(run)).dispatches == s.dispatches
  {
    hide CancelPipeline, Revocable;
  }

  lemma CrashStep(s: Runtime)
    ensures Apply(s, Crash).registry == Opened(Persisted(s.registry)) && Apply(s, Crash).dispatches == s.dispatches
  {
    hide Opened, Persisted;
  }

  lemma QuietStep(s: Runtime, e: Event)
    requires Enabled(s, e) && (e.Notify? || e.Snapshot? || e.Spawn? || e.Abandon? || e.Wake?)
    ensures Apply(s, e).registry == s.registry && Apply(s, e).dispatches == s.dispatches
  {
    hide ReadyStages;
  }

  lemma RetryStep(s: Runtime, sid: StageId)
    requires Enabled(s, ManualRetry(sid))
    ensures Apply(s, ManualRetry(sid)).registry == RetryStage(s.registry, sid).0
    ensures Apply(s, ManualRetry(sid)).dispatches == s.dispatches
  {
    UnansweredRetry(s.registry, sid);
    hide RetryStage, RetryAllowed;
  }

  lemma UnansweredRetry(r: Registry, sid: StageId)
    ensures RetryStage(r, sid).1 == None ==> RetryStage(r, sid).0 == r
  {
    hide Owner, ManuallyRetried;
  }

  predicate FitsTally(s: Runtime, t: Runtime, slot: Slot, failed: nat, counterSet: bool)
    requires Holds(s.registry, slot) && Holds(t.registry, slot)
  {
    var (st, next) := (StageAt(s.registry, slot), StageAt(t.registry, slot));
    && (counterSet || Counts(st, next, failed))
    && failed + Busy(next) + Dispatches(s, slot) <= Busy(st) + Dispatches(t, slot)
  }

  function Taken(s: Runtime, e: Event, slot: Slot): nat {
    if FailureTaken(s, e, slot) then 1 else 0
  }

  lemma TakenIs(s: Runtime, e: Event, id: PipelineId, j: nat)
    requires Effects.IsStage(s.registry, id, j)
    ensures var st := s.registry.pipelines[id].stages[j];
      Taken(s, e, Slot(id, st.id)) == if e.Fail? && e.slot == Slot(id, st.id) && st.state.Running? then 1 else 0
  {
    IndexOfStage(s.registry.pipelines[id], j);
    hide WellShaped, Index;
  }

  lemma SetsCounterIs(s: Runtime, e: Event, slot: Slot)
    ensures SetsCounter(s, e, slot)
      <==> if e.Refuse? then s.current == Some(slot)
           else e.ManualRetry? && RetryStage(s.registry, e.stage).1 == Some(slot.pipeline)
  {
    hide RetryStage;
  }

  lemma MarkCounts(s: Runtime, id: PipelineId, j: nat)
    requires Inv(s) && Enabled(s, Mark)
    requires id in s.registry.pipelines && j < |s.registry.pipelines[id].stages|
    ensures var (t, slot) := (Apply(s, Mark), Slot(id, s.registry.pipelines[id].stages[j].id));
      && Dispatches(t, slot) >= Dispatches(s, slot)
      && AtPlace(s.registry, t.registry, id, j)
      && CountsAt(s.registry, t.registry, id, j, 0, Dispatches(t, slot) - Dispatches(s, slot), false)
  {
    hide *;
    MarkDispatches(s, Slot(id, s.registry.pipelines[id].stages[j].id));
    StartCounts(s, s.queue[0], id, j);
  }

  /** Stage j of run id across one event that is neither a submission nor a mark. */
  lemma EventCounts(s: Runtime, e: Event, id: PipelineId, j: nat)
    requires Inv(s) && Enabled(s, e) && !e.Submit? && !e.Mark?
    requires id in s.registry.pipelines && j < |s.registry.pipelines[id].stages|
    ensures var (t, slot) := (Apply(s, e), Slot(id, s.registry.pipelines[id].stages[j].id));
      && t.dispatches == s.dispatches
      && AtPlace(s.registry, t.registry, id, j)
      && CountsAt(s.registry, t.registry, id, j, Taken(s, e, slot), 0, SetsCounter(s, e, slot))
  {
    hide *;
    GuardOf(s, e);
    RegistryAfter(s, e);
    StageOfRun(s, id, j);
    TakenIs(s, e, id, j);
    SetsCounterIs(s, e, Slot(id, s.registry.pipelines[id].stages[j].id));
    match e {
      case Cancel(run) => CancelCounts(s.registry, run, id, j);
      case ManualRetry(sid) => ManualRetryCounts(s, sid, id, j);
      case Crash => RestartCounts(s, id, j);
      case Refuse(error) => RefusalCounts(s, s.current.value, error, id, j);
      case Finish(slot, artifacts) => ResultCounts(s, slot, artifacts, id, j);
      case Fail(slot, error) => FailureCounts(s, slot, error, id, j);
      case BackoffElapsed(slot) => BackoffCounts(s, slot, id, j);
      case _ => SameCounts(s.registry, s.registry, id, j);
    }
  }

  lemma SubmissionCounts(s: Runtime, p: Pipeline, slot: Slot)
    requires Inv(s) && Enabled(s, Submit(p)) && Holds(s.registry, slot) && Holds(Apply(s, Submit(p)).registry, slot)
    ensures FitsTally(s, Apply(s, Submit(p)), slot, 0, false)
  {
    SubmissionDispatchesNothing(s, p);
    hide Inv, Enabled, Apply, Counts;
    SchedulerRuns.SubmitKeepsHeldRuns(s, p, slot.pipeline);
    assert Counts(StageAt(s.registry, slot), StageAt(s.registry, slot), 0) by {
      SameStageCounts(StageAt(s.registry, slot));
    }
  }

  lemma SameStageCounts(st: Stage)
    ensures Counts(st, st, 0)
  {
  }

  lemma SubmissionDispatchesNothing(s: Runtime, p: Pipeline)
    requires Enabled(s, Submit(p))
    ensures Apply(s, Submit(p)).dispatches == s.dispatches
  {
    hide SubmitRun, CleanSubmission, StageIds;
  }

  lemma PlaceFits(s: Runtime, t: Runtime, slot: Slot, j: nat, failed: nat, dispatched: nat, counterSet: bool)
    requires Holds(s.registry, slot) && Holds(t.registry, slot)
    requires Index(s.registry.pipelines[slot.pipeline], slot.stage) == j
    requires Index(t.registry.pipelines[slot.pipeline], slot.stage) == j
    requires AtPlace(s.registry, t.registry, slot.pipeline, j)
    requires CountsAt(s.registry, t.registry, slot.pipeline, j, failed, dispatched, counterSet)
    requires Dispatches(t, slot) == Dispatches(s, slot) + dispatched
    ensures FitsTally(s, t, slot, failed, counterSet)
  {
    hide Index, Counts;
  }

  /** One event adds to a stage's counter exactly the failure it reports, unless it sets the counter. */
  lemma EventTally(s: Runtime, e: Event, slot: Slot)
    requires Inv(s) && Enabled(s, e) && Holds(s.registry, slot) && Holds(Apply(s, e).registry, slot)
    ensures FitsTally(s, Apply(s, e), slot, Taken(s, e, slot), SetsCounter(s, e, slot))
  {
    hide *;
    var t := Apply(s, e);
    TakenOnlyBy(s, e, slot);
    SetsCounterIs(s, e, slot);
    if e.Submit? {
      SubmissionCounts(s, e.run, slot);
    } else {
      var j := HeldStage(s, slot);
      PlaceIn(s.registry, slot);
      PlaceIn(t.registry, slot);
      StageKeepsItsPlace(s, e, slot);
      assert slot == Slot(slot.pipeline, slot.stage);
      if e.Mark? {
        MarkCounts(s, slot.pipeline, j);
        PlaceFits(s, t, slot, j, 0, Dispatches(t, slot) - Dispatches(s, slot), false);
      } else {
        EventCounts(s, e, slot.pipeline, j);
        SameDispatches(s, t, slot);
        PlaceFits(s, t, slot, j, Taken(s, e, slot), 0, SetsCounter(s, e, slot));
      }
    }
  }

  lemma SameDispatches(s: Runtime, t: Runtime, slot: Slot)
    requires t.dispatches == s.dispatches
    ensures Dispatches(t, slot) == Dispatches(s, slot)
  {
  }

  lemma PlaceIn(r: Registry, slot: Slot)
    requires Holds(r, slot)
    ensures slot.pipeline in r.pipelines
    ensures Index(r.pipelines[slot.pipeline], slot.stage) < |r.pipelines[slot.pipeline].stages|
  {
    hide Index;
  }

  lemma TakenOnlyBy(s: Runtime, e: Event, slot: Slot)
    ensures !e.Fail? ==> Taken(s, e, slot) == 0
  {
  }

  // -------------------------------------------------------------- whole runs

  lemma FailuresGrow(s: Runtime, events: seq<Event>, slot: Slot)
    requires events != [] && Run(s, events).Some?
    ensures var (init, e) := (events[..|events| - 1], events[|events| - 1]);
      && Run(s, init).Some? && Enabled(Run(s, init).value, e) && Run(s, events).value == Apply(Run(s, init).value, e)
      && FailuresTaken(s, events, slot) == FailuresTaken(s, init, slot) + Taken(Run(s, init).value, e, slot)
      && (LeftToItself(s, events, slot) ==>
            LeftToItself(s, init, slot) && !SetsCounter(Run(s, init).value, e, slot))
  {
    var init := events[..|events| - 1];
    assert forall k :: 0 <= k <= |init| ==> init[..k] == events[..k];
    hide Enabled, Apply, FailureTaken, SetsCounter;
  }

  /** The sums of a run of events: of the counter when it is left to itself, and of the dispatches in any case. */
  predicate AddsUp(s: Runtime, t: Runtime, slot: Slot, failures: nat, leftToItself: bool)
    requires Holds(s.registry, slot) && Holds(t.registry, slot)
  {
    var (st, end) := (StageAt(s.registry, slot), StageAt(t.registry, slot));
    && (leftToItself ==>
          && end.maxAttempts == st.maxAttempts
          && end.attempts == st.attempts + failures
          && (end.state.Exhausted? ==> (st.state.Exhausted? && failures == 0) || end.attempts == end.maxAttempts))
    && failures + Busy(end) + Dispatches(s, slot) <= Busy(st) + Dispatches(t, slot)
  }

  lemma OneMoreAddsUp(s: Runtime, u: Runtime, t: Runtime, slot: Slot, failures: nat, more: nat, left: bool,
                      counterSet: bool)
    requires Holds(s.registry, slot) && Holds(u.registry, slot) && Holds(t.registry, slot)
    requires AddsUp(s, u, slot, failures, left) && FitsTally(u, t, slot, more, counterSet)
    ensures AddsUp(s, t, slot, failures + more, left && !counterSet)
  {
    hide StageAt, Dispatches;
  }

  lemma NothingYet(s: Runtime, slot: Slot)
    requires Holds(s.registry, slot)
    ensures FailuresTaken(s, [], slot) == 0 && Run(s, []) == Some(s) && AddsUp(s, s, slot, 0, true)
  {
  }

  lemma StaysHeld(s: Runtime, events: seq<Event>, slot: Slot)
    requires events != [] && Inv(s) && Run(s, events).Some? && slot.stage in s.usedStages
    requires Holds(Run(s, events).value.registry, slot)
    ensures Holds(Run(s, events[..|events| - 1]).value.registry, slot)
  {
    hide Inv, Enabled, Apply, Holds;
    var init := events[..|events| - 1];
    RunsKeepInv(s, init);
    UsedAlong(s, init, slot.stage);
    SchedulerRuns.NoStageReturns(Run(s, init).value, events[|events| - 1], slot);
  }

  lemma {:induction false} UsedAlong(s: Runtime, events: seq<Event>, sid: StageId)
    requires Run(s, events).Some? && sid in s.usedStages
    ensures sid in Run(s, events).value.usedStages
  {
    hide Enabled, Apply;
    if events != [] {
      UsedAlong(s, events[..|events| - 1], sid);
      SchedulerRuns.UsedStaysUsed(Run(s, events[..|events| - 1]).value, events[|events| - 1], sid);
    }
  }

  lemma HeldIsUsed(s: Runtime, slot: Slot)
    requires Inv(s) && Holds(s.registry, slot)
    ensures slot.stage in s.usedStages
  {
  }

  lemma {:induction false} RunAddsUp(s: Runtime, events: seq<Event>, slot: Slot)
    requires Inv(s) && Run(s, events).Some?
    requires Holds(s.registry, slot) && Holds(Run(s, events).value.registry, slot)
    ensures AddsUp(s, Run(s, events).value, slot, FailuresTaken(s, events, slot), LeftToItself(s, events, slot))
  {
    hide *;
    if events == [] {
      NothingYet(s, slot);
      MoreOrLess(s, s, slot, 0, LeftToItself(s, events, slot));
    } else {
      var (init, e) := (events[..|events| - 1], events[|events| - 1]);
      HeldIsUsed(s, slot);
      FailuresGrow(s, events, slot);
      StaysHeld(s, events, slot);
      RunAddsUp(s, init, slot);
      RunsKeepInv(s, init);
      var (u, n) := (Run(s, init).value, FailuresTaken(s, init, slot));
      EventTally(u, e, slot);
      OneMoreAddsUp(s, u, Apply(u, e), slot, n, Taken(u, e, slot), LeftToItself(s, init, slot),
                    SetsCounter(u, e, slot));
      MoreOrLess(s, Apply(u, e), slot, n + Taken(u, e, slot), LeftToItself(s, events, slot));
    }
  }

  lemma MoreOrLess(s: Runtime, t: Runtime, slot: Slot, failures: nat, left: bool)
    requires Holds(s.registry, slot) && Holds(t.registry, slot)
    ensures AddsUp(s, t, slot, failures, true) ==> AddsUp(s, t, slot, failures, left)
  {
    hide StageAt, Dispatches;
  }

  /**
    Over any run of events, crashes included, in which the stage is neither refused nor retried by hand, its
    counter goes up by exactly the failures its workers reported while it was Running.
   */
  lemma AttemptsAreFailures(s: Runtime, events: seq<Event>, slot: Slot)
    requires Inv(s) && Run(s, events).Some? && LeftToItself(s, events, slot)
    requires Holds(s.registry, slot) && Holds(Run(s, events).value.registry, slot)
    ensures StageAt(Run(s, events).value.registry, slot).attempts
      == StageAt(s.registry, slot).attempts + FailuresTaken(s, events, slot)
  {
    RunAddsUp(s, events, slot);
    hide Inv, StageAt, Dispatches, Run, Busy;
  }

  /** Every failure taken was dispatched for: whatever happens, there are no more of them than starts to account for. */
  lemma FailuresAreDispatched(s: Runtime, events: seq<Event>, slot: Slot)
    requires Inv(s) && Run(s, events).Some?
    requires Holds(s.registry, slot) && Holds(Run(s, events).value.registry, slot)
    ensures var t := Run(s, events).value;
      FailuresTaken(s, events, slot) + (if StageAt(t.registry, slot).state.Running? then 1 else 0)
        <= (if StageAt(s.registry, slot).state.Running? then 1 else 0) + Dispatches(t, slot) - Dispatches(s, slot)
  {
    RunAddsUp(s, events, slot);
    hide Inv, StageAt, Dispatches, Run;
  }

  /**
    A stage with attempts left is exhausted exactly when it has failed as often as it had attempts left, and it
    never fails more often than that; the dispatches it took are at least as many.
   */
  lemma ExhaustedExactlyWhenSpent(s: Runtime, events: seq<Event>, slot: Slot)
    requires Inv(s) && Run(s, events).Some? && LeftToItself(s, events, slot)
    requires Holds(s.registry, slot) && Holds(Run(s, events).value.registry, slot)
    requires !StageAt(s.registry, slot).state.Exhausted?
    ensures var (st, t, failures) := (StageAt(s.registry, slot), Run(s, events).value, FailuresTaken(s, events, slot));
      && (StageAt(t.registry, slot).state.Exhausted? <==> failures == st.maxAttempts - st.attempts)
      && failures <= st.maxAttempts - st.attempts
      && (!st.state.Running? ==> failures <= Dispatches(t, slot) - Dispatches(s, slot))
  {
    hide *;
    RunAddsUp(s, events, slot);
    RunsKeepInv(s, events);
    StageInBudget(s, slot);
    StageInBudget(Run(s, events).value, slot);
    SpentByFailing(s, Run(s, events).value, slot, FailuresTaken(s, events, slot));
  }

  lemma StageInBudget(s: Runtime, slot: Slot)
    requires Inv(s) && Holds(s.registry, slot)
    ensures WithinBudget(StageAt(s.registry, slot))
  {
    var i := HeldStage(s, slot);
    hide Inv, WithinBudget, Index, Effects.IsStage;
  }

  lemma SpentByFailing(s: Runtime, t: Runtime, slot: Slot, failures: nat)
    requires Holds(s.registry, slot) && Holds(t.registry, slot) && AddsUp(s, t, slot, failures, true)
    requires WithinBudget(StageAt(s.registry, slot)) && WithinBudget(StageAt(t.registry, slot))
    requires !StageAt(s.registry, slot).state.Exhausted?
    ensures var st := StageAt(s.registry, slot);
      && (StageAt(t.registry, slot).state.Exhausted? <==> failures == st.maxAttempts - st.attempts)
      && failures <= st.maxAttempts - st.attempts
      && (!st.state.Running? ==> failures <= Dispatches(t, slot) - Dispatches(s, slot))
  {
    hide StageAt, Dispatches;
  }
}
