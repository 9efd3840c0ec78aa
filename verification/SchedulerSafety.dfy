/**
  The scheduler's invariant holds in every state any interleaving can reach.
 */
module SchedulerSafety {
  import opened Wrappers
  import opened Sequences
  import opened Stages
  import opened Executor
  import opened RunInvariant
  import opened RegistryInvariant
  import opened Scheduler

  /** `t` is `r` with one run moved on. */
  ghost predicate Advances(r: Registry, t: Registry, id: PipelineId) {
    && id in r.pipelines && id in t.pipelines
    && t == Put(r, id, t.pipelines[id])
    && Kept(r.pipelines[id], t.pipelines[id])
    && Sound(t.pipelines[id])
  }

  lemma AdvanceKeeps(r: Registry, t: Registry, id: PipelineId)
    requires RegInv(r) && Advances(r, t, id)
    ensures RegInv(t)
  {
    PutKeeps(r, id, t.pipelines[id]);
  }

  lemma AdvanceSlots(r: Registry, t: Registry, id: PipelineId)
    requires Advances(r, t, id)
    ensures forall slot :: Holds(t, slot) <==> Holds(r, slot)
    ensures forall slot :: Holds(r, slot) ==>
      Index(t.pipelines[slot.pipeline], slot.stage) == Index(r.pipelines[slot.pipeline], slot.stage)
    ensures forall slot :: Holds(r, slot) && slot.pipeline != id ==>
      t.pipelines[slot.pipeline] == r.pipelines[slot.pipeline]
    ensures |t.pipelines[id].stages| == |r.pipelines[id].stages|
  {
  }

  lemma StageOkAt(s: Runtime, id: PipelineId, j: nat)
    requires StagesOk(s) && id in s.registry.pipelines && DistinctIds(Design(s.registry.pipelines[id]))
    requires j < |s.registry.pipelines[id].stages|
    ensures var p := s.registry.pipelines[id];
      && Holds(s.registry, Slot(id, p.stages[j].id))
      && StageOk(s, Slot(id, p.stages[j].id), p.stages[j], p.IsActive())
  {
  }

  lemma QueueSafeAfter(s: Runtime, t: Runtime, id: PipelineId)
    requires QueueSafe(s) && Advances(s.registry, t.registry, id)
    requires forall slot :: slot in t.queue ==> slot in s.queue
    ensures QueueSafe(t)
  {
  }

  lemma IdsCoherentAfter(s: Runtime, t: Runtime, id: PipelineId)
    requires IdsCoherent(s) && Advances(s.registry, t.registry, id) && t.usedStages == s.usedStages
    requires forall slot :: Mentioned(t, slot) ==> Mentioned(s, slot) || Holds(s.registry, slot)
    requires WellShaped(s.registry)
    ensures IdsCoherent(t)
  {
  }

  /** A run that completes nothing and re-arms nothing, or is over, offers no new work. */
  predicate OffersNothingNew(p: Pipeline, q: Pipeline) {
    && |q.stages| == |p.stages|
    && (q.IsActive() ==> p.IsActive())
    && forall j :: 0 <= j < |p.stages| && q.IsActive() ==>
         && (q.stages[j].state.Done? || q.stages[j].state.Skipped? ==>
               p.stages[j].state.Done? || p.stages[j].state.Skipped?)
         && (q.stages[j].state.Pending? ==> p.stages[j].state.Pending?)
  }

  /** Either the dispatcher will look again, or no work appeared and no ready entry was dropped. */
  lemma NoLostWakeupAfter(s: Runtime, t: Runtime, id: PipelineId)
    requires NoLostWakeup(s) && Advances(s.registry, t.registry, id)
    requires WillLook(t) || (
      && !WillLook(s)
      && OffersNothingNew(s.registry.pipelines[id], t.registry.pipelines[id])
      && (forall slot :: slot in s.queue && SlotReady(t.registry, slot) ==> slot in t.queue))
    ensures NoLostWakeup(t)
  {
  }

  /** The tasks of every other run are where they were. */
  ghost predicate OthersUntouched(s: Runtime, t: Runtime, id: PipelineId) {
    && t.crashes == s.crashes && t.manualRetries >= s.manualRetries
    && (forall slot :: slot in t.queue ==> slot in s.queue)
    && (forall slot: Slot :: slot.pipeline != id ==> Live(t, slot) == Live(s, slot))
    && (forall slot: Slot :: slot.pipeline != id ==> Dispatches(t, slot) == Dispatches(s, slot))
    && (forall slot :: slot in t.revoked && slot.pipeline != id ==> slot in s.revoked)
  }

  lemma OthersStayOk(s: Runtime, t: Runtime, id: PipelineId)
    requires StagesOk(s) && OthersUntouched(s, t, id)
    ensures forall slot :: Holds(s.registry, slot) && slot.pipeline != id ==>
      StageOk(t, slot, StageAt(s.registry, slot), s.registry.pipelines[slot.pipeline].IsActive())
  {
    forall slot | Holds(s.registry, slot) && slot.pipeline != id
      ensures StageOk(t, slot, StageAt(s.registry, slot), s.registry.pipelines[slot.pipeline].IsActive())
    {
      OtherStaysOk(s, t, id, slot);
    }
  }

  /** A stage's state still fits its tasks when fewer of them are queued or revoked and more retries are on record. */
  lemma FitsStill(before: Tasks, after: Tasks, st: Stage, active: bool)
    requires before.Fit(st, active)
    requires (after.queued ==> before.queued) && (after.revoked ==> before.revoked)
    requires after.live == before.live && after.dispatches == before.dispatches && after.crashes == before.crashes
    requires after.manualRetries >= before.manualRetries
    ensures after.Fit(st, active)
  {
    MoreIsMore(st.maxAttempts, before.manualRetries, after.manualRetries);
  }

  lemma MoreIsMore(n: nat, a: nat, b: nat)
    requires a <= b
    ensures n * a <= n * b
  {
  }

  lemma OtherStaysOk(s: Runtime, t: Runtime, id: PipelineId, slot: Slot)
    requires StagesOk(s) && OthersUntouched(s, t, id) && Holds(s.registry, slot) && slot.pipeline != id
    ensures StageOk(t, slot, StageAt(s.registry, slot), s.registry.pipelines[slot.pipeline].IsActive())
  {
    var (st, active) := (StageAt(s.registry, slot), s.registry.pipelines[slot.pipeline].IsActive());
    assert StageOk(s, slot, st, active);
    hide StagesOk, Holds, StageAt, Live, Dispatches, Tasks.Fit;
    FitsStill(TasksOf(s, slot), TasksOf(t, slot), st, active);
  }

  lemma StagesOkAfter(s: Runtime, t: Runtime, id: PipelineId)
    requires StagesOk(s) && Advances(s.registry, t.registry, id) && OthersUntouched(s, t, id)
    requires RunStagesOk(t, id, t.registry.pipelines[id])
    ensures StagesOk(t)
  {
    OthersStayOk(s, t, id);
    AdvanceSlots(s.registry, t.registry, id);
    hide OthersUntouched, StageOk, Advances;
    forall slot | Holds(t.registry, slot)
      ensures StageOk(t, slot, StageAt(t.registry, slot), t.registry.pipelines[slot.pipeline].IsActive())
    {
      if slot.pipeline == id {
        var q := t.registry.pipelines[id];
        assert slot == Slot(id, q.stages[Index(q, slot.stage)].id);
      }
    }
  }

  /** The stages of one run in `t` agree with the tasks in `t`, told per position. */
  predicate RunStagesOk(t: Runtime, id: PipelineId, p: Pipeline) {
    forall j :: 0 <= j < |p.stages| ==> StageOk(t, Slot(id, p.stages[j].id), p.stages[j], p.IsActive())
  }

  /** The invariant after an event that moves one run: what is left to show per event. */
  lemma InvAfter(s: Runtime, t: Runtime, id: PipelineId)
    requires Inv(s) && Advances(s.registry, t.registry, id)
    requires OthersUntouched(s, t, id) && RunStagesOk(t, id, t.registry.pipelines[id])
    requires SingleWorkers(t) && NoLostWakeup(t)
    requires t.usedStages == s.usedStages
    requires forall slot :: Mentioned(t, slot) ==> Mentioned(s, slot) || Holds(s.registry, slot)
    requires t.manualRetries > 0 || (t.registry.pipelines[id].IsActive() ==> s.registry.pipelines[id].IsActive())
    ensures Inv(t)
  {
    hide RegInv, StagesOk, IdsCoherent, QueueSafe, SingleWorkers, NoLostWakeup, ActiveRunsDiffer, Advances;
    AdvanceKeeps(s.registry, t.registry, id);
    assert forall slot :: slot in t.queue ==> slot in s.queue;
    StagesOkAfter(s, t, id);
    QueueSafeAfter(s, t, id);
    ShapeOf(s.registry);
    IdsCoherentAfter(s, t, id);
    if t.manualRetries == 0 {
      ActiveRunsDifferAfter(s, t, id);
    }
  }

  lemma ShapeOf(r: Registry)
    requires RegInv(r)
    ensures WellShaped(r)
  {
  }

  lemma ActiveRunsDifferAfter(s: Runtime, t: Runtime, id: PipelineId)
    requires Advances(s.registry, t.registry, id) && ActiveRunsDiffer(s.registry)
    requires t.registry.pipelines[id].IsActive() ==> s.registry.pipelines[id].IsActive()
    ensures ActiveRunsDiffer(t.registry)
  {
  }

  lemma RunOf(r: Registry, id: PipelineId)
    requires RegInv(r) && id in r.pipelines
    ensures RunInv(r.pipelines[id]) && Sound(r.pipelines[id]) && r.pipelines[id].id == id
  {
  }

  // What the scheduler's own events do, told one by one.

  lemma WakeStep(s: Runtime)
    requires s.owedWakes > 0
    ensures Enabled(s, Wake) && Apply(s, Wake) == s.(owedWakes := s.owedWakes - 1, permit := true)
  {
  }

  lemma NotifyStep(s: Runtime)
    requires s.permit && Idle(s)
    ensures Enabled(s, Notify) && Apply(s, Notify) == s.(permit := false, notified := true)
  {
  }

  lemma SnapshotStep(s: Runtime)
    requires s.notified
    ensures Enabled(s, Snapshot) && Apply(s, Snapshot) == s.(notified := false, queue := ReadyStages(s.registry))
  {
    hide ReadyStages;
  }

  lemma MarkStep(s: Runtime)
    requires s.queue != [] && s.current.None? && MarkRunning(s.registry, s.queue[0]).1
    ensures Enabled(s, Mark)
    ensures var (slot, r) := (s.queue[0], s.registry);
      Apply(s, Mark) == s.(registry := MarkRunning(r, slot).0, queue := s.queue[1..], current := Some(slot),
                           hasTarget := StageAt(r, slot).dispatch.Some?,
                           dispatches := s.dispatches[slot := Dispatches(s, slot) + 1])
  {
    hide Started, Dispatches;
  }

  lemma SpawnStep(s: Runtime)
    requires s.current.Some? && s.hasTarget
    ensures Enabled(s, Spawn)
    ensures Apply(s, Spawn) == s.(current := None, workers := s.workers + multiset{s.current.value})
  {
  }

  lemma RefuseStep(s: Runtime, error: string)
    requires s.current.Some?
    ensures Enabled(s, Refuse(error))
    ensures Apply(s, Refuse(error))
      == s.(registry := ExhaustStage(s.registry, s.current.value.stage, error).0, current := None)
  {
    hide ExhaustStage;
  }

  lemma FailStep(s: Runtime, slot: Slot, error: string)
    requires slot in s.workers
    ensures Enabled(s, Fail(slot, error))
    ensures var r := MarkFailed(s.registry, slot.stage, error).0;
      Apply(s, Fail(slot, error))
        == s.(registry := r, workers := s.workers - multiset{slot},
              timers := if Holds(r, slot) && StageAt(r, slot).state.Failed? then s.timers + multiset{slot}
                        else s.timers)
  {
    hide MarkFailed;
  }

  lemma FinishStep(s: Runtime, slot: Slot, artifacts: seq<Artifact>)
    requires slot in s.workers
    ensures Enabled(s, Finish(slot, artifacts))
    ensures Apply(s, Finish(slot, artifacts))
      == s.(registry := CompleteStage(s.registry, slot, artifacts).0, workers := s.workers - multiset{slot},
            owedWakes := s.owedWakes + 1)
  {
    hide CompleteStage;
  }

  // -------------------------------------------------------------------- workers

  lemma FewerTasks(s: Runtime, t: Runtime)
    requires SingleWorkers(s) && t.workers <= s.workers && t.queue == s.queue && t.notified == s.notified
    requires t.current == s.current || t.current.None?
    ensures SingleWorkers(t)
    ensures forall slot: Slot :: Live(t, slot) <= Live(s, slot)
  {
    forall slot: Slot ensures Live(t, slot) <= Live(s, slot) {
    }
  }

  lemma OneTaskEnds(s: Runtime, t: Runtime, slot: Slot)
    requires SingleWorkers(s) && Live(s, slot) > 0
    requires (t.workers == s.workers - multiset{slot} && t.current == s.current && slot in s.workers)
          || (t.workers == s.workers && t.current == None && s.current == Some(slot))
    ensures forall other: Slot :: Live(t, other) == if other == slot then 0 else Live(s, other)
  {
  }

  /** A worker whose stage moved on without it changes nothing but the list of live workers. */
  lemma LateResultKeeps(s: Runtime, slot: Slot, t: Runtime)
    requires Inv(s) && slot in s.workers
    requires Holds(s.registry, slot) ==> !StageAt(s.registry, slot).state.Running?
    requires t == s.(workers := s.workers - multiset{slot}, owedWakes := t.owedWakes) && t.owedWakes >= s.owedWakes
    ensures Inv(t)
  {
    hide RegInv, ActiveRunsDiffer;
    FewerTasks(s, t);
    forall other: Slot ensures other != slot ==> Live(t, other) == Live(s, other) {
    }
  }

  lemma CompletedStages(p: Pipeline, i: nat, artifacts: seq<Artifact>)
    requires Sound(p) && i < |p.stages| && p.stages[i].state.Running?
    ensures var q := Completed(p, i, artifacts);
      && |q.stages| == |p.stages|
      && q.stages[i] == p.stages[i].(state := StageState.Done, artifacts := artifacts)
      && (forall j :: 0 <= j < |p.stages| && j != i ==> q.stages[j] == p.stages[j])
      && (p.IsActive() && !q.IsActive() ==> forall j :: 0 <= j < |q.stages| ==> !q.stages[j].state.Pending?)
      && (q.IsActive() ==> p.IsActive())
  {
  }

  lemma FinishStages(s: Runtime, t: Runtime, id: PipelineId, i: nat, artifacts: seq<Artifact>)
    requires StagesOk(s) && id in s.registry.pipelines
    requires var p := s.registry.pipelines[id];
      Sound(p) && i < |p.stages| && p.stages[i].state.Running?
      && OneTaskLess(s, t, Slot(id, p.stages[i].id))
    ensures RunStagesOk(t, id, Completed(s.registry.pipelines[id], i, artifacts))
  {
    var p := s.registry.pipelines[id];
    var q := Completed(p, i, artifacts);
    CompletedStages(p, i, artifacts);
    hide StagesOk, Completed, OneTaskLess, DependencySafe, AttemptsCounted, StatesAgree;
    forall j | 0 <= j < |q.stages| ensures StageOk(t, Slot(id, q.stages[j].id), q.stages[j], q.IsActive()) {
      StageOkAt(s, id, j);
      IndexOfStage(p, i);
      IndexOfStage(p, j);
      OneTaskLessAt(s, t, Slot(id, p.stages[i].id), Slot(id, p.stages[j].id));
    }
  }

  /** `t` has the tasks of `s` except the one live task of `slot`. */
  ghost predicate OneTaskLess(s: Runtime, t: Runtime, slot: Slot) {
    && t.queue == s.queue && t.revoked == s.revoked && t.dispatches == s.dispatches
    && t.crashes == s.crashes && t.manualRetries == s.manualRetries && t.usedStages == s.usedStages
    && forall other: Slot :: Live(t, other) == if other == slot then 0 else Live(s, other)
  }

  lemma OneTaskLessAt(s: Runtime, t: Runtime, slot: Slot, other: Slot)
    requires OneTaskLess(s, t, slot)
    ensures TasksOf(t, other) == TasksOf(s, other).(live := if other == slot then 0 else Live(s, other))
  {
  }

  lemma OneTaskLessOthers(s: Runtime, t: Runtime, slot: Slot)
    requires OneTaskLess(s, t, slot)
    ensures OthersUntouched(s, t, slot.pipeline)
    ensures forall other: Slot :: Live(t, other) <= Live(s, other)
  {
  }

  lemma LiveFinishKeeps(s: Runtime, t: Runtime, slot: Slot, artifacts: seq<Artifact>)
    requires Inv(s) && slot in s.workers && CompleteStage(s.registry, slot, artifacts).1
    requires t == s.(registry := CompleteStage(s.registry, slot, artifacts).0, workers := s.workers - multiset{slot},
                     owedWakes := s.owedWakes + 1)
    ensures Inv(t)
  {
    hide RegInv, StagesOk, SingleWorkers, IdsCoherent, QueueSafe, ActiveRunsDiffer, Kept, Sound, Completed,
      RunStagesOk;
    var id := slot.pipeline;
    var p := s.registry.pipelines[id];
    var i := Index(p, slot.stage);
    RunOf(s.registry, id);
    FewerTasks(s, t);
    OneTaskEnds(s, t, slot);
    CompletedIsSound(p, i, artifacts);
    FinishStages(s, t, id, i, artifacts);
    OneTaskLessOthers(s, t, slot);
    NoLostWakeupAfter(s, t, id);
    InvAfter(s, t, id);
  }

  lemma FinishKeeps(s: Runtime, slot: Slot, artifacts: seq<Artifact>)
    requires Inv(s) && Enabled(s, Finish(slot, artifacts))
    ensures Inv(Apply(s, Finish(slot, artifacts)))
  {
    FinishStep(s, slot, artifacts);
    var t := Apply(s, Finish(slot, artifacts));
    hide Inv, Apply, Completed;
    if CompleteStage(s.registry, slot, artifacts).1 {
      LiveFinishKeeps(s, t, slot, artifacts);
    } else {
      LateResultKeeps(s, slot, t);
    }
  }

  /** A task looks its stage up by stage id alone, and finds its own run or nothing. */
  lemma OwnerOfTask(s: Runtime, slot: Slot)
    requires WellShaped(s.registry) && IdsCoherent(s) && Mentioned(s, slot)
    ensures Owner(s.registry, slot.stage) == if Holds(s.registry, slot) then Some(slot.pipeline) else None
  {
  }

  /** What exhausting a stage of a sound run means for it and its siblings. */
  lemma ExhaustedRun(p: Pipeline, i: nat, attempts: U8, error: string)
    requires Sound(p) && i < |p.stages| && p.stages[i].state.Running?
    ensures var q := ExhaustedBy(p, i, attempts, error);
      && OffersNothingNew(p, q) && !q.IsActive()
      && q.stages[i] == p.stages[i].(state := StageState.Exhausted(error), attempts := attempts)
      && forall j :: 0 <= j < |p.stages| && j != i ==> q.stages[j] == StopSibling(p.stages[i].id, p.stages[j])
                                                       && p.stages[j].id != p.stages[i].id
  {
  }

  /** A stage of a run that is over, after its state was worked out from the one before. */
  lemma StoppedStageIsOk(s: Runtime, t: Runtime, id: PipelineId, p: Pipeline, j: nat, failed: StageId)
    requires j < |p.stages| && p.stages[j].id != failed
    requires StageOk(s, Slot(id, p.stages[j].id), p.stages[j], p.IsActive())
    requires TasksOf(t, Slot(id, p.stages[j].id)) == TasksOf(s, Slot(id, p.stages[j].id))
    ensures StageOk(t, Slot(id, p.stages[j].id), StopSibling(failed, p.stages[j]), false)
  {
    hide TasksOf;
  }

  lemma ExhaustedStageIsOk(s: Runtime, t: Runtime, id: PipelineId, p: Pipeline, i: nat, attempts: U8, error: string)
    requires i < |p.stages| && p.stages[i].state.Running? && WithinBudget(p.stages[i])
    requires var slot := Slot(id, p.stages[i].id);
      && StageOk(s, slot, p.stages[i], p.IsActive())
      && TasksOf(t, slot) == TasksOf(s, slot).(live := 0)
    ensures StageOk(t, Slot(id, p.stages[i].id),
                    p.stages[i].(state := StageState.Exhausted(error), attempts := attempts), false)
  {
    hide TasksOf;
  }

  lemma ExhaustStages(s: Runtime, t: Runtime, id: PipelineId, i: nat, attempts: U8, error: string)
    requires StagesOk(s) && id in s.registry.pipelines
    requires var p := s.registry.pipelines[id];
      Sound(p) && i < |p.stages| && p.stages[i].state.Running?
      && OneTaskLess(s, t, Slot(id, p.stages[i].id))
    ensures RunStagesOk(t, id, ExhaustedBy(s.registry.pipelines[id], i, attempts, error))
  {
    var p := s.registry.pipelines[id];
    var q := ExhaustedBy(p, i, attempts, error);
    ExhaustedRun(p, i, attempts, error);
    assert WithinBudget(p.stages[i]);
    hide StagesOk, ExhaustedBy, OneTaskLess, OffersNothingNew, DependencySafe, AttemptsCounted, StatesAgree, StageOk,
      WithinBudget, TasksOf, StopSibling;
    forall j | 0 <= j < |q.stages| ensures StageOk(t, Slot(id, q.stages[j].id), q.stages[j], q.IsActive()) {
      StageOkAt(s, id, j);
      OneTaskLessAt(s, t, Slot(id, p.stages[i].id), Slot(id, p.stages[j].id));
      if j == i {
        ExhaustedStageIsOk(s, t, id, p, i, attempts, error);
      } else {
        StoppedKeepsId(p.stages[i].id, p.stages[j]);
        SameTasksUnlessLess(s, t, Slot(id, p.stages[j].id));
        StoppedStageIsOk(s, t, id, p, j, p.stages[i].id);
      }
    }
  }

  lemma StoppedKeepsId(failed: StageId, st: Stage)
    ensures StopSibling(failed, st).id == st.id
  {
  }

  lemma SameTasksUnlessLess(s: Runtime, t: Runtime, other: Slot)
    requires TasksOf(t, other) == TasksOf(s, other).(live := Live(s, other))
    ensures TasksOf(t, other) == TasksOf(s, other)
  {
  }

  /** A failure with attempts to spare touches one stage and nothing else. */
  lemma FailedStageIsOk(s: Runtime, t: Runtime, id: PipelineId, p: Pipeline, i: nat, error: string)
    requires i < |p.stages| && p.stages[i].state.Running? && WithinBudget(p.stages[i])
    requires SaturatingInc(p.stages[i].attempts) < p.stages[i].maxAttempts
    requires var slot := Slot(id, p.stages[i].id);
      && StageOk(s, slot, p.stages[i], p.IsActive())
      && TasksOf(t, slot) == TasksOf(s, slot).(live := 0)
    ensures StageOk(t, Slot(id, p.stages[i].id), FailedBy(p, i, error).stages[i], p.IsActive())
  {
    hide TasksOf, ExhaustedBy;
  }

  lemma FailedByOne(p: Pipeline, i: nat, error: string)
    requires i < |p.stages| && SaturatingInc(p.stages[i].attempts) < p.stages[i].maxAttempts
    ensures var q := FailedBy(p, i, error);
      && |q.stages| == |p.stages| && q.state == p.state && q.stages[i].id == p.stages[i].id
      && q.stages[i].state.Failed?
      && forall j :: 0 <= j < |p.stages| && j != i ==> q.stages[j] == p.stages[j]
  {
  }

  lemma FailStages(s: Runtime, t: Runtime, id: PipelineId, i: nat, error: string)
    requires StagesOk(s) && id in s.registry.pipelines
    requires var p := s.registry.pipelines[id];
      Sound(p) && i < |p.stages| && p.stages[i].state.Running?
      && OneTaskLess(s, t, Slot(id, p.stages[i].id))
    ensures RunStagesOk(t, id, FailedBy(s.registry.pipelines[id], i, error))
    ensures OffersNothingNew(s.registry.pipelines[id], FailedBy(s.registry.pipelines[id], i, error))
  {
    var p := s.registry.pipelines[id];
    var q := FailedBy(p, i, error);
    var attempts := SaturatingInc(p.stages[i].attempts);
    assert WithinBudget(p.stages[i]);
    if attempts >= p.stages[i].maxAttempts {
      ExhaustStages(s, t, id, i, attempts, error);
      ExhaustedRun(p, i, attempts, error);
    } else {
      FailedByOne(p, i, error);
      hide StagesOk, OneTaskLess, DependencySafe, AttemptsCounted, StatesAgree, FailedBy, StageOk, TasksOf,
        WithinBudget;
      forall j | 0 <= j < |q.stages| ensures StageOk(t, Slot(id, q.stages[j].id), q.stages[j], q.IsActive()) {
        StageOkAt(s, id, j);
        IndexOfStage(p, i);
        IndexOfStage(p, j);
        OneTaskLessAt(s, t, Slot(id, p.stages[i].id), Slot(id, p.stages[j].id));
        if j == i {
          FailedStageIsOk(s, t, id, p, i, error);
        } else {
          SameTasksUnlessLess(s, t, Slot(id, p.stages[j].id));
          SameStageStaysOk(s, t, Slot(id, p.stages[j].id), p.stages[j], p.IsActive());
        }
      }
    }
  }

  lemma SameStageStaysOk(s: Runtime, t: Runtime, slot: Slot, st: Stage, active: bool)
    requires StageOk(s, slot, st, active) && TasksOf(t, slot) == TasksOf(s, slot)
    ensures StageOk(t, slot, st, active)
  {
  }

  lemma LiveFailureKeeps(s: Runtime, t: Runtime, slot: Slot, error: string)
    requires Inv(s) && slot in s.workers && Holds(s.registry, slot) && StageAt(s.registry, slot).state.Running?
    requires var p := s.registry.pipelines[slot.pipeline];
      t == s.(registry := Put(s.registry, slot.pipeline, FailedBy(p, Index(p, slot.stage), error)),
              workers := s.workers - multiset{slot}, timers := t.timers)
    requires t.timers == s.timers || t.timers == s.timers + multiset{slot}
    ensures Inv(t)
  {
    hide RegInv, StagesOk, SingleWorkers, IdsCoherent, QueueSafe, ActiveRunsDiffer, Kept, Sound, FailedBy,
      RunStagesOk;
    var id := slot.pipeline;
    var p := s.registry.pipelines[id];
    var i := Index(p, slot.stage);
    RunOf(s.registry, id);
    FewerTasks(s, t);
    OneTaskEnds(s, t, slot);
    FailedIsSound(p, i, error);
    FailStages(s, t, id, i, error);
    OneTaskLessOthers(s, t, slot);
    NoLostWakeupAfter(s, t, id);
    InvAfter(s, t, id);
  }

  lemma FailKeeps(s: Runtime, slot: Slot, error: string)
    requires Inv(s) && Enabled(s, Fail(slot, error))
    ensures Inv(Apply(s, Fail(slot, error)))
  {
    hide RegInv, StagesOk, SingleWorkers, IdsCoherent, QueueSafe, ActiveRunsDiffer, FailedBy;
    var t := Apply(s, Fail(slot, error));
    ShapeOf(s.registry);
    OwnerOfTask(s, slot);
    if Holds(s.registry, slot) && StageAt(s.registry, slot).state.Running? {
      LiveFailureKeeps(s, t, slot, error);
    } else {
      NotFailedYet(s, slot);
      LateResultKeeps(s, slot, t);
    }
  }

  /** A worker never outlives its stage into Failed, so a late failure starts no timer. */
  lemma NotFailedYet(s: Runtime, slot: Slot)
    requires StagesOk(s) && Live(s, slot) > 0
    ensures Holds(s.registry, slot) ==> !StageAt(s.registry, slot).state.Failed?
  {
  }

  lemma LiveRefusalKeeps(s: Runtime, t: Runtime, slot: Slot, error: string)
    requires Inv(s) && s.current == Some(slot) && Holds(s.registry, slot) && StageAt(s.registry, slot).state.Running?
    requires var p := s.registry.pipelines[slot.pipeline];
      var i := Index(p, slot.stage);
      var q := ExhaustedBy(p, i, p.stages[i].maxAttempts, error);
      t == s.(registry := Put(s.registry, slot.pipeline, q), current := None)
    ensures Inv(t)
  {
    hide RegInv, StagesOk, SingleWorkers, IdsCoherent, QueueSafe, ActiveRunsDiffer, Kept, Sound, ExhaustedBy,
      RunStagesOk, OffersNothingNew;
    var id := slot.pipeline;
    var p := s.registry.pipelines[id];
    var i := Index(p, slot.stage);
    RunOf(s.registry, id);
    FewerTasks(s, t);
    OneTaskEnds(s, t, slot);
    ExhaustedIsSound(p, i, p.stages[i].maxAttempts, error);
    ExhaustedRun(p, i, p.stages[i].maxAttempts, error);
    ExhaustStages(s, t, id, i, p.stages[i].maxAttempts, error);
    OneTaskLessOthers(s, t, slot);
    NoLostWakeupAfter(s, t, id);
    InvAfter(s, t, id);
  }

  lemma RefuseKeeps(s: Runtime, error: string)
    requires Inv(s) && Enabled(s, Refuse(error))
    ensures Inv(Apply(s, Refuse(error)))
  {
    hide RegInv, StagesOk, SingleWorkers, IdsCoherent, QueueSafe, ActiveRunsDiffer, ExhaustedBy;
    var slot := s.current.value;
    var t := Apply(s, Refuse(error));
    ShapeOf(s.registry);
    OwnerOfTask(s, slot);
    if Holds(s.registry, slot) && StageAt(s.registry, slot).state.Running? {
      LiveRefusalKeeps(s, t, slot, error);
    } else {
      LateRefusalKeeps(s, t);
    }
  }

  lemma LateRefusalKeeps(s: Runtime, t: Runtime)
    requires Inv(s) && s.current.Some? && t == s.(current := None)
    requires Holds(s.registry, s.current.value) ==> !StageAt(s.registry, s.current.value).state.Running?
    ensures Inv(t)
  {
    hide RegInv, ActiveRunsDiffer;
    FewerTasks(s, t);
    forall other: Slot ensures other != s.current.value ==> Live(t, other) == Live(s, other) {
    }
  }

  // ----------------------------------------------------------------- dispatcher

  /** `t` has the tasks of `s` with the head of the queue now being dispatched. */
  ghost predicate HeadStarts(s: Runtime, t: Runtime) {
    && s.queue != [] && s.current.None?
    && t.queue == s.queue[1..] && t.current == Some(s.queue[0]) && t.workers == s.workers
    && t.revoked == s.revoked && t.crashes == s.crashes && t.manualRetries == s.manualRetries
    && t.usedStages == s.usedStages
    && t.dispatches == s.dispatches[s.queue[0] := Dispatches(s, s.queue[0]) + 1]
  }

  lemma HeadStartsAt(s: Runtime, t: Runtime, other: Slot)
    requires HeadStarts(s, t) && SingleWorkers(s)
    ensures TasksOf(t, other) ==
      if other == s.queue[0]
      then TasksOf(s, other).(queued := false, live := Live(s, other) + 1, dispatches := Dispatches(s, other) + 1)
      else TasksOf(s, other)
  {
  }

  lemma HeadStartsOthers(s: Runtime, t: Runtime)
    requires HeadStarts(s, t) && SingleWorkers(s)
    ensures OthersUntouched(s, t, s.queue[0].pipeline)
    ensures Live(s, s.queue[0]) == 0 && t.notified == s.notified ==> SingleWorkers(t)
  {
    forall slot: Slot
      ensures TasksOf(t, slot).live == Live(t, slot) && (slot != s.queue[0] ==> Live(t, slot) == Live(s, slot))
    {
      HeadStartsAt(s, t, slot);
    }
  }

  lemma StartStages(s: Runtime, t: Runtime, id: PipelineId, i: nat)
    requires StagesOk(s) && SingleWorkers(s) && HeadStarts(s, t) && id in s.registry.pipelines
    requires var p := s.registry.pipelines[id];
      Sound(p) && i < |p.stages| && p.stages[i].state.Pending? && s.queue[0] == Slot(id, p.stages[i].id)
    ensures RunStagesOk(t, id, Started(s.registry.pipelines[id], i))
    ensures Live(s, s.queue[0]) == 0 && s.registry.pipelines[id].IsActive()
  {
    var p := s.registry.pipelines[id];
    var q := Started(p, i);
    StageOkAt(s, id, i);
    hide StagesOk, HeadStarts, DependencySafe, AttemptsCounted, StatesAgree, SingleWorkers;
    forall j | 0 <= j < |q.stages| ensures StageOk(t, Slot(id, q.stages[j].id), q.stages[j], q.IsActive()) {
      StageOkAt(s, id, j);
      IndexOfStage(p, i);
      IndexOfStage(p, j);
      HeadStartsAt(s, t, Slot(id, p.stages[j].id));
    }
  }

  /** A snapshot entry that can still be marked running is waiting in an active run, all inputs done. */
  lemma MarkedWasPending(s: Runtime)
    requires StagesOk(s) && QueueSafe(s) && s.queue != []
    requires Holds(s.registry, s.queue[0])
    requires StageAt(s.registry, s.queue[0]).state.Pending? || StageAt(s.registry, s.queue[0]).state.Failed?
    ensures var p := s.registry.pipelines[s.queue[0].pipeline];
      StageAt(s.registry, s.queue[0]).state.Pending? && p.IsActive() && InputsDone(p, Index(p, s.queue[0].stage))
  {
  }

  lemma StartKeeps(s: Runtime, t: Runtime)
    requires Inv(s) && HeadStarts(s, t) && Holds(s.registry, s.queue[0])
    requires StageAt(s.registry, s.queue[0]).state.Pending? || StageAt(s.registry, s.queue[0]).state.Failed?
    requires var p := s.registry.pipelines[s.queue[0].pipeline];
      && t.registry == Put(s.registry, s.queue[0].pipeline, Started(p, Index(p, s.queue[0].stage)))
      && t.permit == s.permit && t.notified == s.notified && t.owedWakes == s.owedWakes && t.timers == s.timers
    ensures Inv(t)
  {
    hide RegInv, StagesOk, SingleWorkers, IdsCoherent, QueueSafe, ActiveRunsDiffer, Kept, Sound, RunStagesOk;
    var slot := s.queue[0];
    var id := slot.pipeline;
    var p := s.registry.pipelines[id];
    var i := Index(p, slot.stage);
    RunOf(s.registry, id);
    MarkedWasPending(s);
    StartedIsSound(p, i);
    StartStages(s, t, id, i);
    HeadStartsOthers(s, t);
    StartedLosesNothing(s, t);
    NoLostWakeupAfter(s, t, id);
    InvAfter(s, t, id);
  }

  lemma StartedLosesNothing(s: Runtime, t: Runtime)
    requires HeadStarts(s, t) && Holds(s.registry, s.queue[0])
    requires var p := s.registry.pipelines[s.queue[0].pipeline];
      var i := Index(p, s.queue[0].stage);
      && p.stages[i].state.Pending? && p.IsActive()
      && t.registry == Put(s.registry, s.queue[0].pipeline, Started(p, i))
      && Kept(p, Started(p, i))
    ensures var id := s.queue[0].pipeline; OffersNothingNew(s.registry.pipelines[id], t.registry.pipelines[id])
    ensures forall slot :: slot in s.queue && SlotReady(t.registry, slot) ==> slot in t.queue
  {
  }

  lemma StaleEntryKeeps(s: Runtime, t: Runtime)
    requires Inv(s) && s.queue != [] && t == s.(queue := s.queue[1..])
    requires !SlotReady(s.registry, s.queue[0])
    ensures Inv(t)
  {
    hide RegInv, ActiveRunsDiffer;
    assert s.queue == [s.queue[0]] + t.queue;
    forall slot: Slot ensures Live(t, slot) == Live(s, slot) && (slot in t.queue ==> slot in s.queue) {
    }
  }

  lemma MarkKeeps(s: Runtime)
    requires Inv(s) && Enabled(s, Mark)
    ensures Inv(Apply(s, Mark))
  {
    hide RegInv, StagesOk, SingleWorkers, IdsCoherent, QueueSafe, NoLostWakeup, ActiveRunsDiffer;
    var t := Apply(s, Mark);
    if MarkRunning(s.registry, s.queue[0]).1 {
      StartKeeps(s, t);
    } else {
      StaleEntryKeeps(s, t);
    }
  }

  // ------------------------------------------------------------ snapshots

  lemma {:induction false} ReadyInLists(p: Pipeline, upTo: nat, slot: Slot)
    requires upTo <= |p.stages|
    ensures slot in ReadyIn(p, upTo) <==>
      slot.pipeline == p.id && exists j :: 0 <= j < upTo && p.stages[j].id == slot.stage && IsReady(p, j)
  {
    if upTo > 0 {
      ReadyInLists(p, upTo - 1, slot);
    }
  }

  lemma {:induction false} ReadyInDistinct(p: Pipeline, upTo: nat)
    requires upTo <= |p.stages| && DistinctIds(Design(p))
    ensures Distinct(ReadyIn(p, upTo))
  {
    if upTo > 0 {
      ReadyInDistinct(p, upTo - 1);
      var last := Slot(p.id, p.stages[upTo - 1].id);
      ReadyInLists(p, upTo - 1, last);
      forall j | 0 <= j < upTo - 1 ensures p.stages[j].id != p.stages[upTo - 1].id {
        assert Design(p)[j].id != Design(p)[upTo - 1].id;
      }
    }
  }

  /** Every run lists its stages under distinct ids, filed under its own id. */
  ghost predicate Filed(r: Registry) {
    && Distinct(r.order)
    && forall id :: id in r.pipelines ==> r.pipelines[id].id == id && DistinctIds(Design(r.pipelines[id]))
  }

  lemma {:induction false} ReadyUpToLists(r: Registry, upTo: nat, slot: Slot)
    requires Filed(r) && upTo <= |r.order|
    ensures slot in ReadyUpTo(r, upTo) <==> SlotReady(r, slot) && slot.pipeline in r.order[..upTo]
  {
    if upTo > 0 {
      ReadyUpToLists(r, upTo - 1, slot);
      var id := r.order[upTo - 1];
      assert r.order[..upTo] == r.order[..upTo - 1] + [id];
      if id in r.pipelines {
        var p := r.pipelines[id];
        ReadyInLists(p, |p.stages|, slot);
        if j :| 0 <= j < |p.stages| && p.stages[j].id == slot.stage && IsReady(p, j) {
          IndexOfStage(p, j);
        }
      }
    }
  }

  lemma DistinctConcat(a: seq<Slot>, b: seq<Slot>)
    requires Distinct(a) && Distinct(b) && forall x :: x in b ==> x !in a
    ensures Distinct(a + b)
  {
    forall i, j | 0 <= i < j < |a + b| ensures (a + b)[i] != (a + b)[j] {
      if i < |a| <= j {
        assert b[j - |a|] in b && a[i] in a;
      }
    }
  }

  lemma {:induction false} ReadyUpToDistinct(r: Registry, upTo: nat)
    requires Filed(r) && upTo <= |r.order|
    ensures Distinct(ReadyUpTo(r, upTo))
  {
    if upTo > 0 {
      ReadyUpToDistinct(r, upTo - 1);
      var id := r.order[upTo - 1];
      assert id !in r.order[..upTo - 1];
      if id in r.pipelines {
        var p := r.pipelines[id];
        ReadyInDistinct(p, |p.stages|);
        forall slot | slot in ReadyIn(p, |p.stages|) ensures slot !in ReadyUpTo(r, upTo - 1) {
          ReadyInLists(p, |p.stages|, slot);
          ReadyUpToLists(r, upTo - 1, slot);
        }
        hide ReadyIn, Filed, Distinct;
        DistinctConcat(ReadyUpTo(r, upTo - 1), ReadyIn(p, |p.stages|));
      }
    }
  }

  lemma SoundIsFiled(r: Registry)
    requires RegInv(r)
    ensures Filed(r)
  {
  }

  /** A snapshot lists each ready stage exactly once and nothing else. */
  lemma SnapshotIsExact(r: Registry)
    requires RegInv(r)
    ensures forall slot :: slot in ReadyStages(r) <==> SlotReady(r, slot)
    ensures Distinct(ReadyStages(r))
  {
    SoundIsFiled(r);
    ReadyUpToDistinct(r, |r.order|);
    assert r.order[..|r.order|] == r.order;
    forall slot ensures slot in ReadyStages(r) <==> SlotReady(r, slot) {
      ReadyUpToLists(r, |r.order|, slot);
    }
  }

  lemma SnapshotEntry(r: Registry, slot: Slot)
    requires RegInv(r) && SlotReady(r, slot)
    ensures Holds(r, slot) && StageAt(r, slot).state.Pending? && r.pipelines[slot.pipeline].IsActive()
    ensures InputsDone(r.pipelines[slot.pipeline], Index(r.pipelines[slot.pipeline], slot.stage))
  {
  }

  lemma SnapshotKeeps(s: Runtime)
    requires Inv(s) && Enabled(s, Snapshot)
    ensures Inv(Apply(s, Snapshot))
  {
    hide RegInv, ActiveRunsDiffer, InputsDone, ReadyStages, SlotReady, WellShaped;
    var t := Apply(s, Snapshot);
    SnapshotIsExact(s.registry);
    ShapeOf(s.registry);
    forall slot | slot in t.queue
      ensures Holds(s.registry, slot) && StageAt(s.registry, slot).state.Pending?
        && s.registry.pipelines[slot.pipeline].IsActive()
      ensures InputsDone(s.registry.pipelines[slot.pipeline], Index(s.registry.pipelines[slot.pipeline], slot.stage))
    {
      SnapshotEntry(s.registry, slot);
    }
    SnapshotStages(s, t);
    SnapshotIds(s, t);
  }

  lemma SnapshotStages(s: Runtime, t: Runtime)
    requires StagesOk(s) && s.queue == [] && t == s.(notified := false, queue := t.queue)
    requires forall slot :: slot in t.queue && Holds(s.registry, slot) ==>
      StageAt(s.registry, slot).state.Pending? && s.registry.pipelines[slot.pipeline].IsActive()
    ensures StagesOk(t)
    ensures forall slot: Slot :: Live(t, slot) == Live(s, slot)
  {
  }

  lemma SnapshotIds(s: Runtime, t: Runtime)
    requires IdsCoherent(s) && WellShaped(s.registry) && t == s.(notified := false, queue := t.queue)
    requires forall slot :: slot in t.queue ==> Holds(s.registry, slot)
    ensures IdsCoherent(t)
  {
  }

  // ---------------------------------------------------------- timers and wakes

  lemma ElapsedStages(s: Runtime, t: Runtime, id: PipelineId, i: nat)
    requires StagesOk(s) && id in s.registry.pipelines && SameTasks(s, t)
    requires var p := s.registry.pipelines[id];
      Sound(p) && p.IsActive() && i < |p.stages| && p.stages[i].state.Failed?
    ensures RunStagesOk(t, id, WithState(s.registry.pipelines[id], i, StageState.Pending))
  {
    var p := s.registry.pipelines[id];
    var q := WithState(p, i, StageState.Pending);
    hide StagesOk, DependencySafe, AttemptsCounted, StatesAgree;
    forall j | 0 <= j < |q.stages| ensures StageOk(t, Slot(id, q.stages[j].id), q.stages[j], q.IsActive()) {
      StageOkAt(s, id, j);
      assert TasksOf(t, Slot(id, p.stages[j].id)) == TasksOf(s, Slot(id, p.stages[j].id));
    }
  }

  /** `t` has the queue, workers and tokens of `s`. */
  predicate SameTasks(s: Runtime, t: Runtime) {
    && t.queue == s.queue && t.current == s.current && t.workers == s.workers && t.notified == s.notified
    && t.revoked == s.revoked && t.dispatches == s.dispatches && t.crashes == s.crashes
    && t.manualRetries == s.manualRetries && t.usedStages == s.usedStages
  }

  lemma SameTasksOthers(s: Runtime, t: Runtime, id: PipelineId)
    requires SameTasks(s, t) && SingleWorkers(s)
    ensures OthersUntouched(s, t, id) && SingleWorkers(t)
  {
    forall slot: Slot ensures Live(t, slot) == Live(s, slot) {
    }
  }

  lemma RetryKeeps(s: Runtime, t: Runtime, slot: Slot)
    requires Inv(s) && SameTasks(s, t) && t.timers <= s.timers && WillLook(t)
    requires Holds(s.registry, slot) && StageAt(s.registry, slot).state.Failed?
    requires var p := s.registry.pipelines[slot.pipeline];
      p.IsActive()
      && t.registry == Put(s.registry, slot.pipeline, WithState(p, Index(p, slot.stage), StageState.Pending))
    ensures Inv(t)
  {
    hide RegInv, StagesOk, SingleWorkers, IdsCoherent, QueueSafe, ActiveRunsDiffer, Kept, Sound, RunStagesOk;
    var id := slot.pipeline;
    var p := s.registry.pipelines[id];
    var i := Index(p, slot.stage);
    RunOf(s.registry, id);
    RetriedIsSound(p, i);
    ElapsedStages(s, t, id, i);
    SameTasksOthers(s, t, id);
    NoLostWakeupAfter(s, t, id);
    InvAfter(s, t, id);
  }

  /** Events that touch no run: fewer tasks or an equivalent promise to look again. */
  lemma IdleStepKeeps(s: Runtime, t: Runtime)
    requires Inv(s) && t.registry == s.registry
    requires t.queue == s.queue && t.revoked == s.revoked && t.dispatches == s.dispatches && t.crashes == s.crashes
    requires t.manualRetries == s.manualRetries && t.usedStages == s.usedStages
    requires forall slot: Slot :: Live(t, slot) == Live(s, slot)
    requires t.timers <= s.timers && (t.notified ==> t.queue == [] && t.current.None?)
    requires WillLook(s) ==> WillLook(t)
    ensures Inv(t)
  {
  }

  lemma BackoffStep(s: Runtime, slot: Slot)
    requires slot in s.timers
    ensures Enabled(s, BackoffElapsed(slot))
    ensures var (r, done) := RetryFailed(s.registry, slot.stage);
      Apply(s, BackoffElapsed(slot))
        == s.(registry := r, timers := s.timers - multiset{slot},
              owedWakes := s.owedWakes + if done.Some? then 1 else 0)
  {
    hide RetryFailed;
  }

  lemma NoRetryKeeps(s: Runtime, t: Runtime, slot: Slot)
    requires Inv(s) && slot in s.timers && t == s.(timers := s.timers - multiset{slot})
    ensures Inv(t)
  {
    hide RegInv, StagesOk, SingleWorkers, IdsCoherent, QueueSafe, NoLostWakeup, ActiveRunsDiffer;
    assert forall other: Slot :: Live(t, other) == Live(s, other);
    DispatcherTurns(s);
    IdleStepKeeps(s, t);
  }

  lemma DueRetryKeeps(s: Runtime, t: Runtime, slot: Slot)
    requires Inv(s) && slot in s.timers && RetryFailed(s.registry, slot.stage).1.Some?
    requires t == s.(registry := RetryFailed(s.registry, slot.stage).0, timers := s.timers - multiset{slot},
                     owedWakes := s.owedWakes + 1)
    ensures Inv(t)
  {
    hide RegInv, StagesOk, SingleWorkers, IdsCoherent, QueueSafe, NoLostWakeup, ActiveRunsDiffer, WithState, Owner;
    ShapeOf(s.registry);
    OwnerOfTask(s, slot);
    RetryKeeps(s, t, slot);
  }

  lemma BackoffKeeps(s: Runtime, slot: Slot)
    requires Inv(s) && Enabled(s, BackoffElapsed(slot))
    ensures Inv(Apply(s, BackoffElapsed(slot)))
  {
    BackoffStep(s, slot);
    hide Inv, Apply, WithState, Owner;
    var t := Apply(s, BackoffElapsed(slot));
    if RetryFailed(s.registry, slot.stage).1.Some? {
      DueRetryKeeps(s, t, slot);
    } else {
      NoRetryKeeps(s, t, slot);
    }
  }

  lemma DispatcherTurns(s: Runtime)
    requires SingleWorkers(s)
    ensures s.notified ==> s.queue == [] && s.current.None?
  {
  }

  lemma QuietKeeps(s: Runtime, e: Event)
    requires Inv(s) && Enabled(s, e) && (e.Notify? || e.Spawn? || e.Wake?)
    ensures Inv(Apply(s, e))
  {
    hide RegInv, StagesOk, SingleWorkers, IdsCoherent, QueueSafe, NoLostWakeup, ActiveRunsDiffer;
    var t := Apply(s, e);
    DispatcherTurns(s);
    forall slot: Slot ensures Live(t, slot) == Live(s, slot) {
    }
    IdleStepKeeps(s, t);
  }

  lemma AbandonKeeps(s: Runtime, slot: Slot)
    requires Inv(s) && Enabled(s, Abandon(slot))
    ensures Inv(Apply(s, Abandon(slot)))
  {
    hide RegInv, SingleWorkers, IdsCoherent, QueueSafe, NoLostWakeup, ActiveRunsDiffer;
    LateResultKeeps(s, slot, Apply(s, Abandon(slot)));
  }

  // ------------------------------------------------------------- from outside

  /** `t` has the tasks of `s`, with the tokens of a run's unfinished stages triggered. */
  ghost predicate TokensRevoked(s: Runtime, t: Runtime, id: PipelineId) {
    && id in s.registry.pipelines
    && t.revoked == s.revoked + Revocable(s.registry, id)
    && SameTasks(s, t.(revoked := s.revoked))
  }

  lemma CancelledStages(s: Runtime, t: Runtime, id: PipelineId)
    requires StagesOk(s) && TokensRevoked(s, t, id) && DistinctIds(Design(s.registry.pipelines[id]))
    ensures RunStagesOk(t, id, CancelledRun(s.registry.pipelines[id]))
  {
    var p := s.registry.pipelines[id];
    var q := CancelledRun(p);
    hide StagesOk;
    forall j | 0 <= j < |q.stages| ensures StageOk(t, Slot(id, q.stages[j].id), q.stages[j], q.IsActive()) {
      var slot := Slot(id, p.stages[j].id);
      StageOkAt(s, id, j);
      RevokedIsCancelled(s, id, j);
      assert TasksOf(t, slot) == TasksOf(s, slot).(revoked := slot in t.revoked);
    }
  }

  lemma RevokedIsCancelled(s: Runtime, id: PipelineId, j: nat)
    requires id in s.registry.pipelines && DistinctIds(Design(s.registry.pipelines[id]))
    requires j < |s.registry.pipelines[id].stages|
    ensures var st := s.registry.pipelines[id].stages[j];
      Slot(id, st.id) in Revocable(s.registry, id) ==> CanStillRun(st.state)
  {
  }

  lemma RevocableIsHeld(r: Registry, id: PipelineId, slot: Slot)
    requires slot in Revocable(r, id)
    ensures Holds(r, slot) && slot.pipeline == id
  {
  }

  lemma CancelTasks(s: Runtime, t: Runtime, id: PipelineId)
    requires TokensRevoked(s, t, id) && SingleWorkers(s)
    ensures OthersUntouched(s, t, id) && SingleWorkers(t)
    ensures t.timers == s.timers ==> forall slot :: Mentioned(t, slot) ==> Mentioned(s, slot) || Holds(s.registry, slot)
  {
    forall slot: Slot ensures Live(t, slot) == Live(s, slot) {
    }
    forall slot | slot in Revocable(s.registry, id) ensures Holds(s.registry, slot) && slot.pipeline == id {
      RevocableIsHeld(s.registry, id, slot);
    }
  }

  lemma CancelRunKeeps(s: Runtime, t: Runtime, id: PipelineId)
    requires Inv(s) && id in s.registry.pipelines
    requires t == s.(registry := CancelPipeline(s.registry, id), revoked := s.revoked + Revocable(s.registry, id))
    ensures Inv(t)
  {
    hide RegInv, StagesOk, SingleWorkers, IdsCoherent, QueueSafe, ActiveRunsDiffer, Kept, Sound, RunStagesOk,
      CancelledRun;
    var p := s.registry.pipelines[id];
    RunOf(s.registry, id);
    CancelledIsSound(p);
    SoundIds(p);
    CancelledStages(s, t, id);
    CancelTasks(s, t, id);
    CancelledOffersNothing(p);
    NoLostWakeupAfter(s, t, id);
    InvAfter(s, t, id);
  }

  lemma CancelKeeps(s: Runtime, id: PipelineId)
    requires Inv(s)
    ensures Inv(Apply(s, Cancel(id)))
  {
    var t := Apply(s, Cancel(id));
    if id !in s.registry.pipelines {
      assert t == s;
    } else {
      hide Inv, CancelledRun, Revocable;
      CancelRunKeeps(s, t, id);
    }
  }

  lemma SoundIds(p: Pipeline)
    requires Sound(p)
    ensures DistinctIds(Design(p))
  {
  }

  lemma CancelledOffersNothing(p: Pipeline)
    ensures OffersNothingNew(p, CancelledRun(p))
  {
  }

  /** `t` has the tasks of `s` and one more manual retry on record. */
  predicate OneRetryMore(s: Runtime, t: Runtime) {
    t.manualRetries == s.manualRetries + 1 && SameTasks(s, t.(manualRetries := s.manualRetries))
  }

  lemma RevivedStage(before: Tasks, st: Stage, next: Stage, was: bool)
    requires before.Fit(st, was) && WithinBudget(st) && DesignOf(next) == DesignOf(st)
    requires || (next == st && (st.state.Done? || st.state.Running? || (st.state.Pending? && (before.queued ==> was))
                                 || (st.state.Failed?)))
             || (next.state.Pending? && next.attempts == 0
                 && (st.state.Failed? || st.state.Exhausted? || st.state.Skipped?))
             || (next.state.Pending? && next.attempts == st.attempts && st.state.Failed?)
    ensures before.(manualRetries := before.manualRetries + 1).Fit(next, true)
  {
  }

  lemma RevivedStages(s: Runtime, t: Runtime, id: PipelineId, i: nat)
    requires StagesOk(s) && OneRetryMore(s, t) && id in s.registry.pipelines
    requires var p := s.registry.pipelines[id];
      Sound(p) && i < |p.stages| && RetryFits(p, i) && (p.stages[i].state.Failed? || p.stages[i].state.Exhausted?)
    ensures RunStagesOk(t, id, ManuallyRetried(s.registry.pipelines[id], i))
  {
    var p := s.registry.pipelines[id];
    var q := ManuallyRetried(p, i);
    ManualRetryStages(p, i);
    RevivedShape(p, i);
    hide StagesOk, ManuallyRetried, DependencySafe, StatesAgree;
    forall j | 0 <= j < |q.stages| ensures StageOk(t, Slot(id, q.stages[j].id), q.stages[j], q.IsActive()) {
      var slot := Slot(id, p.stages[j].id);
      StageOkAt(s, id, j);
      assert WithinBudget(p.stages[j]);
      RevivedStage(TasksOf(s, slot), p.stages[j], q.stages[j], p.IsActive());
      assert Live(t, slot) == Live(s, slot);
      assert TasksOf(t, slot) == TasksOf(s, slot).(manualRetries := s.manualRetries + 1);
    }
  }

  lemma RevivedShape(p: Pipeline, i: nat)
    requires Sound(p) && i < |p.stages| && RetryFits(p, i)
      && (p.stages[i].state.Failed? || p.stages[i].state.Exhausted?)
    ensures var q := ManuallyRetried(p, i);
      && q.IsActive()
      && forall j :: 0 <= j < |p.stages| ==>
           && DesignOf(q.stages[j]) == DesignOf(p.stages[j])
           && !p.stages[j].state.Cancelled?
           && (|| (q.stages[j] == p.stages[j] && (p.stages[j].state.Done? || p.stages[j].state.Running?
                                                  || p.stages[j].state.Pending? || p.stages[j].state.Failed?))
               || (q.stages[j].state.Pending? && q.stages[j].attempts == 0
                   && (p.stages[j].state.Failed? || p.stages[j].state.Exhausted? || p.stages[j].state.Skipped?))
               || (q.stages[j].state.Pending? && q.stages[j].attempts == p.stages[j].attempts
                   && p.stages[j].state.Failed?))
  {
  }

  lemma OneRetryMoreTasks(s: Runtime, t: Runtime, id: PipelineId)
    requires OneRetryMore(s, t) && SingleWorkers(s)
    ensures OthersUntouched(s, t, id) && SingleWorkers(t)
    ensures t.timers == s.timers ==> forall slot :: Mentioned(t, slot) ==> Mentioned(s, slot)
  {
    forall slot: Slot ensures Live(t, slot) == Live(s, slot) {
    }
  }

  lemma RevivalKeeps(s: Runtime, t: Runtime, id: PipelineId, i: nat)
    requires Inv(s) && OneRetryMore(s, t) && t.timers == s.timers && WillLook(t) && id in s.registry.pipelines
    requires var p := s.registry.pipelines[id];
      && i < |p.stages| && RetryFits(p, i) && (p.stages[i].state.Failed? || p.stages[i].state.Exhausted?)
      && t.registry == Put(s.registry, id, ManuallyRetried(p, i))
    ensures Inv(t)
  {
    hide RegInv, StagesOk, SingleWorkers, IdsCoherent, QueueSafe, ActiveRunsDiffer, Kept, Sound, RunStagesOk,
      ManuallyRetried, RunInv;
    RunOf(s.registry, id);
    var p := s.registry.pipelines[id];
    ManualRetrySoundIff(p, i);
    RunInvIsSound(ManuallyRetried(p, i));
    RevivedStages(s, t, id, i);
    OneRetryMoreTasks(s, t, id);
    NoLostWakeupAfter(s, t, id);
    InvAfter(s, t, id);
  }

  lemma RunInvIsSound(p: Pipeline)
    requires RunInv(p)
    ensures Sound(p)
  {
  }

  lemma ManualRetryKeeps(s: Runtime, sid: StageId)
    requires Inv(s) && Enabled(s, ManualRetry(sid))
    ensures Inv(Apply(s, ManualRetry(sid)))
  {
    hide RegInv, StagesOk, SingleWorkers, IdsCoherent, QueueSafe, NoLostWakeup, ActiveRunsDiffer, ManuallyRetried;
    var t := Apply(s, ManualRetry(sid));
    var owner := RetryStage(s.registry, sid).1;
    if owner.Some? {
      RevivalKeeps(s, t, owner.value, Index(s.registry.pipelines[owner.value], sid));
    }
  }

  // ------------------------------------------------------ submissions and crashes

  lemma UnusedMeansFresh(s: Runtime, p: Pipeline)
    requires IdsCoherent(s) && UnusedIds(s, p)
    ensures FreshIds(s.registry, p)
    ensures forall slot :: Mentioned(s, slot) ==> !HasStage(p, slot.stage)
  {
    forall id, i | id in s.registry.pipelines && 0 <= i < |p.stages|
      ensures !HasStage(s.registry.pipelines[id], p.stages[i].id)
    {
      assert !Holds(s.registry, Slot(id, p.stages[i].id));
    }
    forall slot | Mentioned(s, slot) ensures !HasStage(p, slot.stage) {
      HasStageIsMembership(p, slot.stage);
    }
  }

  /** After a submission every stage is one there was before, or one of the new run. */
  lemma SubmittedSlots(r: Registry, p: Pipeline, slot: Slot)
    requires RegInv(r) && Holds(SubmitRun(r, p).0, slot)
    ensures || (Holds(r, slot) && SubmitRun(r, p).0.pipelines[slot.pipeline] == r.pipelines[slot.pipeline])
            || (SubmitRun(r, p).1.Ok? && slot.pipeline == p.id
                && SubmitRun(r, p).0.pipelines[p.id] == p && HasStage(p, slot.stage))
  {
    SubmitOutcome(r, p);
  }

  /** `t` has the tasks of `s` and knows more stage ids. */
  predicate MoreIds(s: Runtime, t: Runtime) {
    s.usedStages <= t.usedStages && t.timers == s.timers && SameTasks(s, t.(usedStages := s.usedStages))
  }

  lemma MoreIdsTasks(s: Runtime, t: Runtime)
    requires MoreIds(s, t)
    ensures forall slot: Slot :: TasksOf(t, slot) == TasksOf(s, slot) && (Mentioned(t, slot) <==> Mentioned(s, slot))
  {
  }

  lemma FreshStageIsOk(s: Runtime, t: Runtime, p: Pipeline, slot: Slot)
    requires MoreIds(s, t) && Startable(p) && HasStage(p, slot.stage) && !Mentioned(s, slot)
    ensures StageOk(t, slot, p.stages[Index(p, slot.stage)], p.IsActive())
  {
  }

  lemma SubmittedStages(s: Runtime, t: Runtime, p: Pipeline)
    requires RegInv(s.registry) && StagesOk(s) && IdsCoherent(s) && UnusedIds(s, p) && Startable(p)
    requires MoreIds(s, t) && t.registry == SubmitRun(s.registry, p).0
    ensures StagesOk(t)
  {
    UnusedMeansFresh(s, p);
    MoreIdsTasks(s, t);
    hide RegInv, IdsCoherent, SubmitRun, MoreIds, Startable;
    forall slot | Holds(t.registry, slot)
      ensures StageOk(t, slot, StageAt(t.registry, slot), t.registry.pipelines[slot.pipeline].IsActive())
    {
      SubmittedSlots(s.registry, p, slot);
      if !(Holds(s.registry, slot) && t.registry.pipelines[slot.pipeline] == s.registry.pipelines[slot.pipeline]) {
        FreshStageIsOk(s, t, p, slot);
      }
    }
  }

  lemma SubmittedIds(s: Runtime, t: Runtime, p: Pipeline)
    requires RegInv(s.registry) && IdsCoherent(s) && UnusedIds(s, p)
    requires MoreIds(s, t) && t.usedStages == s.usedStages + StageIds(p) && t.registry == SubmitRun(s.registry, p).0
    ensures IdsCoherent(t)
  {
    UnusedMeansFresh(s, p);
    MoreIdsTasks(s, t);
    hide RegInv, SubmitRun, MoreIds;
    forall slot | Holds(t.registry, slot) ensures slot.stage in t.usedStages {
      SubmittedSlots(s.registry, p, slot);
      HasStageIsMembership(p, slot.stage);
    }
    forall slot, other | Mentioned(t, slot) && Holds(t.registry, Slot(other, slot.stage))
      ensures other == slot.pipeline
    {
      SubmittedSlots(s.registry, p, Slot(other, slot.stage));
    }
  }

  lemma SubmittedQueue(s: Runtime, t: Runtime, p: Pipeline)
    requires RegInv(s.registry) && IdsCoherent(s) && UnusedIds(s, p) && QueueSafe(s)
    requires MoreIds(s, t) && t.registry == SubmitRun(s.registry, p).0
    ensures QueueSafe(t)
  {
    UnusedMeansFresh(s, p);
    hide RegInv, IdsCoherent, SubmitRun;
    forall slot | slot in t.queue && Holds(t.registry, slot)
      ensures InputsDone(t.registry.pipelines[slot.pipeline], Index(t.registry.pipelines[slot.pipeline], slot.stage))
    {
      SubmittedSlots(s.registry, p, slot);
      assert Mentioned(s, slot);
    }
  }

  lemma RefusedSubmission(s: Runtime, p: Pipeline)
    requires RegInv(s.registry) && SubmitRun(s.registry, p).1.Err?
    ensures Submitted(s, p) == s
  {
    ShapeOf(s.registry);
    BoundOf(s.registry);
    hide RegInv, WellShaped;
    SubmitOutcome(s.registry, p);
    hide SubmitRun;
  }

  lemma SubmitKeeps(s: Runtime, p: Pipeline)
    requires Inv(s) && Enabled(s, Submit(p))
    ensures Inv(Apply(s, Submit(p)))
  {
    hide RegInv, StagesOk, IdsCoherent, QueueSafe, NoLostWakeup, ActiveRunsDiffer, SubmitRun, WellShaped, Startable;
    if SubmitRun(s.registry, p).1.Err? {
      RefusedSubmission(s, p);
    } else {
      AcceptedSubmissionKeeps(s, p);
    }
  }

  lemma AcceptedSubmissionKeeps(s: Runtime, p: Pipeline)
    requires Inv(s) && SubmitRun(s.registry, p).1.Ok? && Startable(p) && UnusedIds(s, p)
    ensures Inv(Submitted(s, p))
  {
    hide RegInv, StagesOk, IdsCoherent, QueueSafe, NoLostWakeup, ActiveRunsDiffer, SubmitRun, WellShaped;
    var t := Submitted(s, p);
    UnusedMeansFresh(s, p);
    ShapeOf(s.registry);
    SubmittedStages(s, t, p);
    SubmittedIds(s, t, p);
    SubmittedQueue(s, t, p);
    NoLostWakeupIfLooking(t);
    SubmitKeepsSound(s.registry, p);
    if s.manualRetries == 0 {
      BoundOf(s.registry);
      SubmitKeepsActiveRunsDifferent(s.registry, p);
    }
    MoreIdsTasks(s, t);
    forall slot: Slot ensures Live(t, slot) <= 1 {
      assert TasksOf(t, slot).live == TasksOf(s, slot).live;
      assert Live(s, slot) <= 1;
    }
  }

  lemma NoLostWakeupIfLooking(t: Runtime)
    requires WillLook(t)
    ensures NoLostWakeup(t)
  {
  }

  lemma BoundOf(r: Registry)
    requires RegInv(r)
    ensures |r.order| <= MAX_PIPELINE_HISTORY
  {
  }

  /** `t` is what a new daemon starts from: the reopened registry, no tasks, one wake-up stored. */
  ghost predicate Restarted(s: Runtime, t: Runtime) {
    t == Runtime(RequeueAll(s.registry), true, false, [], None, false, multiset{}, multiset{}, 0, {},
                 s.usedStages, s.dispatches, s.crashes + 1, s.manualRetries)
  }

  lemma RestartedStages(s: Runtime, t: Runtime)
    requires StagesOk(s) && Restarted(s, t)
    requires forall slot :: Holds(t.registry, slot) <==> Holds(s.registry, slot)
    requires forall id :: id in s.registry.pipelines ==>
      Kept(s.registry.pipelines[id], Requeued(s.registry.pipelines[id]))
    ensures StagesOk(t)
  {
  }

  lemma RestartedIds(s: Runtime, t: Runtime)
    requires IdsCoherent(s) && Restarted(s, t)
    requires forall slot :: Holds(t.registry, slot) <==> Holds(s.registry, slot)
    ensures IdsCoherent(t)
  {
  }

  lemma AllKeptByRequeue(r: Registry)
    requires RegInv(r)
    ensures forall id :: id in r.pipelines ==> Kept(r.pipelines[id], Requeued(r.pipelines[id]))
  {
  }

  lemma CrashKeeps(s: Runtime)
    requires Inv(s)
    ensures Inv(Apply(s, Crash)) && Restarted(s, Apply(s, Crash))
  {
    hide RegInv, StagesOk, IdsCoherent, ActiveRunsDiffer, Opened, Persisted, RequeueAll, Kept;
    var t := Apply(s, Crash);
    CrashRoundTrip(s.registry);
    RequeueKeeps(s.registry);
    AllKeptByRequeue(s.registry);
    RestartedStages(s, t);
    RestartedIds(s, t);
    forall slot: Slot ensures Live(t, slot) == 0 {
    }
  }

  // ------------------------------------------------------------------- every run

  lemma InitiallyInv()
    ensures Inv(INITIAL)
  {
  }

  lemma EveryEventKeepsInv(s: Runtime, e: Event)
    requires Inv(s) && Enabled(s, e)
    ensures Inv(Apply(s, e))
  {
    hide Inv, Apply, Enabled;
    match e {
      case Submit(p) => SubmitKeeps(s, p);
      case Cancel(id) => CancelKeeps(s, id);
      case ManualRetry(sid) => ManualRetryKeeps(s, sid);
      case Crash => CrashKeeps(s);
      case Notify => QuietKeeps(s, e);
      case Snapshot => SnapshotKeeps(s);
      case Mark => MarkKeeps(s);
      case Spawn => QuietKeeps(s, e);
      case Refuse(error) => RefuseKeeps(s, error);
      case Finish(slot, artifacts) => FinishKeeps(s, slot, artifacts);
      case Fail(slot, error) => FailKeeps(s, slot, error);
      case Abandon(slot) => AbandonKeeps(s, slot);
      case BackoffElapsed(slot) => BackoffKeeps(s, slot);
      case Wake => QuietKeeps(s, e);
    }
  }

  /** The invariant holds after any list of events from any state that has it. */
  lemma {:induction false} RunsKeepInv(s: Runtime, events: seq<Event>)
    requires Inv(s) && Run(s, events).Some?
    ensures Inv(Run(s, events).value)
  {
    if events != [] {
      RunsKeepInv(s, events[..|events| - 1]);
      EveryEventKeepsInv(Run(s, events[..|events| - 1]).value, events[|events| - 1]);
    }
  }
}
