/**
  Dispatch targets. A stage that nothing can execute is marked running like any
  other, but it never gets a worker, so it never delivers: its run fails instead.
 */
module SchedulerTargets {
  import opened Wrappers
  import opened Stages
  import opened Executor
  import opened RunInvariant
  import opened RegistryInvariant
  import opened Scheduler
  import opened SchedulerSafety
  import opened SchedulerRuns

  predicate HasTarget(r: Registry, slot: Slot)
    requires Holds(r, slot)
  {
    StageAt(r, slot).dispatch.Some?
  }

  /** Workers only exist for stages that can be executed, and the dispatcher knows which kind it holds. */
  ghost predicate TargetsMatch(s: Runtime) {
    && (forall slot :: slot in s.workers && Holds(s.registry, slot) ==> HasTarget(s.registry, slot))
    && (s.current.Some? && Holds(s.registry, s.current.value) ==>
          (s.hasTarget <==> HasTarget(s.registry, s.current.value)))
  }

  lemma TargetIsKept(s: Runtime, e: Event, slot: Slot)
    requires Inv(s) && Enabled(s, e) && slot.stage in s.usedStages && Holds(Apply(s, e).registry, slot)
    ensures Holds(s.registry, slot)
    ensures HasTarget(Apply(s, e).registry, slot) <==> HasTarget(s.registry, slot)
  {
    NoStageReturns(s, e, slot);
    hide Inv, Enabled, Apply;
    EventKeepsRuns(s, e, slot.pipeline);
    KeptHoldsSame(s.registry.pipelines[slot.pipeline], Apply(s, e).registry.pipelines[slot.pipeline]);
  }

  lemma MentionedIsUsed(s: Runtime, slot: Slot)
    requires IdsCoherent(s) && Mentioned(s, slot)
    ensures slot.stage in s.usedStages
  {
  }

  /** Where the workers after an event come from. */
  lemma WorkersComeFrom(s: Runtime, e: Event, slot: Slot)
    requires Enabled(s, e) && slot in Apply(s, e).workers
    ensures slot in s.workers
      || (e.Spawn? && s.current == Some(slot) && s.hasTarget && Apply(s, e).registry == s.registry)
  {
    hide SubmitRun, CancelPipeline, RetryStage, Opened, Persisted, ReadyStages, MarkRunning, ExhaustStage,
      CompleteStage, MarkFailed, RetryFailed, Revocable, CleanSubmission, RetryAllowed;
  }

  /** Where the stage the dispatcher holds comes from. */
  lemma CurrentComesFrom(s: Runtime, e: Event)
    requires Enabled(s, e) && Apply(s, e).current.Some?
    ensures var t := Apply(s, e);
      || (t.current == s.current && t.hasTarget == s.hasTarget)
      || (e.Mark? && t.current.value in s.queue && Holds(s.registry, t.current.value)
          && t.hasTarget == HasTarget(s.registry, t.current.value))
  {
    hide SubmitRun, CancelPipeline, RetryStage, Opened, Persisted, ReadyStages, ExhaustStage, CompleteStage,
      MarkFailed, RetryFailed, Revocable, CleanSubmission, RetryAllowed, Started;
  }

  lemma EventKeepsTargets(s: Runtime, e: Event)
    requires Inv(s) && TargetsMatch(s) && Enabled(s, e)
    ensures TargetsMatch(Apply(s, e))
  {
    hide RegInv, StagesOk, SingleWorkers, IdsCoherent, QueueSafe, NoLostWakeup, ActiveRunsDiffer, Apply, Enabled,
      HasTarget;
    var t := Apply(s, e);
    forall slot | slot in t.workers && Holds(t.registry, slot) ensures HasTarget(t.registry, slot) {
      WorkersComeFrom(s, e, slot);
      MentionedIsUsed(s, slot);
      TargetIsKept(s, e, slot);
    }
    if t.current.Some? && Holds(t.registry, t.current.value) {
      CurrentComesFrom(s, e);
      MentionedIsUsed(s, t.current.value);
      TargetIsKept(s, e, t.current.value);
    }
  }

  lemma {:induction false} RunsKeepTargets(s: Runtime, events: seq<Event>)
    requires Inv(s) && TargetsMatch(s) && Run(s, events).Some?
    ensures TargetsMatch(Run(s, events).value)
  {
    hide Inv, TargetsMatch, Enabled, Apply;
    if events != [] {
      var init := events[..|events| - 1];
      RunsKeepTargets(s, init);
      RunsKeepInv(s, init);
      EventKeepsTargets(Run(s, init).value, events[|events| - 1]);
    }
  }

  /** A stage nothing can execute is Done only if `past` had it Done. */
  ghost predicate OnlyTargetsDeliver(s: Runtime, past: Registry) {
    forall slot :: Holds(s.registry, slot) && !HasTarget(s.registry, slot) && StageAt(s.registry, slot).state.Done? ==>
      Holds(past, slot) && StageAt(past, slot).state.Done?
  }

  lemma FinishComesFromAWorker(s: Runtime, e: Event)
    requires Enabled(s, e)
    ensures e.Finish? ==> e.slot in s.workers
  {
  }

  /** A move turns only the stage that reports Done. */
  lemma MoveReports(s: Runtime, e: Event, t: Runtime, id: PipelineId, slot: Slot)
    requires MovesOne(s, e, t, id) && Holds(s.registry, slot) && Holds(t.registry, slot)
    requires StageAt(t.registry, slot).state.Done? && !StageAt(s.registry, slot).state.Done?
    ensures slot.pipeline == id && e.Finish? && e.slot.stage == slot.stage
  {
    AdvanceSlots(s.registry, t.registry, id);
    hide Advances, StaysOver, Weight;
    var p := s.registry.pipelines[id];
    assert p.stages[Index(p, slot.stage)].id == slot.stage || slot.pipeline != id;
  }

  /** A stage that an event turns Done is the one whose worker reports. */
  lemma DoneWasReported(s: Runtime, e: Event, slot: Slot)
    requires Inv(s) && Enabled(s, e) && e.IsInternal() && Holds(s.registry, slot) && Holds(Apply(s, e).registry, slot)
    requires StageAt(Apply(s, e).registry, slot).state.Done? && !StageAt(s.registry, slot).state.Done?
    ensures slot in s.workers
  {
    FinishComesFromAWorker(s, e);
    hide RegInv, StagesOk, SingleWorkers, IdsCoherent, QueueSafe, NoLostWakeup, ActiveRunsDiffer, Apply, Enabled,
      Holds, StageAt, MovesOne;
    var id := Effect(s, e);
    if id.Some? {
      MoveReports(s, e, Apply(s, e), id.value, slot);
      SameStageSameSlot(s, e.slot, slot);
    }
  }

  lemma SameStageSameSlot(s: Runtime, task: Slot, slot: Slot)
    requires IdsCoherent(s) && Mentioned(s, task) && Holds(s.registry, slot) && task.stage == slot.stage
    ensures task == slot
  {
    assert slot == Slot(slot.pipeline, task.stage);
  }

  lemma EventKeepsDelivery(s: Runtime, e: Event, past: Registry)
    requires Inv(s) && TargetsMatch(s) && OnlyTargetsDeliver(s, past) && Enabled(s, e) && e.IsInternal()
    ensures OnlyTargetsDeliver(Apply(s, e), past)
  {
    hide Inv, Apply, Enabled, HasTarget;
    var t := Apply(s, e);
    forall slot | Holds(t.registry, slot) && !HasTarget(t.registry, slot) && StageAt(t.registry, slot).state.Done?
      ensures Holds(past, slot) && StageAt(past, slot).state.Done?
    {
      InternalKeepsRuns(s, e, slot.pipeline);
      InternalKeepsSlots(s, e, slot);
      UsedIsUsed(s, slot);
      TargetIsKept(s, e, slot);
      if !StageAt(s.registry, slot).state.Done? {
        DoneWasReported(s, e, slot);
      }
    }
  }

  lemma UsedIsUsed(s: Runtime, slot: Slot)
    requires Inv(s) && Holds(s.registry, slot)
    ensures slot.stage in s.usedStages
  {
    hide RegInv, StagesOk, SingleWorkers, QueueSafe, NoLostWakeup, ActiveRunsDiffer;
  }

  /** What the scheduler does by itself brings no run and loses none. */
  lemma InternalKeepsRuns(s: Runtime, e: Event, id: PipelineId)
    requires Inv(s) && Enabled(s, e) && e.IsInternal()
    ensures id in Apply(s, e).registry.pipelines <==> id in s.registry.pipelines
    ensures id in s.registry.pipelines ==>
      var p, q := s.registry.pipelines[id], Apply(s, e).registry.pipelines[id];
      Kept(p, q) && StaysOver(p, q)
  {
    hide Inv, Apply, Enabled, Kept, StaysOver, FairMove, Sound;
    var moved := Effect(s, e);
    if id in s.registry.pipelines {
      EventKeepsRuns(s, e, id);
    }
  }

  lemma InternalKeepsSlots(s: Runtime, e: Event, slot: Slot)
    requires Inv(s) && Enabled(s, e) && e.IsInternal()
    ensures Holds(Apply(s, e).registry, slot) <==> Holds(s.registry, slot)
  {
    hide Inv, Apply, Enabled, StaysOver;
    InternalKeepsRuns(s, e, slot.pipeline);
    if slot.pipeline in s.registry.pipelines {
      KeptHoldsSame(s.registry.pipelines[slot.pipeline], Apply(s, e).registry.pipelines[slot.pipeline]);
    }
  }
}
