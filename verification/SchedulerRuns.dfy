/**
  What the invariant means over whole runs of the scheduler: safety in every
  reachable state, finality, and that results count once.
 */
module SchedulerRuns {
  import opened Wrappers
  import opened Stages
  import opened Executor
  import opened RunInvariant
  import opened RegistryInvariant
  import opened Scheduler
  import opened SchedulerSafety

  predicate StuckFailure(r: Registry, slot: Slot) {
    Holds(r, slot) && r.pipelines[slot.pipeline].IsActive() && StageAt(r, slot).state.Failed?
  }

  /** Everything a step can do to the one run it moves; `done` is the stage whose result it reports. */
  ghost predicate FairMove(p: Pipeline, q: Pipeline, id: PipelineId, timers: multiset<Slot>, done: Option<StageId>) {
    && |q.stages| == |p.stages|
    && (forall j :: 0 <= j < |p.stages| && q.IsActive() && q.stages[j].state.Failed? ==>
          (p.IsActive() && p.stages[j].state.Failed?) || Slot(id, p.stages[j].id) in timers)
    && (forall j :: 0 <= j < |p.stages| && q.stages[j].state.Done? ==>
          p.stages[j].state.Done? || Some(p.stages[j].id) == done)
    && (Quiet(p) ==> Quiet(q))
  }

  /** No run comes back to life by itself, and a cancelled one does not change at all. */
  predicate StaysOver(p: Pipeline, q: Pipeline) {
    (q.IsActive() ==> p.IsActive()) && (p.state.Cancelled? ==> q == p)
  }

  lemma CancelTwice(p: Pipeline)
    requires Sound(p)
    ensures StaysOver(p, CancelledRun(p))
  {
  }

  lemma FinishMove(p: Pipeline, i: nat, artifacts: seq<Artifact>, id: PipelineId, timers: multiset<Slot>)
    requires Sound(p) && i < |p.stages| && p.stages[i].state.Running?
    ensures var q := Completed(p, i, artifacts); StaysOver(p, q) && FairMove(p, q, id, timers, Some(p.stages[i].id))
  {
    CompletedStages(p, i, artifacts);
  }

  lemma FailMove(p: Pipeline, i: nat, error: string, id: PipelineId, timers: multiset<Slot>)
    requires Sound(p) && i < |p.stages| && p.stages[i].state.Running?
    requires FailedBy(p, i, error).stages[i].state.Failed? ==> Slot(id, p.stages[i].id) in timers
    ensures var q := FailedBy(p, i, error); StaysOver(p, q) && FairMove(p, q, id, timers, None)
  {
  }

  lemma ExhaustMove(p: Pipeline, i: nat, attempts: U8, error: string, id: PipelineId, timers: multiset<Slot>)
    requires Sound(p) && i < |p.stages| && p.stages[i].state.Running?
    ensures var q := ExhaustedBy(p, i, attempts, error); StaysOver(p, q) && FairMove(p, q, id, timers, None)
  {
  }

  lemma ReviveMove(p: Pipeline, i: nat, id: PipelineId, timers: multiset<Slot>)
    requires Sound(p) && i < |p.stages| && RetryFits(p, i)
      && (p.stages[i].state.Failed? || p.stages[i].state.Exhausted?)
    ensures FairMove(p, ManuallyRetried(p, i), id, timers, None)
  {
  }

  /** What each event does to the registry: nothing, or one run moves on. */
  ghost predicate MovesOne(s: Runtime, e: Event, t: Runtime, id: PipelineId) {
    && Advances(s.registry, t.registry, id)
    && FairMove(s.registry.pipelines[id], t.registry.pipelines[id], id, t.timers,
                if e.Finish? then Some(e.slot.stage) else None)
    && (!e.ManualRetry? ==> StaysOver(s.registry.pipelines[id], t.registry.pipelines[id]))
    && (e.IsInternal() ==> Weight(t.registry.pipelines[id]) < Weight(s.registry.pipelines[id]))
  }

  lemma FinishEffect(s: Runtime, slot: Slot, artifacts: seq<Artifact>) returns (id: Option<PipelineId>)
    requires Inv(s) && Enabled(s, Finish(slot, artifacts))
    ensures var t := Apply(s, Finish(slot, artifacts));
      if id.None? then t.registry == s.registry else MovesOne(s, Finish(slot, artifacts), t, id.value)
  {
    hide RegInv, StagesOk, SingleWorkers, IdsCoherent, QueueSafe, NoLostWakeup, ActiveRunsDiffer, Kept, Sound,
      Completed, StaysOver, FairMove;
    id := None;
    if CompleteStage(s.registry, slot, artifacts).1 {
      id := Some(slot.pipeline);
      var p := s.registry.pipelines[slot.pipeline];
      RunOf(s.registry, slot.pipeline);
      CompletedIsSound(p, Index(p, slot.stage), artifacts);
      FinishMove(p, Index(p, slot.stage), artifacts, slot.pipeline, s.timers);
    }
  }

  lemma FailEffect(s: Runtime, slot: Slot, error: string) returns (id: Option<PipelineId>)
    requires Inv(s) && Enabled(s, Fail(slot, error))
    ensures var t := Apply(s, Fail(slot, error));
      if id.None? then t.registry == s.registry && t.timers == s.timers else MovesOne(s, Fail(slot, error), t, id.value)
  {
    hide RegInv, StagesOk, SingleWorkers, IdsCoherent, QueueSafe, NoLostWakeup, ActiveRunsDiffer, Kept, Sound,
      FailedBy, StaysOver, FairMove;
    ShapeOf(s.registry);
    OwnerOfTask(s, slot);
    NotFailedYet(s, slot);
    id := None;
    if Holds(s.registry, slot) && StageAt(s.registry, slot).state.Running? {
      id := Some(slot.pipeline);
      FailEffectLive(s, slot, error);
    }
  }

  lemma FailEffectLive(s: Runtime, slot: Slot, error: string)
    requires Inv(s) && slot in s.workers && Holds(s.registry, slot) && StageAt(s.registry, slot).state.Running?
    requires Owner(s.registry, slot.stage) == Some(slot.pipeline)
    ensures MovesOne(s, Fail(slot, error), Apply(s, Fail(slot, error)), slot.pipeline)
  {
    hide RegInv, StagesOk, SingleWorkers, IdsCoherent, QueueSafe, NoLostWakeup, ActiveRunsDiffer, Sound, FailedBy,
      StaysOver, FairMove, Enabled, Apply;
    FailStep(s, slot, error);
    var t := Apply(s, Fail(slot, error));
    var p := s.registry.pipelines[slot.pipeline];
    var i := Index(p, slot.stage);
    var q := FailedBy(p, i, error);
    RunOf(s.registry, slot.pipeline);
    FailedIsSound(p, i, error);
    KeptHoldsSame(p, q);
    assert slot == Slot(slot.pipeline, p.stages[i].id);
    FailMove(p, i, error, slot.pipeline, t.timers);
  }

  lemma RefuseEffectLive(s: Runtime, slot: Slot, error: string)
    requires Inv(s) && Enabled(s, Refuse(error)) && s.current == Some(slot)
    requires Holds(s.registry, slot) && StageAt(s.registry, slot).state.Running?
    requires Owner(s.registry, slot.stage) == Some(slot.pipeline)
    ensures MovesOne(s, Refuse(error), Apply(s, Refuse(error)), slot.pipeline)
  {
    hide RegInv, StagesOk, SingleWorkers, IdsCoherent, QueueSafe, NoLostWakeup, ActiveRunsDiffer, Kept, Sound,
      ExhaustedBy, StaysOver, FairMove;
    var p := s.registry.pipelines[slot.pipeline];
    var i := Index(p, slot.stage);
    RunOf(s.registry, slot.pipeline);
    ExhaustedIsSound(p, i, p.stages[i].maxAttempts, error);
    ExhaustMove(p, i, p.stages[i].maxAttempts, error, slot.pipeline, s.timers);
  }

  lemma RefuseEffect(s: Runtime, error: string) returns (id: Option<PipelineId>)
    requires Inv(s) && Enabled(s, Refuse(error))
    ensures var t := Apply(s, Refuse(error));
      if id.None? then t.registry == s.registry else MovesOne(s, Refuse(error), t, id.value)
  {
    hide RegInv, StagesOk, SingleWorkers, IdsCoherent, QueueSafe, NoLostWakeup, ActiveRunsDiffer, ExhaustedBy,
      MovesOne;
    var slot := s.current.value;
    ShapeOf(s.registry);
    OwnerOfTask(s, slot);
    id := None;
    if Holds(s.registry, slot) && StageAt(s.registry, slot).state.Running? {
      id := Some(slot.pipeline);
      RefuseEffectLive(s, slot, error);
    }
  }

  lemma StartMove(p: Pipeline, i: nat, id: PipelineId, timers: multiset<Slot>)
    requires i < |p.stages| && p.IsActive()
    ensures FairMove(p, Started(p, i), id, timers, None) && StaysOver(p, Started(p, i))
  {
  }

  lemma MarkEffect(s: Runtime) returns (id: Option<PipelineId>)
    requires Inv(s) && Enabled(s, Mark)
    ensures var t := Apply(s, Mark);
      if id.None? then t == s.(queue := s.queue[1..]) else MovesOne(s, Mark, t, id.value)
  {
    hide RegInv, StagesOk, SingleWorkers, IdsCoherent, QueueSafe, NoLostWakeup, ActiveRunsDiffer, Kept, Sound,
      Started, StaysOver, FairMove, Index;
    id := None;
    if MarkRunning(s.registry, s.queue[0]).1 {
      var slot := s.queue[0];
      id := Some(slot.pipeline);
      var p := s.registry.pipelines[slot.pipeline];
      RunOf(s.registry, slot.pipeline);
      MarkedWasPending(s);
      StartedIsSound(p, Index(p, slot.stage));
      StartMove(p, Index(p, slot.stage), slot.pipeline, s.timers);
    }
  }

  lemma BackoffEffect(s: Runtime, slot: Slot) returns (id: Option<PipelineId>)
    requires Inv(s) && Enabled(s, BackoffElapsed(slot))
    ensures var t := Apply(s, BackoffElapsed(slot));
      if id.None? then t.registry == s.registry && t.owedWakes == s.owedWakes && !StuckFailure(s.registry, slot)
      else MovesOne(s, BackoffElapsed(slot), t, id.value)
           && id.value == slot.pipeline && Holds(s.registry, slot) && !StuckFailure(t.registry, slot)
           && StuckFailure(s.registry, slot)
  {
    hide RegInv, StagesOk, SingleWorkers, IdsCoherent, QueueSafe, NoLostWakeup, ActiveRunsDiffer, Sound, FairMove;
    ShapeOf(s.registry);
    OwnerOfTask(s, slot);
    hide IdsCoherent, Owner, StaysOver, Advances;
    id := None;
    if RetryFailed(s.registry, slot.stage).1.Some? {
      id := Some(slot.pipeline);
      RetryMovesOwner(s.registry, slot, Apply(s, BackoffElapsed(slot)).timers);
      hide RetryFailed, StuckFailure;
    }
  }

  lemma RetryMovesOwner(r: Registry, slot: Slot, timers: multiset<Slot>)
    requires RegInv(r) && Owner(r, slot.stage) == Some(slot.pipeline) && RetryFailed(r, slot.stage).1.Some?
    ensures var (t, id) := (RetryFailed(r, slot.stage).0, slot.pipeline);
      && Advances(r, t, id)
      && FairMove(r.pipelines[id], t.pipelines[id], id, timers, None)
      && StaysOver(r.pipelines[id], t.pipelines[id])
      && Weight(t.pipelines[id]) < Weight(r.pipelines[id])
      && Holds(r, slot) && StuckFailure(r, slot) && !StuckFailure(t, slot)
  {
    var p := r.pipelines[slot.pipeline];
    var i := Index(p, slot.stage);
    RunOf(r, slot.pipeline);
    RetriedIsSound(p, i);
    hide RegInv, FairMove;
    KeptHoldsSame(p, WithState(p, i, StageState.Pending));
    RetryMove(p, i, slot.pipeline, timers);
  }

  lemma RetryMove(p: Pipeline, i: nat, id: PipelineId, timers: multiset<Slot>)
    requires i < |p.stages| && p.IsActive()
    ensures FairMove(p, WithState(p, i, StageState.Pending), id, timers, None)
  {
  }

  lemma CancelEffect(s: Runtime, id: PipelineId)
    requires Inv(s) && id in s.registry.pipelines
    ensures MovesOne(s, Cancel(id), Apply(s, Cancel(id)), id)
  {
    hide RegInv, StagesOk, SingleWorkers, IdsCoherent, QueueSafe, NoLostWakeup, ActiveRunsDiffer, Kept, Sound,
      StaysOver;
    RunOf(s.registry, id);
    CancelledIsSound(s.registry.pipelines[id]);
    CancelTwice(s.registry.pipelines[id]);
  }

  lemma ManualRetryEffect(s: Runtime, sid: StageId) returns (id: Option<PipelineId>)
    requires Inv(s) && Enabled(s, ManualRetry(sid))
    ensures var t := Apply(s, ManualRetry(sid));
      if id.None? then t == s else MovesOne(s, ManualRetry(sid), t, id.value)
  {
    hide RegInv, StagesOk, SingleWorkers, IdsCoherent, QueueSafe, NoLostWakeup, ActiveRunsDiffer, Kept, Sound,
      ManuallyRetried, FairMove, RunInv;
    id := RetryStage(s.registry, sid).1;
    if id.Some? {
      var p := s.registry.pipelines[id.value];
      var i := Index(p, sid);
      RunOf(s.registry, id.value);
      ManualRetrySoundIff(p, i);
      RunInvIsSound(ManuallyRetried(p, i));
      ReviveMove(p, i, id.value, s.timers);
    }
  }

  /** The event takes the worker off the list, owes the dispatcher a wake-up if it is a result, and does no more. */
  ghost predicate OnlyLeaves(s: Runtime, e: Event, slot: Slot) {
    Enabled(s, e)
    && Apply(s, e) == s.(workers := s.workers - multiset{slot}, owedWakes := s.owedWakes + if e.Finish? then 1 else 0)
  }

  /** Whatever a worker reports once its stage moved on without it, the worker leaves and nothing else changes. */
  lemma LateResultChangesNothing(s: Runtime, slot: Slot, artifacts: seq<Artifact>, error: string)
    requires Inv(s) && slot in s.workers
    requires Holds(s.registry, slot) ==> !StageAt(s.registry, slot).state.Running?
    ensures OnlyLeaves(s, Finish(slot, artifacts), slot) && OnlyLeaves(s, Fail(slot, error), slot)
    ensures slot in s.revoked ==> OnlyLeaves(s, Abandon(slot), slot)
  {
    hide RegInv, StagesOk, SingleWorkers, IdsCoherent, QueueSafe, NoLostWakeup, ActiveRunsDiffer, OnlyLeaves, Index,
      WellShaped, Owner, Holds, CompleteStage, MarkFailed;
    ShapeOf(s.registry);
    OwnerOfTask(s, slot);
    NotFailedYet(s, slot);
    LateReportsAreDropped(s.registry, slot, artifacts, error);
    DroppedReports(s, slot, artifacts, error);
  }

  lemma DroppedReports(s: Runtime, slot: Slot, artifacts: seq<Artifact>, error: string)
    requires slot in s.workers
    requires CompleteStage(s.registry, slot, artifacts).0 == s.registry
    requires MarkFailed(s.registry, slot.stage, error).0 == s.registry
    requires Holds(s.registry, slot) ==> !StageAt(s.registry, slot).state.Failed?
    ensures OnlyLeaves(s, Finish(slot, artifacts), slot) && OnlyLeaves(s, Fail(slot, error), slot)
    ensures slot in s.revoked ==> OnlyLeaves(s, Abandon(slot), slot)
  {
    hide CompleteStage, MarkFailed, Index;
  }

  lemma LateReportsAreDropped(r: Registry, slot: Slot, artifacts: seq<Artifact>, error: string)
    requires Holds(r, slot) ==> !StageAt(r, slot).state.Running?
    requires Owner(r, slot.stage) == if Holds(r, slot) then Some(slot.pipeline) else None
    ensures CompleteStage(r, slot, artifacts).0 == r && MarkFailed(r, slot.stage, error).0 == r
  {
    assert slot == Slot(slot.pipeline, slot.stage);
    hide Completed, FailedBy, Owner, Index;
  }

  /** Every event but a submission and a crash leaves the registry alone or moves one run on. */
  lemma Effect(s: Runtime, e: Event) returns (id: Option<PipelineId>)
    requires Inv(s) && Enabled(s, e) && !e.Submit? && !e.Crash?
    ensures id.None? ==> Apply(s, e).registry == s.registry
    ensures id.Some? ==> MovesOne(s, e, Apply(s, e), id.value)
  {
    hide Inv, MovesOne;
    match e {
      case Cancel(run) =>
        id := None;
        if run in s.registry.pipelines {
          id := Some(run);
          CancelEffect(s, run);
        }
      case ManualRetry(sid) => id := ManualRetryEffect(s, sid);
      case Mark => id := MarkEffect(s);
      case Refuse(error) => id := RefuseEffect(s, error);
      case Finish(slot, artifacts) => id := FinishEffect(s, slot, artifacts);
      case Fail(slot, error) => id := FailEffect(s, slot, error);
      case BackoffElapsed(slot) => id := BackoffEffect(s, slot);
      case _ => id := None;
    }
  }

  // ------------------------------------------------------------- reachable states

  /**
    Work only ever started after every input was done: in every reachable state, stale snapshots and crashes
    included.
   */
  lemma StartedWorkHasItsInputs(events: seq<Event>, slot: Slot)
    requires Run(INITIAL, events).Some?
    ensures var r := Run(INITIAL, events).value.registry;
      Holds(r, slot) && HasStarted(StageAt(r, slot).state) ==>
        InputsDone(r.pipelines[slot.pipeline], Index(r.pipelines[slot.pipeline], slot.stage))
  {
    InitiallyInv();
    RunsKeepInv(INITIAL, events);
    var r := Run(INITIAL, events).value.registry;
    if Holds(r, slot) {
      RunOf(r, slot.pipeline);
    }
  }

  /** Every unprocessed snapshot entry of a run still held has all its inputs done. */
  lemma SnapshotsStaySafe(events: seq<Event>, slot: Slot)
    requires Run(INITIAL, events).Some? && slot in Run(INITIAL, events).value.queue
    ensures var r := Run(INITIAL, events).value.registry;
      Holds(r, slot) ==>
        && InputsDone(r.pipelines[slot.pipeline], Index(r.pipelines[slot.pipeline], slot.stage))
        && (StageAt(r, slot).state.Pending? ==> r.pipelines[slot.pipeline].IsActive())
  {
    InitiallyInv();
    RunsKeepInv(INITIAL, events);
    var s := Run(INITIAL, events).value;
    if Holds(s.registry, slot) {
      assert StageOk(s, slot, StageAt(s.registry, slot), s.registry.pipelines[slot.pipeline].IsActive());
    }
  }

  /** The live task, the retry counter and the dispatch count of a held stage agree with its state. */
  predicate AccountedFor(s: Runtime, slot: Slot, st: Stage) {
    && (st.state.Running? ==> Live(s, slot) == 1)
    && (Live(s, slot) == 1 ==> st.state.Running? || st.state.Cancelled?)
    && (!st.state.IsTerminal() ==> st.attempts < st.maxAttempts)
    && (st.state.Failed? ==> st.state.attempt == st.attempts)
    && Dispatches(s, slot) <= st.maxAttempts * (1 + s.manualRetries) + s.crashes
  }

  lemma FittingTasksAddUp(s: Runtime, slot: Slot, st: Stage, active: bool)
    requires StageOk(s, slot, st, active) && WithinBudget(st) && Live(s, slot) <= 1
    ensures AccountedFor(s, slot, st)
  {
  }

  /**
    A stage has at most one live worker, exactly one while it is Running, and was
    dispatched at most its budget, once per crash more, and a fresh budget per manual retry.
   */
  lemma WorkIsAccountedFor(events: seq<Event>, slot: Slot)
    requires Run(INITIAL, events).Some?
    ensures var s := Run(INITIAL, events).value;
      Live(s, slot) <= 1 && (Holds(s.registry, slot) ==> AccountedFor(s, slot, StageAt(s.registry, slot)))
  {
    InitiallyInv();
    RunsKeepInv(INITIAL, events);
    var s := Run(INITIAL, events).value;
    hide RegInv, IdsCoherent, QueueSafe, NoLostWakeup, ActiveRunsDiffer, StageOk, AccountedFor, Run;
    assert Live(s, slot) <= 1;
    if Holds(s.registry, slot) {
      RunOf(s.registry, slot.pipeline);
      assert WithinBudget(StageAt(s.registry, slot));
      FittingTasksAddUp(s, slot, StageAt(s.registry, slot), s.registry.pipelines[slot.pipeline].IsActive());
    }
  }

  /**
    The history lists exactly the runs it holds, each once, within its bound; and without manual retries no
    two active runs do the same job.
   */
  lemma HistoryStaysInShape(events: seq<Event>)
    requires Run(INITIAL, events).Some?
    ensures var s := Run(INITIAL, events).value;
      && WellShaped(s.registry) && |s.registry.order| <= MAX_PIPELINE_HISTORY
      && (s.manualRetries == 0 ==> ActiveRunsDiffer(s.registry))
      && Opened(Persisted(s.registry)) == RequeueAll(s.registry)
  {
    InitiallyInv();
    RunsKeepInv(INITIAL, events);
    CrashRoundTrip(Run(INITIAL, events).value.registry);
  }

  // --------------------------------------------------------------------- finality

  /** Across one event, a run held before and after is the same run, its done work kept. */
  lemma EventKeepsRuns(s: Runtime, e: Event, id: PipelineId)
    requires Inv(s) && Enabled(s, e)
    requires id in s.registry.pipelines && id in Apply(s, e).registry.pipelines
    ensures var p, q := s.registry.pipelines[id], Apply(s, e).registry.pipelines[id];
      && Kept(p, q)
      && (!e.ManualRetry? ==> StaysOver(p, q))
  {
    hide Inv, Apply, Enabled, Kept, StaysOver, Sound, FairMove;
    var p := s.registry.pipelines[id];
    if e.Submit? {
      SubmitKeepsHeldRuns(s, e.run, id);
      SameRunIsKept(p);
    } else if e.Crash? {
      CrashKeepsRun(s, id);
    } else {
      SameRunIsKept(p);
      var moved := Effect(s, e);
    }
  }

  lemma SameRunIsKept(p: Pipeline)
    ensures Kept(p, p) && StaysOver(p, p)
  {
  }

  lemma CrashKeepsRun(s: Runtime, id: PipelineId)
    requires Inv(s) && Enabled(s, Crash)
    requires id in s.registry.pipelines && id in Apply(s, Crash).registry.pipelines
    ensures var p, q := s.registry.pipelines[id], Apply(s, Crash).registry.pipelines[id];
      Kept(p, q) && StaysOver(p, q)
  {
    hide StagesOk, SingleWorkers, IdsCoherent, QueueSafe, NoLostWakeup, ActiveRunsDiffer, RegInv, Kept, StaysOver,
      Sound, Opened;
    CrashKeeps(s);
    RunOf(s.registry, id);
    RequeueMove(s.registry.pipelines[id]);
  }

  lemma RequeueMove(p: Pipeline)
    requires Sound(p)
    ensures Kept(p, Requeued(p)) && StaysOver(p, Requeued(p))
  {
  }

  lemma SubmitKeepsHeldRuns(s: Runtime, p: Pipeline, id: PipelineId)
    requires Inv(s) && Enabled(s, Submit(p))
    requires id in s.registry.pipelines && id in Apply(s, Submit(p)).registry.pipelines
    ensures Apply(s, Submit(p)).registry.pipelines[id] == s.registry.pipelines[id]
  {
    hide StagesOk, QueueSafe, NoLostWakeup, SingleWorkers, ActiveRunsDiffer, SubmitRun, AllSound, IdsCoherent,
      WellShaped;
    ShapeOf(s.registry);
    SubmitOutcome(s.registry, p);
  }

  /**
    A run that is over stays over while the registry holds it, whatever its draining
    workers, their timers, a crash or a stale snapshot still do; only a manual retry
    can revive it. A cancelled run is frozen altogether.
   */
  lemma {:induction false} OverIsFinal(s: Runtime, events: seq<Event>, id: PipelineId)
    requires Inv(s) && Run(s, events).Some?
    requires forall k :: 0 <= k <= |events| ==>
      Run(s, events[..k]).Some? && id in Run(s, events[..k]).value.registry.pipelines
    requires forall k :: 0 <= k < |events| ==> !events[k].ManualRetry?
    ensures id in s.registry.pipelines && id in Run(s, events).value.registry.pipelines
    ensures var p, q := s.registry.pipelines[id], Run(s, events).value.registry.pipelines[id]; StaysOver(p, q)
  {
    assert Run(s, events[..0]) == Some(s);
    assert events[..|events|] == events;
    if events != [] {
      var init := events[..|events| - 1];
      forall k | 0 <= k <= |init| ensures init[..k] == events[..k] {
      }
      OverIsFinal(s, init, id);
      RunsKeepInv(s, init);
      EventKeepsRuns(Run(s, init).value, events[|events| - 1], id);
    }
  }

  /** The stage has delivered: it is done, or its run has left the registry for good. */
  ghost predicate Delivered(s: Runtime, slot: Slot) {
    slot.stage in s.usedStages && (Holds(s.registry, slot) ==> StageAt(s.registry, slot).state.Done?)
  }

  lemma KeptDone(p: Pipeline, q: Pipeline, sid: StageId)
    requires Kept(p, q) && HasStage(p, sid) && p.stages[Index(p, sid)].state.Done?
    ensures HasStage(q, sid) && q.stages[Index(q, sid)].state.Done?
  {
  }

  lemma DeliveredForGood(s: Runtime, e: Event, slot: Slot)
    requires Inv(s) && Enabled(s, e) && Delivered(s, slot)
    ensures Delivered(Apply(s, e), slot)
  {
    var t := Apply(s, e);
    UsedStaysUsed(s, e, slot.stage);
    hide Inv, Apply, Enabled;
    if Holds(t.registry, slot) {
      NoStageReturns(s, e, slot);
      EventKeepsRuns(s, e, slot.pipeline);
      KeptDone(s.registry.pipelines[slot.pipeline], t.registry.pipelines[slot.pipeline], slot.stage);
    }
  }

  lemma UsedStaysUsed(s: Runtime, e: Event, sid: StageId)
    requires Enabled(s, e) && sid in s.usedStages
    ensures sid in Apply(s, e).usedStages
  {
  }

  /** A stage id the registry has known and lost never comes back. */
  lemma NoStageReturns(s: Runtime, e: Event, slot: Slot)
    requires Inv(s) && Enabled(s, e) && slot.stage in s.usedStages && Holds(Apply(s, e).registry, slot)
    ensures Holds(s.registry, slot)
  {
    var t := Apply(s, e);
    if e.Submit? {
      UsedIsNotNew(s, e.run, slot);
    } else if e.Crash? {
      CrashKeeps(s);
      RequeueKeeps(s.registry);
    } else {
      hide Inv, Apply, Enabled, FairMove, StaysOver;
      var moved := Effect(s, e);
      if moved.Some? {
        AdvanceSlots(s.registry, t.registry, moved.value);
      }
    }
  }

  lemma UsedIsNotNew(s: Runtime, p: Pipeline, slot: Slot)
    requires Inv(s) && Enabled(s, Submit(p)) && slot.stage in s.usedStages && Holds(Apply(s, Submit(p)).registry, slot)
    ensures Holds(s.registry, slot)
  {
    hide RegInv, StagesOk, QueueSafe, NoLostWakeup, SingleWorkers, ActiveRunsDiffer, SubmitRun, IdsCoherent,
      Startable;
    SubmittedSlots(s.registry, p, slot);
    HasStageIsMembership(p, slot.stage);
  }

  predicate AcceptsResult(s: Runtime, e: Event, slot: Slot) {
    e.Finish? && e.slot == slot && CompleteStage(s.registry, slot, e.artifacts).1
  }

  /** How many results for `slot` a run of events accepted. */
  ghost function ResultsAccepted(s: Runtime, events: seq<Event>, slot: Slot): nat {
    if events == [] then 0
    else
      var init := events[..|events| - 1];
      ResultsAccepted(s, init, slot) +
      if Run(s, init).Some? && AcceptsResult(Run(s, init).value, events[|events| - 1], slot) then 1 else 0
  }

  lemma AcceptanceDelivers(s: Runtime, e: Event, slot: Slot)
    requires Inv(s) && Enabled(s, e) && AcceptsResult(s, e, slot)
    ensures Delivered(Apply(s, e), slot) && !Delivered(s, slot)
  {
    hide RegInv, StagesOk, QueueSafe, NoLostWakeup, SingleWorkers, ActiveRunsDiffer, Sound;
    AcceptedMeansDone(s.registry, slot, e.artifacts);
    hide CompleteStage;
  }

  lemma AcceptedMeansDone(r: Registry, slot: Slot, artifacts: seq<Artifact>)
    requires RegInv(r) && CompleteStage(r, slot, artifacts).1
    ensures var t := CompleteStage(r, slot, artifacts).0;
      Holds(r, slot) && StageAt(r, slot).state.Running? && Holds(t, slot) && StageAt(t, slot).state.Done?
  {
    var p := r.pipelines[slot.pipeline];
    var i := Index(p, slot.stage);
    RunOf(r, slot.pipeline);
    hide RegInv;
    CompletedIsSound(p, i, artifacts);
    hide Sound;
    KeptHoldsSame(p, Completed(p, i, artifacts));
  }

  /** Whatever happens — retries by hand, crashes, evictions — a stage's result is accepted at most once. */
  lemma {:induction false} ResultsCountOnce(s: Runtime, events: seq<Event>, slot: Slot)
    requires Inv(s) && Run(s, events).Some?
    ensures ResultsAccepted(s, events, slot) <= 1
    ensures ResultsAccepted(s, events, slot) == 1 ==> Delivered(Run(s, events).value, slot)
    ensures Delivered(s, slot) ==> ResultsAccepted(s, events, slot) == 0 && Delivered(Run(s, events).value, slot)
  {
    if events != [] {
      var init := events[..|events| - 1];
      var e := events[|events| - 1];
      ResultsCountOnce(s, init, slot);
      RunsKeepInv(s, init);
      var u := Run(s, init).value;
      if AcceptsResult(u, e, slot) {
        AcceptanceDelivers(u, e, slot);
      }
      if Delivered(u, slot) {
        DeliveredForGood(u, e, slot);
      }
    }
  }
}
