/**
  Termination and progress. Left to itself the scheduler always comes to rest, and
  at rest every run is over -- unless a crash caught a stage between a failure and
  its retry, which nothing ever retries again.
 */
module SchedulerProgress {
  import opened Wrappers
  import opened Stages
  import opened Cycles
  import opened Executor
  import opened RunInvariant
  import opened RegistryInvariant
  import opened Scheduler
  import opened SchedulerSafety
  import opened SchedulerRuns

  // ------------------------------------------------------------------- the measure

  function WorkUpTo(r: Registry, upTo: nat): nat
    requires upTo <= |r.order|
  {
    if upTo == 0 then 0
    else
      WorkUpTo(r, upTo - 1) +
      if r.order[upTo - 1] in r.pipelines then Weight(r.pipelines[r.order[upTo - 1]]) else 0
  }

  /** What is left of all attempts of all stages. */
  function Work(r: Registry): nat {
    WorkUpTo(r, |r.order|)
  }

  lemma {:induction false} WorkDrops(r: Registry, t: Registry, id: PipelineId, upTo: nat)
    requires upTo <= |r.order| && id in r.pipelines && id in t.pipelines && t == Put(r, id, t.pipelines[id])
    requires Weight(t.pipelines[id]) < Weight(r.pipelines[id])
    ensures WorkUpTo(t, upTo) <= WorkUpTo(r, upTo)
    ensures id in r.order[..upTo] ==> WorkUpTo(t, upTo) < WorkUpTo(r, upTo)
  {
    if upTo > 0 {
      WorkDrops(r, t, id, upTo - 1);
      assert r.order[..upTo] == r.order[..upTo - 1] + [r.order[upTo - 1]];
    }
  }

  datatype Rank = Rank(work: nat, tasks: nat, owed: nat, permit: nat, notified: nat, queued: nat)

  function RankOf(s: Runtime): Rank {
    Rank(Work(s.registry),
         |s.workers| + |s.timers| + (if s.current.Some? then 2 else 0),
         s.owedWakes,
         if s.permit then 1 else 0,
         if s.notified then 1 else 0,
         |s.queue|)
  }

  /** Lexicographic. */
  predicate Below(a: Rank, b: Rank) {
    || a.work < b.work
    || (a.work == b.work && a.tasks < b.tasks)
    || (a.work == b.work && a.tasks == b.tasks && a.owed < b.owed)
    || (a.work == b.work && a.tasks == b.tasks && a.owed == b.owed && a.permit < b.permit)
    || (a.work == b.work && a.tasks == b.tasks && a.owed == b.owed && a.permit == b.permit && a.notified < b.notified)
    || (a.work == b.work && a.tasks == b.tasks && a.owed == b.owed && a.permit == b.permit && a.notified == b.notified
        && a.queued < b.queued)
  }

  lemma MovedRunCostsWork(s: Runtime, e: Event, id: PipelineId)
    requires Inv(s) && Enabled(s, e) && e.IsInternal() && MovesOne(s, e, Apply(s, e), id)
    ensures Below(RankOf(Apply(s, e)), RankOf(s))
  {
    hide RegInv, StagesOk, SingleWorkers, IdsCoherent, QueueSafe, NoLostWakeup, ActiveRunsDiffer, Apply, Enabled,
      Sound, Kept, FairMove, StaysOver;
    var t := Apply(s, e);
    ShapeOf(s.registry);
    assert id in s.registry.order;
    assert s.registry.order[..|s.registry.order|] == s.registry.order;
    WorkDrops(s.registry, t.registry, id, |s.registry.order|);
  }

  lemma EndedWorkerDescends(s: Runtime, t: Runtime, slot: Slot)
    requires slot in s.workers && t.workers == s.workers - multiset{slot}
    requires t.registry == s.registry && t.timers == s.timers && t.current == s.current
    ensures Below(RankOf(t), RankOf(s))
  {
    hide Work;
    assert |t.workers| + 1 == |s.workers|;
  }

  lemma DispatcherDescends(s: Runtime, e: Event)
    requires Enabled(s, e) && Apply(s, e).registry == s.registry
    requires e.Notify? || e.Snapshot? || e.Spawn? || e.Refuse? || e.Wake?
    ensures Below(RankOf(Apply(s, e)), RankOf(s))
  {
    hide Work, ReadyStages, ExhaustStage, CompleteStage, MarkFailed, MarkRunning, RetryFailed;
  }

  /** A step that moves no run uses up a task or a wake-up. */
  lemma StepOfNoRun(s: Runtime, e: Event)
    requires Enabled(s, e) && e.IsInternal() && Apply(s, e).registry == s.registry
    requires e.Fail? ==> Apply(s, e).timers == s.timers
    requires !e.BackoffElapsed? && !e.Mark?
    ensures Below(RankOf(Apply(s, e)), RankOf(s))
  {
    hide Below, RankOf, ReadyStages, ExhaustStage, CompleteStage, MarkFailed, MarkRunning, RetryFailed;
    if e.Fail? || e.Finish? || e.Abandon? {
      EndedWorkerDescends(s, Apply(s, e), e.slot);
    } else {
      DispatcherDescends(s, e);
    }
  }

  /** Every step the scheduler takes by itself goes down a well-founded order. */
  lemma InternalStepsDescend(s: Runtime, e: Event)
    requires Inv(s) && Enabled(s, e) && e.IsInternal()
    ensures Below(RankOf(Apply(s, e)), RankOf(s))
  {
    hide Inv, Apply, RankOf, Below, MovesOne;
    var moved: Option<PipelineId> := None;
    match e {
      case Mark =>
        moved := MarkEffect(s);
        if moved.None? { StaleMarkDescends(s); }
      case Fail(slot, error) =>
        moved := FailEffect(s, slot, error);
        if moved.None? { StepOfNoRun(s, e); }
      case BackoffElapsed(slot) =>
        moved := BackoffEffect(s, slot);
        if moved.None? { LateBackoffDescends(s, slot); }
      case _ =>
        moved := Effect(s, e);
        if moved.None? { StepOfNoRun(s, e); }
    }
    if moved.Some? {
      MovedRunCostsWork(s, e, moved.value);
    }
  }

  lemma StaleMarkDescends(s: Runtime)
    requires Enabled(s, Mark) && Apply(s, Mark) == s.(queue := s.queue[1..])
    ensures Below(RankOf(Apply(s, Mark)), RankOf(s))
  {
  }

  lemma LateBackoffDescends(s: Runtime, slot: Slot)
    requires Enabled(s, BackoffElapsed(slot))
    requires Apply(s, BackoffElapsed(slot)).registry == s.registry
    requires Apply(s, BackoffElapsed(slot)).owedWakes == s.owedWakes
    ensures Below(RankOf(Apply(s, BackoffElapsed(slot))), RankOf(s))
  {
  }

  // ------------------------------------------------------------------------- rest

  /** Nothing happens any more unless somebody outside does something. */
  ghost predicate Settled(s: Runtime) {
    forall e: Event :: e.IsInternal() ==> !Enabled(s, e)
  }

  lemma SettledMeansIdle(s: Runtime)
    requires Settled(s)
    ensures s.workers == multiset{} && s.timers == multiset{} && s.current.None? && s.queue == [] && !WillLook(s)
  {
    assert !Enabled(s, Refuse("")) && !Enabled(s, Mark) && !Enabled(s, Snapshot) && !Enabled(s, Notify)
      && !Enabled(s, Wake);
    forall slot ensures slot !in s.workers && slot !in s.timers {
      assert !Enabled(s, Finish(slot, [])) && !Enabled(s, BackoffElapsed(slot));
    }
  }

  /** An unbroken schedule: an internal step while one is possible, standing still only at rest. */
  ghost predicate IsSchedule(run: nat -> Runtime) {
    forall i: nat :: Proceeds(run(i), run(i + 1))
  }

  ghost predicate Proceeds(s: Runtime, t: Runtime) {
    || (Settled(s) && t == s)
    || exists e: Event :: e.IsInternal() && Enabled(s, e) && t == Apply(s, e)
  }

  /** Whatever the interleaving, however unfair, the scheduler comes to rest. */
  lemma {:induction false} EveryScheduleSettles(run: nat -> Runtime, from: nat) returns (n: nat)
    requires IsSchedule(run) && Inv(run(from))
    ensures n >= from && Settled(run(n)) && Inv(run(n))
    decreases RankOf(run(from)).work, RankOf(run(from)).tasks, RankOf(run(from)).owed, RankOf(run(from)).permit,
              RankOf(run(from)).notified, RankOf(run(from)).queued
  {
    hide Inv, Settled, Apply, Enabled, RankOf;
    if Settled(run(from)) {
      n := from;
    } else {
      assert Proceeds(run(from), run(from + 1));
      var e: Event :| e.IsInternal() && Enabled(run(from), e) && run(from + 1) == Apply(run(from), e);
      EveryEventKeepsInv(run(from), e);
      InternalStepsDescend(run(from), e);
      n := EveryScheduleSettles(run, from + 1);
    }
  }

  predicate Finished(p: Pipeline) {
    || (p.state.Done? && forall i :: 0 <= i < |p.stages| ==> p.stages[i].state.Done?)
    || (p.state.Failed? && AnyExhausted(p))
    || (p.state.Cancelled? && AllTerminal(p))
  }

  function Unfinished(p: Pipeline): set<StageId> {
    set i | 0 <= i < |p.stages| && !p.stages[i].state.Done? :: p.stages[i].id
  }

  /** In an active run some unfinished stage has all its inputs done. */
  lemma SomeStageIsFree(p: Pipeline) returns (i: nat)
    requires RunInv(p) && p.IsActive()
    ensures i < |p.stages| && !p.stages[i].state.Done? && InputsDone(p, i)
  {
    var d := Design(p);
    assert Obeys(d, AcyclicRule) && Obeys(d, DanglingInput);
    var u :| 0 <= u < |p.stages| && !p.stages[u].state.IsTerminal();
    assert p.stages[u].id in Unfinished(p);
    var m := MinimalStage(d, Unfinished(p));
    i := Index(p, m);
    var w :| 0 <= w < |p.stages| && p.stages[w].id == m && !p.stages[w].state.Done?;
    IndexOfStage(p, w);
    forall k | 0 <= k < |p.stages[i].inputs| ensures IsDone(p, p.stages[i].inputs[k]) {
      FreeInput(p, i, k, m);
    }
  }

  lemma FreeInput(p: Pipeline, i: nat, k: nat, m: StageId)
    requires i < |p.stages| && i == Index(p, m) && k < |p.stages[i].inputs| && InputsKnown(Design(p))
    requires forall x :: Edge(Design(p), m, x) ==> x !in Unfinished(p)
    ensures IsDone(p, p.stages[i].inputs[k])
  {
    var d := Design(p);
    var x := p.stages[i].inputs[k];
    assert d[i].inputs[k] == x;
    assert Edge(d, m, x);
    assert KnownId(d, x);
    var j :| 0 <= j < |d| && d[j].id == x;
    assert p.stages[j].id == x;
  }

  /** At rest a run is finished, or held up by a failed stage whose retry will never come. */
  lemma RestMeansFinished(s: Runtime, id: PipelineId)
    requires Inv(s) && Settled(s) && id in s.registry.pipelines
    ensures var p := s.registry.pipelines[id];
      Finished(p) || (p.IsActive() && exists i :: 0 <= i < |p.stages| && p.stages[i].state.Failed?)
  {
    hide RegInv, IdsCoherent, QueueSafe, ActiveRunsDiffer, Settled, Accepted, DependencySafe, AttemptsCounted;
    SettledMeansIdle(s);
    RunOf(s.registry, id);
    var p := s.registry.pipelines[id];
    if p.IsActive() {
      var i := SomeStageIsFree(p);
      StageOkAt(s, id, i);
      IndexOfStage(p, i);
      FreeIsReady(p, i);
      var slot := Slot(id, p.stages[i].id);
      assert Live(s, slot) == 0;
      assert !SlotReady(s.registry, slot);
    }
  }

  lemma FreeIsReady(p: Pipeline, i: nat)
    requires i < |p.stages| && InputsDone(p, i) && p.IsActive()
    ensures p.stages[i].state.Pending? ==> IsReady(p, i)
  {
  }

  // ---------------------------------------------------------------------- retries

  /**
    Every failed stage of an active run has a backoff timer that will retry it, unless `past` had that
    failure already.
   */
  ghost predicate ForgetsOnly(s: Runtime, past: Registry) {
    forall slot :: StuckFailure(s.registry, slot) ==> slot in s.timers || StuckFailure(past, slot)
  }

  ghost predicate RetriesPending(s: Runtime) {
    ForgetsOnly(s, EMPTY_REGISTRY)
  }

  lemma FinishedAtRest(s: Runtime, id: PipelineId)
    requires Inv(s) && Settled(s) && RetriesPending(s) && id in s.registry.pipelines
    ensures Finished(s.registry.pipelines[id])
  {
    RestMeansFinished(s, id);
    SettledMeansIdle(s);
    RunOf(s.registry, id);
    var p := s.registry.pipelines[id];
    forall i | 0 <= i < |p.stages| ensures p.IsActive() ==> !p.stages[i].state.Failed? {
      IndexOfStage(p, i);
      assert !StuckFailure(s.registry, Slot(id, p.stages[i].id));
    }
  }

  lemma MoveKeepsRetries(s: Runtime, e: Event, t: Runtime, id: PipelineId, past: Registry)
    requires ForgetsOnly(s, past) && MovesOne(s, e, t, id)
    requires forall slot :: slot in s.timers && StuckFailure(t.registry, slot) ==> slot in t.timers
    ensures ForgetsOnly(t, past)
  {
  }

  lemma BackoffKeepsRetries(s: Runtime, slot: Slot, past: Registry)
    requires Inv(s) && Enabled(s, BackoffElapsed(slot)) && ForgetsOnly(s, past)
    ensures ForgetsOnly(Apply(s, BackoffElapsed(slot)), past)
  {
    hide Inv, MovesOne, StuckFailure;
    var t := Apply(s, BackoffElapsed(slot));
    var moved := BackoffEffect(s, slot);
    if moved.Some? {
      MoveKeepsRetries(s, BackoffElapsed(slot), t, moved.value, past);
    }
  }

  lemma TimersOnlyGrow(s: Runtime, e: Event)
    requires Enabled(s, e) && !e.Crash? && !e.BackoffElapsed?
    ensures s.timers <= Apply(s, e).timers
  {
    hide SubmitRun, CancelPipeline, RetryStage, Opened, Persisted, ReadyStages, MarkRunning, ExhaustStage,
      CompleteStage, MarkFailed, RetryFailed, Revocable, CleanSubmission, RetryAllowed;
  }

  lemma EventKeepsRetries(s: Runtime, e: Event, past: Registry)
    requires Inv(s) && Enabled(s, e) && ForgetsOnly(s, past) && !e.Crash?
    ensures ForgetsOnly(Apply(s, e), past)
  {
    hide Inv, MovesOne, Apply, Enabled, StuckFailure;
    if e.Submit? {
      SubmitKeepsRetries(s, e.run, past);
    } else if e.BackoffElapsed? {
      BackoffKeepsRetries(s, e.slot, past);
    } else {
      var moved := Effect(s, e);
      TimersOnlyGrow(s, e);
      if moved.Some? {
        MoveKeepsRetries(s, e, Apply(s, e), moved.value, past);
      }
    }
  }

  lemma SubmitKeepsRetries(s: Runtime, p: Pipeline, past: Registry)
    requires Inv(s) && Enabled(s, Submit(p)) && ForgetsOnly(s, past)
    ensures ForgetsOnly(Apply(s, Submit(p)), past)
  {
    hide StagesOk, SingleWorkers, IdsCoherent, QueueSafe, NoLostWakeup, ActiveRunsDiffer, RegInv, SubmitRun;
    var t := Apply(s, Submit(p));
    forall slot | StuckFailure(t.registry, slot) ensures slot in t.timers || StuckFailure(past, slot) {
      SubmittedSlots(s.registry, p, slot);
    }
  }

  lemma {:induction false} RetriesNeverForgotten(s: Runtime, events: seq<Event>, past: Registry)
    requires Inv(s) && ForgetsOnly(s, past) && Run(s, events).Some?
    requires forall k :: 0 <= k < |events| ==> !events[k].Crash?
    ensures ForgetsOnly(Run(s, events).value, past)
  {
    if events != [] {
      var init := events[..|events| - 1];
      RetriesNeverForgotten(s, init, past);
      RunsKeepInv(s, init);
      EventKeepsRetries(Run(s, init).value, events[|events| - 1], past);
    }
  }

  /**
    The main result: any history without a crash, followed by any schedule at all,
    ends with every run Done with all its stages done, Failed with an exhausted
    stage, or Cancelled.
   */
  lemma EveryRunFinishes(events: seq<Event>, run: nat -> Runtime) returns (n: nat)
    requires Run(INITIAL, events).Some? && forall k :: 0 <= k < |events| ==> !events[k].Crash?
    requires IsSchedule(run) && run(0) == Run(INITIAL, events).value
    ensures Settled(run(n))
    ensures forall id :: id in run(n).registry.pipelines ==> Finished(run(n).registry.pipelines[id])
  {
    InitiallyInv();
    RunsKeepInv(INITIAL, events);
    RetriesNeverForgotten(INITIAL, events, EMPTY_REGISTRY);
    n := EveryScheduleSettles(run, 0);
    ScheduleKeepsRetries(run, n);
    forall id | id in run(n).registry.pipelines ensures Finished(run(n).registry.pipelines[id]) {
      FinishedAtRest(run(n), id);
    }
  }

  lemma {:induction false} ScheduleKeepsRetries(run: nat -> Runtime, n: nat)
    requires IsSchedule(run) && Inv(run(0)) && RetriesPending(run(0))
    ensures Inv(run(n)) && RetriesPending(run(n))
  {
    hide Inv, ForgetsOnly, Apply, Enabled, Settled;
    if n > 0 {
      ScheduleKeepsRetries(run, n - 1);
      assert Proceeds(run(n - 1), run(n - 1 + 1));
      if e: Event :| e.IsInternal() && Enabled(run(n - 1), e) && run(n) == Apply(run(n - 1), e) {
        EveryEventKeepsInv(run(n - 1), e);
        EventKeepsRetries(run(n - 1), e, EMPTY_REGISTRY);
      }
    }
  }
}
