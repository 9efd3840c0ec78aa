/**
  Runs of events that end badly: a crash that strands a run between a failure and
  its retry, and one that brings a failed run back with work nobody will start.
 */
module SchedulerStranding {
  import opened Wrappers
  import opened Stages
  import opened Executor
  import opened RunInvariant
  import opened RegistryInvariant
  import opened Scheduler
  import opened SchedulerSafety
  import opened SchedulerRuns
  import opened SchedulerTargets
  import opened SchedulerCrash

  // A single-stage job whose only attempt so far failed.
  const TARGET := StageDispatch("plugin", "verb")
  const LONE_STAGE := Stage(0, [], StageState.Pending, 0, 3, [], Some(TARGET), [])
  const LONE_JOB := Pipeline(0, "job", [LONE_STAGE], PipelineState.Pending, None, None)
  const LONE_SLOT := Slot(0, 0)

  lemma LoneJobIsAccepted()
    ensures Accepted(Design(LONE_JOB))
  {
    var d := Design(LONE_JOB);
    assert d == [DesignOf(LONE_STAGE)];
    forall w ensures !IsCycle(d, w) {
      if |w| >= 2 {
        assert !Edge(d, w[0], w[1]);
      }
    }
    assert !IsWhitespace(TARGET.plugin[0]) && !IsWhitespace(TARGET.verb[0]);
    forall rule ensures Obeys(d, rule) {
    }
  }

  lemma OneMore(s: Runtime, events: seq<Event>, t: Runtime, e: Event)
    requires Run(s, events) == Some(t) && Enabled(t, e)
    ensures Run(s, events + [e]) == Some(Apply(t, e))
  {
  }

  predicate CrashFree(events: seq<Event>) {
    forall k :: 0 <= k < |events| ==> !events[k].Crash?
  }

  lemma StaysCrashFree(events: seq<Event>, e: Event)
    requires CrashFree(events) && !e.Crash?
    ensures CrashFree(events + [e])
  {
  }

  lemma FirstSnapshotIsCrashFree(p: Pipeline)
    ensures CrashFree([] + [Submit(p)] + [Wake] + [Notify] + [Snapshot])
  {
  }

  lemma SubmitStep(s: Runtime, p: Pipeline)
    requires SubmitRun(s.registry, p).1.Ok? && Startable(p) && UnusedIds(s, p)
    ensures Enabled(s, Submit(p)) && Apply(s, Submit(p)) == Submitted(s, p)
    ensures Submitted(s, p) == s.(registry := SubmitRun(s.registry, p).0, usedStages := s.usedStages + StageIds(p),
                                  owedWakes := s.owedWakes + 1)
  {
    hide SubmitRun, Startable, UnusedIds;
  }

  function LoneRegistry(stage: StageState, attempts: U8, run: PipelineState): Registry {
    Registry(map[0 := LONE_JOB.(stages := [LONE_STAGE.(state := stage, attempts := attempts)], state := run)], [0])
  }

  lemma LoneSlotIsHeld(stage: StageState, attempts: U8, run: PipelineState)
    ensures var r := LoneRegistry(stage, attempts, run);
      && Holds(r, LONE_SLOT) && Index(r.pipelines[0], 0) == 0 && Owner(r, 0) == Some(0)
      && HasTarget(r, LONE_SLOT)
  {
  }

  lemma LoneIsAdmitted()
    ensures SubmitRun(EMPTY_REGISTRY, LONE_JOB)
      == (LoneRegistry(StageState.Pending, 0, PipelineState.Pending), Ok(0))
    ensures Startable(LONE_JOB) && StageIds(LONE_JOB) == {0}
  {
    LoneJobIsAccepted();
    assert LONE_JOB.stages[0] == LONE_STAGE;
    FreshRunsAreSound(LONE_JOB);
    hide Accepted, Design, Startable;
    assert SubmitRun(EMPTY_REGISTRY, LONE_JOB).0 == LoneRegistry(StageState.Pending, 0, PipelineState.Pending);
  }

  lemma LoneSubmission()
    ensures Enabled(INITIAL, Submit(LONE_JOB))
    ensures Apply(INITIAL, Submit(LONE_JOB))
      == INITIAL.(registry := LoneRegistry(StageState.Pending, 0, PipelineState.Pending),
                  owedWakes := 1, usedStages := {0})
  {
    LoneIsAdmitted();
    NothingUsed(LONE_JOB);
    hide SubmitRun, Startable, UnusedIds, LoneRegistry, StageIds, Enabled, Apply, Submitted;
    SubmitStep(INITIAL, LONE_JOB);
    assert {} + {0} == {0};
  }

  lemma LoneSnapshot()
    ensures ReadyStages(LoneRegistry(StageState.Pending, 0, PipelineState.Pending)) == [LONE_SLOT]
  {
    var r := LoneRegistry(StageState.Pending, 0, PipelineState.Pending);
    assert IsReady(r.pipelines[0], 0);
    assert ReadyIn(r.pipelines[0], 0) == [];
    assert ReadyIn(r.pipelines[0], 1) == [LONE_SLOT];
    assert ReadyUpTo(r, 0) == [];
  }

  lemma LonePut(stage: StageState, attempts: U8, run: PipelineState, q: Pipeline)
    requires |q.stages| == 1 && q == LONE_JOB.(stages := q.stages, state := q.state)
    requires q.stages[0] == LONE_STAGE.(state := q.stages[0].state, attempts := q.stages[0].attempts)
    ensures Put(LoneRegistry(stage, attempts, run), 0, q)
      == LoneRegistry(q.stages[0].state, q.stages[0].attempts, q.state)
  {
    assert q.stages == [q.stages[0]];
    assert Put(LoneRegistry(stage, attempts, run), 0, q).pipelines == map[0 := q];
  }

  lemma LoneDispatch()
    ensures MarkRunning(LoneRegistry(StageState.Pending, 0, PipelineState.Pending), LONE_SLOT)
         == (LoneRegistry(StageState.Running, 0, PipelineState.Running), true)
  {
    LoneSlotIsHeld(StageState.Pending, 0, PipelineState.Pending);
    var r := LoneRegistry(StageState.Pending, 0, PipelineState.Pending);
    LonePut(StageState.Pending, 0, PipelineState.Pending, Started(r.pipelines[0], 0));
  }

  lemma LoneFailure()
    ensures MarkFailed(LoneRegistry(StageState.Running, 0, PipelineState.Running), 0, "boom").0
         == LoneRegistry(StageState.Failed("boom", 1), 1, PipelineState.Running)
    ensures StuckFailure(LoneRegistry(StageState.Failed("boom", 1), 1, PipelineState.Running), LONE_SLOT)
  {
    LoneSlotIsHeld(StageState.Running, 0, PipelineState.Running);
    LoneSlotIsHeld(StageState.Failed("boom", 1), 1, PipelineState.Running);
    var r := LoneRegistry(StageState.Running, 0, PipelineState.Running);
    LonePut(StageState.Running, 0, PipelineState.Running, FailedBy(r.pipelines[0], 0, "boom"));
  }

  lemma LoneRunUntilSnapshot()
    ensures Run(INITIAL, [] + [Submit(LONE_JOB)] + [Wake] + [Notify] + [Snapshot])
      == Some(INITIAL.(registry := LoneRegistry(StageState.Pending, 0, PipelineState.Pending),
                       queue := [LONE_SLOT], usedStages := {0}))
  {
    LoneSubmission();
    LoneSnapshot();
    EmptyRun();
    hide ReadyStages, LoneRegistry, Run, Enabled, Apply;
    var submitted := Apply(INITIAL, Submit(LONE_JOB));
    OneMore(INITIAL, [], INITIAL, Submit(LONE_JOB));
    DispatcherLooks(INITIAL, [] + [Submit(LONE_JOB)], submitted);
  }

  /** Once woken the dispatcher takes its snapshot. */
  lemma DispatcherLooks(start: Runtime, events: seq<Event>, s: Runtime)
    requires Run(start, events) == Some(s) && s.owedWakes > 0 && Idle(s)
    ensures Run(start, events + [Wake] + [Notify] + [Snapshot])
      == Some(s.(owedWakes := s.owedWakes - 1, permit := false, notified := false, queue := ReadyStages(s.registry)))
  {
    hide ReadyStages, Run, Enabled, Apply;
    WakeStep(s);
    OneMore(start, events, s, Wake);
    var awake := Apply(s, Wake);
    NotifyStep(awake);
    OneMore(start, events + [Wake], awake, Notify);
    var notified := Apply(awake, Notify);
    SnapshotStep(notified);
    OneMore(start, events + [Wake] + [Notify], notified, Snapshot);
  }

  function MarkedState(s: Runtime, r: Registry): Runtime
    requires s.queue != [] && Holds(s.registry, s.queue[0])
  {
    var slot := s.queue[0];
    s.(registry := r, queue := s.queue[1..], hasTarget := HasTarget(s.registry, slot),
       dispatches := s.dispatches[slot := Dispatches(s, slot) + 1])
  }

  /** It marks the head of its queue and hands it to a worker. */
  lemma DispatcherSpawns(start: Runtime, events: seq<Event>, s: Runtime, r: Registry)
    requires Run(start, events) == Some(s) && s.queue != [] && s.current.None?
    requires MarkRunning(s.registry, s.queue[0]) == (r, true) && HasTarget(s.registry, s.queue[0])
    ensures Run(start, events + [Mark] + [Spawn])
      == Some(MarkedState(s, r).(workers := s.workers + multiset{s.queue[0]}))
  {
    hide Run, Enabled, Apply, MarkRunning, StageAt, Holds, Dispatches;
    MarkStep(s);
    OneMore(start, events, s, Mark);
    SpawnStep(Apply(s, Mark));
    OneMore(start, events + [Mark], Apply(s, Mark), Spawn);
  }

  /** Or it marks it and finds that nothing can execute it. */
  lemma DispatcherRefuses(start: Runtime, events: seq<Event>, s: Runtime, r: Registry, error: string)
    requires Run(start, events) == Some(s) && s.queue != [] && s.current.None?
    requires MarkRunning(s.registry, s.queue[0]) == (r, true)
    ensures Run(start, events + [Mark] + [Refuse(error)])
      == Some(MarkedState(s, ExhaustStage(r, s.queue[0].stage, error).0))
  {
    hide Run, Enabled, Apply, MarkRunning, StageAt, Holds, Dispatches, ExhaustStage;
    MarkStep(s);
    OneMore(start, events, s, Mark);
    RefuseStep(Apply(s, Mark), error);
    OneMore(start, events + [Mark], Apply(s, Mark), Refuse(error));
  }

  lemma EmptyRun()
    ensures Run(INITIAL, []) == Some(INITIAL)
  {
  }

  lemma LoneRunUntilFailure() returns (events: seq<Event>)
    ensures Run(INITIAL, events).Some?
    ensures Run(INITIAL, events).value.registry == LoneRegistry(StageState.Failed("boom", 1), 1, PipelineState.Running)
  {
    LoneRunUntilSnapshot();
    LoneSlotIsHeld(StageState.Pending, 0, PipelineState.Pending);
    LoneDispatch();
    LoneFailure();
    hide MarkRunning, MarkFailed, LoneRegistry, Run, StuckFailure, Enabled, Apply;
    events := [] + [Submit(LONE_JOB)] + [Wake] + [Notify] + [Snapshot];
    var s := Run(INITIAL, events).value;
    MarkStep(s);
    OneMore(INITIAL, events, s, Mark);
    events, s := events + [Mark], Apply(s, Mark);
    SpawnStep(s);
    OneMore(INITIAL, events, s, Spawn);
    events, s := events + [Spawn], Apply(s, Spawn);
    FailStep(s, LONE_SLOT, "boom");
    OneMore(INITIAL, events, s, Fail(LONE_SLOT, "boom"));
    events := events + [Fail(LONE_SLOT, "boom")];
  }

  /** It does happen: submit, dispatch, fail once, and lose the daemon before the backoff is over. */
  lemma ACrashCanStrandARun() returns (events: seq<Event>)
    ensures Run(INITIAL, events).Some?
    ensures !AlwaysFinishes(Apply(Run(INITIAL, events).value, Crash))
  {
    hide Inv, AlwaysFinishes, Run, Apply;
    events := LoneRunUntilFailure();
    InitiallyInv();
    RunsKeepInv(INITIAL, events);
    var p := LoneRegistry(StageState.Failed("boom", 1), 1, PipelineState.Running).pipelines[0];
    assert p.stages[0].state.Failed?;
    assert HeldUp(p);
    hide HeldUp, LoneRegistry;
    CrashRecoversIff(Run(INITIAL, events).value);
  }

  // ----------------------------------------------- failed runs that come back waiting

  /** Without a crash a failed run never has a stage left waiting. */
  ghost predicate AllQuiet(r: Registry) {
    forall id :: id in r.pipelines ==> Quiet(r.pipelines[id])
  }

  lemma EventKeepsQuiet(s: Runtime, e: Event)
    requires Inv(s) && Enabled(s, e) && !e.Crash? && AllQuiet(s.registry)
    ensures AllQuiet(Apply(s, e).registry)
  {
    hide Inv, Quiet, StaysOver, Sound, Kept;
    if e.Submit? {
      SubmitKeepsQuiet(s, e.run);
    } else {
      hide Apply, Enabled;
      var moved := Effect(s, e);
    }
  }

  lemma SubmitKeepsQuiet(s: Runtime, p: Pipeline)
    requires Inv(s) && Enabled(s, Submit(p)) && AllQuiet(s.registry)
    ensures AllQuiet(Apply(s, Submit(p)).registry)
  {
    hide StagesOk, SingleWorkers, IdsCoherent, QueueSafe, NoLostWakeup, ActiveRunsDiffer, RegInv, SubmitRun;
    SubmittedRuns(s.registry, p);
  }

  lemma SubmittedRuns(r: Registry, p: Pipeline)
    requires RegInv(r)
    ensures var (t, answer) := SubmitRun(r, p);
      forall id :: id in t.pipelines ==>
        (answer.Ok? && t.pipelines[id] == p) || (id in r.pipelines && t.pipelines[id] == r.pipelines[id])
  {
    ShapeOf(r);
    BoundOf(r);
    hide RegInv, WellShaped;
    SubmitOutcome(r, p);
    hide SubmitRun;
  }

  lemma {:induction false} FailedRunsAreQuiet(events: seq<Event>)
    requires Run(INITIAL, events).Some? && forall k :: 0 <= k < |events| ==> !events[k].Crash?
    ensures AllQuiet(Run(INITIAL, events).value.registry)
  {
    hide Inv, Enabled, Apply, Quiet;
    if events != [] {
      var init := events[..|events| - 1];
      FailedRunsAreQuiet(init);
      InitiallyInv();
      RunsKeepInv(INITIAL, init);
      EventKeepsQuiet(Run(INITIAL, init).value, events[|events| - 1]);
    }
  }

  /** Opening the file leaves a failed run something waiting exactly when something had been running or waiting. */
  lemma FailedRunReopensWaitingIff(p: Pipeline)
    requires p.state.Failed?
    ensures Requeued(p).state.Failed?
    ensures !Quiet(Requeued(p)) <==>
      exists i :: 0 <= i < |p.stages| && (p.stages[i].state.Pending? || p.stages[i].state.Running?)
  {
    var q := Requeued(p);
    if i :| 0 <= i < |p.stages| && (p.stages[i].state.Pending? || p.stages[i].state.Running?) {
      assert q.stages[i].state.Pending?;
    }
  }

  /** A run that is over with nothing running. */
  predicate Abandoned(p: Pipeline) {
    !p.IsActive() && forall i :: 0 <= i < |p.stages| ==> !p.stages[i].state.Running?
  }

  lemma ResultsLeaveAlone(r: Registry, slot: Slot, artifacts: seq<Artifact>, id: PipelineId)
    requires id in r.pipelines && Abandoned(r.pipelines[id])
    ensures var t := CompleteStage(r, slot, artifacts).0; id in t.pipelines && t.pipelines[id] == r.pipelines[id]
  {
    hide Completed, Index;
  }

  lemma FailuresLeaveAlone(r: Registry, sid: StageId, error: string, id: PipelineId)
    requires id in r.pipelines && Abandoned(r.pipelines[id])
    ensures var t := MarkFailed(r, sid, error).0; id in t.pipelines && t.pipelines[id] == r.pipelines[id]
    ensures var t := ExhaustStage(r, sid, error).0; id in t.pipelines && t.pipelines[id] == r.pipelines[id]
    ensures var t := RetryFailed(r, sid).0; id in t.pipelines && t.pipelines[id] == r.pipelines[id]
  {
    hide FailedBy, ExhaustedBy, WithState, Index;
  }

  lemma StartsLeaveAlone(r: Registry, next: Slot, id: PipelineId)
    requires id in r.pipelines && Abandoned(r.pipelines[id])
    requires MarkRunning(r, next).1 ==> r.pipelines[next.pipeline].IsActive()
    ensures var t := MarkRunning(r, next).0; id in t.pipelines && t.pipelines[id] == r.pipelines[id]
  {
    hide Started, Index;
  }

  /** Nothing the scheduler does by itself touches such a run: what waits in it is never dispatched. */
  lemma AbandonedRunIsLeftAlone(s: Runtime, e: Event, id: PipelineId)
    requires Inv(s) && Enabled(s, e) && e.IsInternal()
    requires id in s.registry.pipelines && Abandoned(s.registry.pipelines[id])
    ensures id in Apply(s, e).registry.pipelines && Apply(s, e).registry.pipelines[id] == s.registry.pipelines[id]
  {
    hide RegInv, StagesOk, SingleWorkers, IdsCoherent, QueueSafe, NoLostWakeup, ActiveRunsDiffer, Abandoned,
      InputsDone, Index;
    match e {
      case Mark =>
        if MarkRunning(s.registry, s.queue[0]).1 { MarkedWasPending(s); }
        StartsLeaveAlone(s.registry, s.queue[0], id);
      case Refuse(error) => FailuresLeaveAlone(s.registry, s.current.value.stage, error, id);
      case Finish(slot, artifacts) => ResultsLeaveAlone(s.registry, slot, artifacts, id);
      case Fail(slot, error) => FailuresLeaveAlone(s.registry, slot.stage, error, id);
      case BackoffElapsed(slot) => FailuresLeaveAlone(s.registry, slot.stage, "", id);
      case _ =>
    }
    hide MarkRunning, CompleteStage, MarkFailed, ExhaustStage, RetryFailed;
  }

  lemma {:induction false} AbandonedRunStays(s: Runtime, events: seq<Event>, id: PipelineId)
    requires Inv(s) && Run(s, events).Some? && AllInternal(events)
    requires id in s.registry.pipelines && Abandoned(s.registry.pipelines[id])
    ensures var r := Run(s, events).value.registry;
      id in r.pipelines && r.pipelines[id] == s.registry.pipelines[id]
  {
    hide Inv, Enabled, Apply, Abandoned;
    if events != [] {
      var init, e := events[..|events| - 1], events[|events| - 1];
      AbandonedRunStays(s, init, id);
      RunsKeepInv(s, init);
      AbandonedRunIsLeftAlone(Run(s, init).value, e, id);
    }
  }

  /** What comes back from a crash in a run that is over is abandoned. */
  lemma ReopenedOverIsAbandoned(p: Pipeline)
    requires !p.IsActive()
    ensures Abandoned(Requeued(p))
  {
  }

  // A two-stage job whose second stage is refused while the first is running.
  const STAGE_A := Stage(0, [], StageState.Pending, 0, 1, [], Some(TARGET), [])
  const STAGE_B := Stage(1, [], StageState.Pending, 0, 1, [], Some(TARGET), [])
  const PAIR_JOB := PairRun(StageState.Pending, StageState.Pending, 0, PipelineState.Pending, None)
  const SLOT_A := Slot(0, 0)
  const SLOT_B := Slot(0, 1)

  function PairRun(a: StageState, b: StageState, attempts: U8, run: PipelineState, error: Option<string>): Pipeline {
    Pipeline(0, "job", [STAGE_A.(state := a), STAGE_B.(state := b, attempts := attempts)], run, None, error)
  }

  function Holding(p: Pipeline): Registry {
    Registry(map[0 := p], [0])
  }

  lemma PairIsHeld(a: StageState, b: StageState, attempts: U8, run: PipelineState, error: Option<string>)
    ensures var (p, r) := (PairRun(a, b, attempts, run, error), Holding(PairRun(a, b, attempts, run, error)));
      && Index(p, 0) == 0 && Index(p, 1) == 1
      && Holds(r, SLOT_A) && Holds(r, SLOT_B) && HasTarget(r, SLOT_A) && HasTarget(r, SLOT_B)
      && Owner(r, 0) == Some(0) && Owner(r, 1) == Some(0)
  {
    var p := PairRun(a, b, attempts, run, error);
    var d := Design(p);
    assert d[0].id == 0 && d[1].id == 1;
    assert IndexFrom(d, 1, 1) == 1;
  }

  lemma PairJobIsAccepted()
    ensures Accepted(Design(PAIR_JOB)) && Fresh(PAIR_JOB) && StageIds(PAIR_JOB) == {0, 1}
  {
    var d := Design(PAIR_JOB);
    assert d == [DesignOf(STAGE_A), DesignOf(STAGE_B)];
    forall w ensures !IsCycle(d, w) {
      if |w| >= 2 {
        assert !Edge(d, w[0], w[1]);
      }
    }
    assert !IsWhitespace(TARGET.plugin[0]) && !IsWhitespace(TARGET.verb[0]);
    forall rule ensures Obeys(d, rule) {
    }
    assert PAIR_JOB.stages[0].id == 0 && PAIR_JOB.stages[1].id == 1;
  }

  lemma PairIsAdmitted()
    ensures SubmitRun(EMPTY_REGISTRY, PAIR_JOB) == (Holding(PAIR_JOB), Ok(0))
    ensures Startable(PAIR_JOB) && StageIds(PAIR_JOB) == {0, 1}
  {
    PairJobIsAccepted();
    FreshRunsAreSound(PAIR_JOB);
    hide Accepted, Design, Startable, Fresh, StageIds;
    assert SubmitRun(EMPTY_REGISTRY, PAIR_JOB).0 == Holding(PAIR_JOB);
  }

  lemma PairSubmission()
    ensures Enabled(INITIAL, Submit(PAIR_JOB))
    ensures Apply(INITIAL, Submit(PAIR_JOB))
      == INITIAL.(registry := Holding(PAIR_JOB), owedWakes := 1, usedStages := {0, 1})
  {
    PairIsAdmitted();
    NothingUsed(PAIR_JOB);
    hide SubmitRun, Startable, UnusedIds, Holding, StageIds, Enabled, Apply, Submitted;
    SubmitStep(INITIAL, PAIR_JOB);
    assert {} + {0, 1} == {0, 1};
  }

  lemma NothingUsed(p: Pipeline)
    ensures UnusedIds(INITIAL, p)
  {
  }

  lemma PairSnapshot()
    ensures ReadyStages(Holding(PAIR_JOB)) == [SLOT_A, SLOT_B]
  {
    assert IsReady(PAIR_JOB, 0) && IsReady(PAIR_JOB, 1);
    assert ReadyIn(PAIR_JOB, 0) == [];
    assert ReadyIn(PAIR_JOB, 1) == [SLOT_A];
    assert ReadyIn(PAIR_JOB, 2) == [SLOT_A, SLOT_B];
    assert ReadyUpTo(Holding(PAIR_JOB), 0) == [];
  }

  lemma PutOnly(p: Pipeline, q: Pipeline)
    ensures Put(Holding(p), 0, q) == Holding(q)
  {
    assert Put(Holding(p), 0, q).pipelines == map[0 := q];
  }

  lemma PairStarts()
    ensures var one := PairRun(StageState.Running, StageState.Pending, 0, PipelineState.Running, None);
      && MarkRunning(Holding(PAIR_JOB), SLOT_A) == (Holding(one), true)
      && MarkRunning(Holding(one), SLOT_B)
        == (Holding(PairRun(StageState.Running, StageState.Running, 0, PipelineState.Running, None)), true)
  {
    var one := PairRun(StageState.Running, StageState.Pending, 0, PipelineState.Running, None);
    var two := PairRun(StageState.Running, StageState.Running, 0, PipelineState.Running, None);
    PairIsHeld(StageState.Pending, StageState.Pending, 0, PipelineState.Pending, None);
    PairIsHeld(StageState.Running, StageState.Pending, 0, PipelineState.Running, None);
    assert Started(PAIR_JOB, 0).stages == one.stages;
    assert Started(one, 1).stages == two.stages;
    PutOnly(PAIR_JOB, one);
    PutOnly(one, two);
  }

  lemma PairIsRefused()
    ensures var running := PairRun(StageState.Running, StageState.Running, 0, PipelineState.Running, None);
      ExhaustStage(Holding(running), 1, "none").0
      == Holding(PairRun(StageState.Running, StageState.Exhausted("none"), 1, PipelineState.Failed, Some("none")))
  {
    var two := PairRun(StageState.Running, StageState.Running, 0, PipelineState.Running, None);
    var over := PairRun(StageState.Running, StageState.Exhausted("none"), 1, PipelineState.Failed, Some("none"));
    PairIsHeld(StageState.Running, StageState.Running, 0, PipelineState.Running, None);
    var q := ExhaustedBy(two, 1, 1, "none");
    assert q.stages[0] == over.stages[0] && q.stages[1] == over.stages[1];
    assert q.stages == over.stages;
    PutOnly(two, over);
  }

  lemma PairRunUntilSnapshot()
    ensures Run(INITIAL, [] + [Submit(PAIR_JOB)] + [Wake] + [Notify] + [Snapshot])
      == Some(INITIAL.(registry := Holding(PAIR_JOB), queue := [SLOT_A, SLOT_B], usedStages := {0, 1}))
  {
    PairSubmission();
    PairSnapshot();
    EmptyRun();
    hide SubmitRun, ReadyStages, Holding, Run, Enabled, Apply;
    var submitted := Apply(INITIAL, Submit(PAIR_JOB));
    OneMore(INITIAL, [], INITIAL, Submit(PAIR_JOB));
    DispatcherLooks(INITIAL, [] + [Submit(PAIR_JOB)], submitted);
  }

  /** One stage running, the other next in the queue. */
  lemma PairRunUntilSpawn() returns (events: seq<Event>)
    ensures Run(INITIAL, events).Some? && CrashFree(events)
    ensures var s := Run(INITIAL, events).value;
      && s.registry == Holding(PairRun(StageState.Running, StageState.Pending, 0, PipelineState.Running, None))
      && s.queue == [SLOT_B] && s.current.None?
  {
    PairRunUntilSnapshot();
    PairIsHeld(StageState.Pending, StageState.Pending, 0, PipelineState.Pending, None);
    PairStarts();
    var one := PairRun(StageState.Running, StageState.Pending, 0, PipelineState.Running, None);
    events := [] + [Submit(PAIR_JOB)] + [Wake] + [Notify] + [Snapshot];
    FirstSnapshotIsCrashFree(PAIR_JOB);
    hide MarkRunning, Holding, PairRun, Run, Index, HasTarget, Dispatches, Enabled, Apply, CrashFree;
    StaysCrashFree(events, Mark);
    StaysCrashFree(events + [Mark], Spawn);
    DispatcherSpawns(INITIAL, events, Run(INITIAL, events).value, Holding(one));
    events := events + [Mark] + [Spawn];
  }

  lemma PairRunUntilRefusal() returns (events: seq<Event>)
    ensures Run(INITIAL, events).Some? && CrashFree(events)
    ensures Run(INITIAL, events).value.registry
      == Holding(PairRun(StageState.Running, StageState.Exhausted("none"), 1, PipelineState.Failed, Some("none")))
  {
    PairIsHeld(StageState.Running, StageState.Pending, 0, PipelineState.Running, None);
    PairStarts();
    PairIsRefused();
    var two := PairRun(StageState.Running, StageState.Running, 0, PipelineState.Running, None);
    hide MarkRunning, ExhaustStage, Holding, PairRun, Run, Index, HasTarget, Dispatches, Enabled, Apply, CrashFree;
    events := PairRunUntilSpawn();
    StaysCrashFree(events, Mark);
    StaysCrashFree(events + [Mark], Refuse("none"));
    DispatcherRefuses(INITIAL, events, Run(INITIAL, events).value, Holding(two), "none");
    events := events + [Mark] + [Refuse("none")];
  }

  /**
    A crash while one stage of a failed run is still running brings it back Failed with that stage Pending,
    for good.
   */
  lemma ACrashCanLeaveAFailedRunWaiting() returns (events: seq<Event>)
    ensures Run(INITIAL, events).Some? && CrashFree(events)
    ensures var t := Apply(Run(INITIAL, events).value, Crash);
      && 0 in t.registry.pipelines
      && t.registry.pipelines[0].state.Failed? && !Quiet(t.registry.pipelines[0]) && Abandoned(t.registry.pipelines[0])
  {
    events := PairRunUntilRefusal();
    InitiallyInv();
    RunsKeepInv(INITIAL, events);
    hide Inv, Run;
    CrashKeeps(Run(INITIAL, events).value);
    var p := PairRun(StageState.Running, StageState.Exhausted("none"), 1, PipelineState.Failed, Some("none"));
    assert p.stages[0].state.Running?;
    FailedRunReopensWaitingIff(p);
    ReopenedOverIsAbandoned(p);
  }
}
