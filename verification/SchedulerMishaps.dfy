/** Runs of events with requests the theorems leave out, each of which a person can make. */
module SchedulerMishaps {
  import opened Wrappers
  import opened Stages
  import opened Executor
  import opened RunInvariant
  import opened RegistryInvariant
  import opened Scheduler
  import opened SchedulerSafety
  import opened SchedulerProgress
  import opened SchedulerTargets
  import opened SchedulerCrash
  import opened SchedulerStranding
  import opened SchedulerHazards

  /** Run `id` of a job with one stage, called `sid`. */
  function JobOf(id: PipelineId, sid: StageId, stage: StageState, attempts: U8, run: PipelineState,
                 error: Option<string>): Pipeline
  {
    Pipeline(id, "job", [LONE_STAGE.(id := sid, state := stage, attempts := attempts)], run, None, error)
  }

  function Waiting(id: PipelineId, sid: StageId): Pipeline {
    JobOf(id, sid, StageState.Pending, 0, PipelineState.Pending, None)
  }

  function Both(p: Pipeline, q: Pipeline): Registry {
    Registry(map[0 := p, 1 := q], [0, 1])
  }

  lemma OneStage(p: Pipeline, sid: StageId)
    requires |p.stages| == 1
    ensures HasStage(p, sid) <==> p.stages[0].id == sid
    ensures HasStage(p, sid) ==> Index(p, sid) == 0
  {
    HasStageIsMembership(p, sid);
  }

  lemma JobIsAccepted(id: PipelineId, sid: StageId)
    ensures Accepted(Design(Waiting(id, sid))) && Startable(Waiting(id, sid)) && StageIds(Waiting(id, sid)) == {sid}
  {
    var p := Waiting(id, sid);
    var d := Design(p);
    assert |d| == 1 && d[0].inputs == [];
    forall w ensures !IsCycle(d, w) {
      if |w| >= 2 {
        assert !Edge(d, w[0], w[1]);
      }
    }
    assert !IsWhitespace(TARGET.plugin[0]) && !IsWhitespace(TARGET.verb[0]);
    forall rule ensures Obeys(d, rule) {
    }
    assert p.stages[0].id == sid;
    hide Acyclic;
    FreshRunsAreSound(p);
  }

  lemma FirstIsAdmitted()
    ensures SubmitRun(EMPTY_REGISTRY, Waiting(0, 0)) == (Holding(Waiting(0, 0)), Ok(0))
  {
    JobIsAccepted(0, 0);
    hide Accepted, Design, Startable;
    assert SubmitRun(EMPTY_REGISTRY, Waiting(0, 0)).0 == Holding(Waiting(0, 0));
  }

  /** A run that is over is no obstacle to another of the same job. */
  lemma SecondIsAdmitted(p: Pipeline, sid: StageId)
    requires p.IsTerminal()
    ensures SubmitRun(Holding(p), Waiting(1, sid)) == (Both(p, Waiting(1, sid)), Ok(1))
  {
    JobIsAccepted(1, sid);
    hide Accepted, Design, Startable;
    assert !HasActiveTwin(Holding(p), Waiting(1, sid));
    assert |Holding(p).pipelines| == 1;
    assert SubmitRun(Holding(p), Waiting(1, sid)).0 == Both(p, Waiting(1, sid));
  }

  // ------------------------------------------------------------- reused stage ids

  lemma OnlySecondIsReady(p: Pipeline, q: Pipeline)
    requires !p.IsActive() && |q.stages| == 1 && q.id == 1 && IsReady(q, 0)
    ensures ReadyStages(Both(p, q)) == [Slot(1, q.stages[0].id)]
  {
    var r := Both(p, q);
    assert ReadyUpTo(r, 0) == [];
    NothingReadyIn(p, |p.stages|);
    assert ReadyUpTo(r, 1) == [];
    assert ReadyIn(q, 0) == [];
    assert ReadyIn(q, 1) == [Slot(1, q.stages[0].id)];
  }

  lemma {:induction false} NothingReadyIn(p: Pipeline, upTo: nat)
    requires !p.IsActive() && upTo <= |p.stages|
    ensures ReadyIn(p, upTo) == []
  {
    if upTo > 0 {
      NothingReadyIn(p, upTo - 1);
    }
  }

  const OLD_RUN := JobOf(0, 0, StageState.Cancelled, 0, PipelineState.Cancelled, None)
  const RERUN := Waiting(1, 0)
  const LOST_RUN := JobOf(1, 0, StageState.Running, 0, PipelineState.Running, None)

  lemma OldRunIsCancelled()
    ensures CancelPipeline(Holding(Waiting(0, 0)), 0) == Holding(OLD_RUN)
  {
    assert CancelledRun(Waiting(0, 0)).stages == OLD_RUN.stages;
    assert CancelPipeline(Holding(Waiting(0, 0)), 0).pipelines == map[0 := OLD_RUN];
  }

  lemma RerunStarts()
    ensures MarkRunning(Both(OLD_RUN, RERUN), Slot(1, 0)) == (Both(OLD_RUN, LOST_RUN), true)
    ensures StageAt(Both(OLD_RUN, RERUN), Slot(1, 0)).dispatch.Some?
  {
    OneStage(RERUN, 0);
    assert Started(RERUN, 0).stages == LOST_RUN.stages;
    assert Put(Both(OLD_RUN, RERUN), 1, LOST_RUN).pipelines == map[0 := OLD_RUN, 1 := LOST_RUN];
  }

  /** The scan stops at the old run, whose stage is not running, and the failure is dropped. */
  lemma FailureIsDropped(error: string)
    ensures MarkFailed(Both(OLD_RUN, LOST_RUN), 0, error) == (Both(OLD_RUN, LOST_RUN), None)
    ensures ExhaustStage(Both(OLD_RUN, LOST_RUN), 0, error) == (Both(OLD_RUN, LOST_RUN), None)
    ensures Holds(Both(OLD_RUN, LOST_RUN), Slot(1, 0))
    ensures StageAt(Both(OLD_RUN, LOST_RUN), Slot(1, 0)).state.Running?
  {
    OneStage(OLD_RUN, 0);
    OneStage(LOST_RUN, 0);
  }

  lemma EmptyStep()
    ensures RunAny(INITIAL, []) == Some(INITIAL)
  {
  }

  /** One more event that needs no leave. */
  lemma OneMoreEnabled(events: seq<Event>, s: Runtime, e: Event)
    requires RunAny(INITIAL, events) == Some(s) && CrashFree(events)
    requires Enabled(s, e) && !e.Submit? && !e.ManualRetry? && !e.Crash?
    ensures RunAny(INITIAL, events + [e]) == Some(Apply(s, e)) && CrashFree(events + [e])
  {
    StaysCrashFree(events, e);
    hide RunAny, Enabled, Apply, CrashFree;
    OneMoreStep(INITIAL, events, s, e);
  }

  lemma SubmissionStep(s: Runtime, p: Pipeline)
    requires SubmitRun(s.registry, p).1.Ok?
    ensures Possible(s, Submit(p))
    ensures Step(s, Submit(p))
      == s.(registry := SubmitRun(s.registry, p).0, usedStages := s.usedStages + StageIds(p),
            owedWakes := s.owedWakes + 1)
  {
    hide SubmitRun, StageIds;
  }

  lemma OneMoreSubmission(events: seq<Event>, s: Runtime, p: Pipeline)
    requires RunAny(INITIAL, events) == Some(s) && CrashFree(events) && SubmitRun(s.registry, p).1.Ok?
    ensures CrashFree(events + [Submit(p)])
    ensures RunAny(INITIAL, events + [Submit(p)])
      == Some(s.(registry := SubmitRun(s.registry, p).0, usedStages := s.usedStages + StageIds(p),
                 owedWakes := s.owedWakes + 1))
  {
    hide RunAny, CrashFree, SubmitRun, Apply, Enabled, StageIds;
    StaysCrashFree(events, Submit(p));
    SubmissionStep(s, p);
    hide Step, Possible;
    OneMoreStep(INITIAL, events, s, Submit(p));
  }

  lemma CancelStep(s: Runtime, id: PipelineId)
    ensures Enabled(s, Cancel(id))
    ensures Apply(s, Cancel(id))
      == s.(registry := CancelPipeline(s.registry, id), revoked := s.revoked + Revocable(s.registry, id))
  {
    hide CancelPipeline, Revocable;
  }

  lemma UntilResubmission() returns (events: seq<Event>)
    ensures RunAny(INITIAL, events).Some? && CrashFree(events)
    ensures var s := RunAny(INITIAL, events).value;
      s == INITIAL.(registry := Both(OLD_RUN, RERUN), owedWakes := 2, usedStages := s.usedStages, revoked := s.revoked)
  {
    FirstIsAdmitted();
    OldRunIsCancelled();
    SecondIsAdmitted(OLD_RUN, 0);
    EmptyStep();
    hide SubmitRun, CancelPipeline, Holding, Both, RunAny, Waiting, Revocable, StageIds, Enabled, Apply;
    events := [];
    OneMoreSubmission(events, INITIAL, Waiting(0, 0));
    events := events + [Submit(Waiting(0, 0))];
    var s := RunAny(INITIAL, events).value;
    CancelStep(s, 0);
    OneMoreEnabled(events, s, Cancel(0));
    events, s := events + [Cancel(0)], Apply(s, Cancel(0));
    OneMoreSubmission(events, s, RERUN);
    events := events + [Submit(RERUN)];
  }

  /** Two wake-ups are one: the dispatcher takes one snapshot. */
  lemma DispatcherWakes(events: seq<Event>, s: Runtime) returns (more: seq<Event>)
    requires RunAny(INITIAL, events) == Some(s) && CrashFree(events) && s.owedWakes == 2 && Idle(s)
    ensures RunAny(INITIAL, more)
      == Some(s.(owedWakes := 0, permit := false, notified := false, queue := ReadyStages(s.registry)))
    ensures CrashFree(more)
  {
    hide ReadyStages, RunAny, Enabled, Apply, CrashFree;
    WakeStep(s);
    OneMoreEnabled(events, s, Wake);
    var awake := Apply(s, Wake);
    WakeStep(awake);
    OneMoreEnabled(events + [Wake], awake, Wake);
    var awakeTwice := Apply(awake, Wake);
    NotifyStep(awakeTwice);
    OneMoreEnabled(events + [Wake] + [Wake], awakeTwice, Notify);
    var notified := Apply(awakeTwice, Notify);
    SnapshotStep(notified);
    OneMoreEnabled(events + [Wake] + [Wake] + [Notify], notified, Snapshot);
    more := events + [Wake] + [Wake] + [Notify] + [Snapshot];
  }

  /** Mark the head of the queue and hand it to a worker. */
  lemma DispatcherStarts(events: seq<Event>, s: Runtime, slot: Slot, r: Registry) returns (more: seq<Event>)
    requires RunAny(INITIAL, events) == Some(s) && CrashFree(events) && s.queue == [slot] && s.current.None?
    requires MarkRunning(s.registry, slot) == (r, true) && HasTarget(s.registry, slot)
    ensures RunAny(INITIAL, more).Some? && CrashFree(more)
    ensures var t := RunAny(INITIAL, more).value;
      t == s.(registry := r, queue := [], workers := s.workers + multiset{slot}, hasTarget := true,
              dispatches := t.dispatches)
  {
    hide RunAny, Enabled, Apply, CrashFree, MarkRunning, StageAt, Holds;
    MarkStep(s);
    OneMoreEnabled(events, s, Mark);
    var marked := Apply(s, Mark);
    SpawnStep(marked);
    OneMoreEnabled(events + [Mark], marked, Spawn);
    more := events + [Mark] + [Spawn];
  }

  lemma DroppedFailureIsTheEnd(events: seq<Event>, s: Runtime, slot: Slot, error: string)
    requires RunAny(INITIAL, events) == Some(s) && CrashFree(events)
    requires s.workers == multiset{slot} && s.timers == multiset{} && s.current.None? && s.queue == [] && !WillLook(s)
    requires MarkFailed(s.registry, slot.stage, error).0 == s.registry
    requires Holds(s.registry, slot) && StageAt(s.registry, slot).state.Running?
    ensures RunAny(INITIAL, events + [Fail(slot, error)]).Some? && CrashFree(events + [Fail(slot, error)])
    ensures RunAny(INITIAL, events + [Fail(slot, error)]).value.registry == s.registry
    ensures Settled(RunAny(INITIAL, events + [Fail(slot, error)]).value)
  {
    hide RunAny, Enabled, Apply, CrashFree, MarkFailed, Holds, Settled;
    FailStep(s, slot, error);
    OneMoreEnabled(events, s, Fail(slot, error));
    IdleIsSettled(Apply(s, Fail(slot, error)));
  }

  /**
    Submit a job, cancel it, submit the same graph again as a new run, and let its stage fail: the scan finds
    the old run first, the failure is dropped, and the new run is Running at rest, with no worker, for good.
   */
  lemma AReusedStageIdCanStrandARun() returns (events: seq<Event>)
    ensures RunAny(INITIAL, events).Some? && CrashFree(events)
    ensures var s := RunAny(INITIAL, events).value;
      && s.registry == Both(OLD_RUN, LOST_RUN)
      && Settled(s) && !Finished(LOST_RUN)
  {
    OnlySecondIsReady(OLD_RUN, RERUN);
    RerunStarts();
    FailureIsDropped("boom");
    assert !Finished(LOST_RUN);
    hide RunAny, Both, MarkRunning, MarkFailed, OLD_RUN, RERUN, LOST_RUN, ReadyStages, CrashFree, Finished, Settled,
      Holds, StageAt;
    events := UntilResubmission();
    events := DispatcherWakes(events, RunAny(INITIAL, events).value);
    events := DispatcherStarts(events, RunAny(INITIAL, events).value, Slot(1, 0), Both(OLD_RUN, LOST_RUN));
    DroppedFailureIsTheEnd(events, RunAny(INITIAL, events).value, Slot(1, 0), "boom");
    events := events + [Fail(Slot(1, 0), "boom")];
  }

  lemma IdleIsSettled(s: Runtime)
    requires s.workers == multiset{} && s.timers == multiset{} && s.current.None? && s.queue == [] && !WillLook(s)
    ensures Settled(s)
  {
  }

  // ------------------------------------------------------------------ manual retries

  const EXHAUSTED_RUN := JobOf(0, 0, StageState.Exhausted("none"), 3, PipelineState.Failed, Some("none"))
  const STARTED_RUN := JobOf(0, 0, StageState.Running, 0, PipelineState.Running, None)

  lemma LoneIsWaiting()
    ensures LoneRegistry(StageState.Pending, 0, PipelineState.Pending) == Holding(Waiting(0, 0))
    ensures LONE_JOB == Waiting(0, 0)
  {
  }

  lemma LoneIsRefused()
    ensures MarkRunning(Holding(Waiting(0, 0)), LONE_SLOT) == (Holding(STARTED_RUN), true)
    ensures ExhaustStage(Holding(STARTED_RUN), 0, "none") == (Holding(EXHAUSTED_RUN), Some(0))
  {
    OneStage(Waiting(0, 0), 0);
    OneStage(STARTED_RUN, 0);
    assert Started(Waiting(0, 0), 0).stages == STARTED_RUN.stages;
    PutOnly(Waiting(0, 0), STARTED_RUN);
    assert Owner(Holding(STARTED_RUN), 0) == Some(0);
    assert ExhaustedBy(STARTED_RUN, 0, 3, "none").stages == EXHAUSTED_RUN.stages;
    PutOnly(STARTED_RUN, EXHAUSTED_RUN);
  }

  lemma UntilRefusal() returns (events: seq<Event>)
    ensures Run(INITIAL, events).Some? && CrashFree(events)
    ensures var s := Run(INITIAL, events).value;
      s == INITIAL.(registry := Holding(EXHAUSTED_RUN), usedStages := {0}, hasTarget := s.hasTarget,
                    dispatches := s.dispatches)
  {
    LoneRunUntilSnapshot();
    LoneIsWaiting();
    LoneIsRefused();
    events := [] + [Submit(LONE_JOB)] + [Wake] + [Notify] + [Snapshot];
    FirstSnapshotIsCrashFree(LONE_JOB);
    hide Run, CrashFree, MarkRunning, ExhaustStage, Holding, LoneRegistry, STARTED_RUN, EXHAUSTED_RUN, HasTarget,
      Dispatches, Enabled, Apply;
    StaysCrashFree(events, Mark);
    StaysCrashFree(events + [Mark], Refuse("none"));
    DispatcherRefuses(INITIAL, events, Run(INITIAL, events).value, Holding(STARTED_RUN), "none");
    events := events + [Mark] + [Refuse("none")];
  }

  predicate KeysAgree(r: Registry) {
    forall id :: id in r.pipelines ==> r.pipelines[id].id == id
  }

  /** The run is over, nothing runs in it, and the dispatcher does not have it on its list. */
  ghost predicate Passed(s: Runtime, id: PipelineId) {
    && KeysAgree(s.registry)
    && id in s.registry.pipelines && Abandoned(s.registry.pipelines[id])
    && forall slot :: slot in s.queue ==> slot.pipeline != id
  }

  lemma {:induction false} ReadyMeansActive(r: Registry, upTo: nat, slot: Slot)
    requires KeysAgree(r) && upTo <= |r.order| && slot in ReadyUpTo(r, upTo)
    ensures slot.pipeline in r.pipelines && r.pipelines[slot.pipeline].IsActive()
  {
    var id := r.order[upTo - 1];
    if slot in ReadyUpTo(r, upTo - 1) {
      ReadyMeansActive(r, upTo - 1, slot);
    } else {
      ReadyInMeansActive(r.pipelines[id], |r.pipelines[id].stages|, slot);
    }
  }

  lemma {:induction false} ReadyInMeansActive(p: Pipeline, upTo: nat, slot: Slot)
    requires upTo <= |p.stages| && slot in ReadyIn(p, upTo)
    ensures slot.pipeline == p.id && p.IsActive()
  {
    if slot in ReadyIn(p, upTo - 1) {
      ReadyInMeansActive(p, upTo - 1, slot);
    }
  }

  lemma OperationsKeepKeys(r: Registry, slot: Slot, artifacts: seq<Artifact>, error: string)
    requires KeysAgree(r)
    ensures KeysAgree(MarkRunning(r, slot).0) && KeysAgree(CompleteStage(r, slot, artifacts).0)
    ensures KeysAgree(MarkFailed(r, slot.stage, error).0) && KeysAgree(ExhaustStage(r, slot.stage, error).0)
    ensures KeysAgree(RetryFailed(r, slot.stage).0)
  {
    hide Index, Owner;
  }

  lemma MarkingLeavesAlone(r: Registry, next: Slot, id: PipelineId)
    requires id in r.pipelines && next.pipeline != id
    ensures var t := MarkRunning(r, next).0; id in t.pipelines && t.pipelines[id] == r.pipelines[id]
  {
    hide Started, Index;
  }

  lemma PassedRunIsKept(s: Runtime, e: Event, id: PipelineId)
    requires Passed(s, id) && Enabled(s, e) && e.IsInternal()
    ensures var t := Apply(s, e).registry;
      KeysAgree(t) && id in t.pipelines && t.pipelines[id] == s.registry.pipelines[id]
  {
    hide KeysAgree, Abandoned, Index, MarkRunning, CompleteStage, MarkFailed, ExhaustStage, RetryFailed, ReadyStages;
    var r := s.registry;
    match e {
      case Mark =>
        MarkingLeavesAlone(r, s.queue[0], id);
        OperationsKeepKeys(r, s.queue[0], [], "");
      case Refuse(error) =>
        FailuresLeaveAlone(r, s.current.value.stage, error, id);
        OperationsKeepKeys(r, s.current.value, [], error);
      case Finish(slot, artifacts) =>
        ResultsLeaveAlone(r, slot, artifacts, id);
        OperationsKeepKeys(r, slot, artifacts, "");
      case Fail(slot, error) =>
        FailuresLeaveAlone(r, slot.stage, error, id);
        OperationsKeepKeys(r, slot, [], error);
      case BackoffElapsed(slot) =>
        FailuresLeaveAlone(r, slot.stage, "", id);
        OperationsKeepKeys(r, slot, [], "");
      case _ =>
    }
  }

  lemma QueueComesFrom(s: Runtime, e: Event, slot: Slot)
    requires Enabled(s, e) && e.IsInternal() && slot in Apply(s, e).queue
    ensures slot in s.queue || slot in ReadyStages(s.registry)
  {
    hide MarkRunning, CompleteStage, MarkFailed, ExhaustStage, RetryFailed, ReadyStages;
  }

  lemma PassedRunIsLeftAlone(s: Runtime, e: Event, id: PipelineId)
    requires Passed(s, id) && Enabled(s, e) && e.IsInternal()
    ensures Passed(Apply(s, e), id) && Apply(s, e).registry.pipelines[id] == s.registry.pipelines[id]
  {
    hide KeysAgree, Abandoned, Apply, Enabled, ReadyStages;
    PassedRunIsKept(s, e, id);
    forall slot | slot in Apply(s, e).queue ensures slot.pipeline != id {
      QueueComesFrom(s, e, slot);
      if slot in ReadyStages(s.registry) {
        ReadyIsNotOver(s.registry, slot, id);
      }
    }
  }

  lemma ReadyIsNotOver(r: Registry, slot: Slot, id: PipelineId)
    requires KeysAgree(r) && slot in ReadyStages(r) && id in r.pipelines && Abandoned(r.pipelines[id])
    ensures slot.pipeline != id
  {
    ReadyMeansActive(r, |r.order|, slot);
  }

  lemma {:induction false} PassedRunStays(s: Runtime, events: seq<Event>, id: PipelineId)
    requires Passed(s, id) && Run(s, events).Some? && AllInternal(events)
    ensures Passed(Run(s, events).value, id)
    ensures Run(s, events).value.registry.pipelines[id] == s.registry.pipelines[id]
  {
    hide Passed, Enabled, Apply;
    if events != [] {
      var init, e := events[..|events| - 1], events[|events| - 1];
      PassedRunStays(s, init, id);
      PassedRunIsLeftAlone(Run(s, init).value, e, id);
    }
  }

  lemma RevivedCancelledRun(p: Pipeline, i: nat)
    requires RunInv(p) && p.state.Cancelled? && i < |p.stages|
    requires p.stages[i].state.Failed? || p.stages[i].state.Exhausted?
    ensures var q := ManuallyRetried(p, i);
      && Abandoned(q) && !RunInv(q)
      && q.id == p.id && q.state.Cancelled? && HasStage(q, p.stages[i].id)
      && q.stages[Index(q, p.stages[i].id)].state.Pending?
  {
    var q := ManuallyRetried(p, i);
    ManualRetrySoundIff(p, i);
    ManualRetryStages(p, i);
    assert Design(q) == Design(p);
    IndexOfStage(q, i);
    hide Accepted, Design, Index;
  }

  /** The stage waits in a run that is cancelled, outside the run invariant. */
  ghost predicate WaitsInVain(r: Registry, slot: Slot) {
    && Holds(r, slot) && StageAt(r, slot).state.Pending?
    && r.pipelines[slot.pipeline].state.Cancelled? && !RunInv(r.pipelines[slot.pipeline])
  }

  lemma KeysOf(r: Registry)
    requires RegInv(r)
    ensures KeysAgree(r)
  {
    hide Holds;
  }

  lemma RetriedWaitsInVain(r: Registry, sid: StageId, id: PipelineId)
    requires RegInv(r) && RetryStage(r, sid).1 == Some(id) && r.pipelines[id].state.Cancelled?
    ensures var t := RetryStage(r, sid).0;
      KeysAgree(t) && id in t.pipelines && Abandoned(t.pipelines[id]) && WaitsInVain(t, Slot(id, sid))
  {
    RunOf(r, id);
    KeysOf(r);
    var p := r.pipelines[id];
    RevivedCancelledRun(p, Index(p, sid));
    hide RegInv, RunInv, ManuallyRetried, Abandoned, Index, Owner;
  }

  /**
    A manual retry of a stage of a cancelled run is answered as if it were done, but as long as the dispatcher
    has no stage of the run on its list the stage waits in the cancelled run for ever.
   */
  lemma RetryOfACancelledRunIsLost(s: Runtime, sid: StageId, id: PipelineId, events: seq<Event>)
    requires Inv(s) && RetryStage(s.registry, sid).1 == Some(id) && s.registry.pipelines[id].state.Cancelled?
    requires forall slot :: slot in s.queue ==> slot.pipeline != id
    requires AllInternal(events) && Run(Retried(s, sid), events).Some?
    ensures WaitsInVain(Run(Retried(s, sid), events).value.registry, Slot(id, sid))
  {
    hide StagesOk, SingleWorkers, IdsCoherent, QueueSafe, NoLostWakeup, ActiveRunsDiffer, RegInv, Run, AllInternal,
      RetryStage, KeysAgree, Abandoned, RunInv, Holds, StageAt, Enabled, Apply;
    RetriedWaitsInVain(s.registry, sid, id);
    PassedRunStays(Retried(s, sid), events, id);
    SameRunWaits(Retried(s, sid).registry, Run(Retried(s, sid), events).value.registry, Slot(id, sid));
  }

  lemma SameRunWaits(r: Registry, t: Registry, slot: Slot)
    requires WaitsInVain(r, slot) && slot.pipeline in t.pipelines
    requires t.pipelines[slot.pipeline] == r.pipelines[slot.pipeline]
    ensures WaitsInVain(t, slot)
  {
    hide RunInv;
  }

  const CANCELLED_RUN := JobOf(0, 0, StageState.Exhausted("none"), 3, PipelineState.Cancelled, Some("none"))

  lemma ExhaustedIsCancelled()
    ensures CancelPipeline(Holding(EXHAUSTED_RUN), 0) == Holding(CANCELLED_RUN)
    ensures RetryStage(Holding(CANCELLED_RUN), 0).1 == Some(0)
  {
    assert CancelledRun(EXHAUSTED_RUN).stages == CANCELLED_RUN.stages;
    PutOnly(EXHAUSTED_RUN, CANCELLED_RUN);
    OneStage(CANCELLED_RUN, 0);
    assert Owner(Holding(CANCELLED_RUN), 0) == Some(0);
  }

  /** It happens: a stage is refused, the failed run is cancelled, and then the stage is retried. */
  lemma ARetryCanBeLost() returns (events: seq<Event>)
    ensures Run(INITIAL, events).Some? && CrashFree(events)
    ensures RetryStage(Run(INITIAL, events).value.registry, 0).1 == Some(0)
    ensures var t := Retried(Run(INITIAL, events).value, 0);
      forall later :: AllInternal(later) && Run(t, later).Some? ==> WaitsInVain(Run(t, later).value.registry, LONE_SLOT)
  {
    events := UntilRefusal();
    ExhaustedIsCancelled();
    assert CANCELLED_RUN.state.Cancelled? && 0 in Holding(CANCELLED_RUN).pipelines
      && Holding(CANCELLED_RUN).pipelines[0] == CANCELLED_RUN;
    hide Run, Enabled, Apply, CrashFree, Holding, CancelPipeline, Revocable, RetryStage, EXHAUSTED_RUN,
      CANCELLED_RUN, Inv, WaitsInVain, AllInternal, Retried;
    var s := Run(INITIAL, events).value;
    CancelStep(s, 0);
    OneMore(INITIAL, events, s, Cancel(0));
    StaysCrashFree(events, Cancel(0));
    events, s := events + [Cancel(0)], Apply(s, Cancel(0));
    InitiallyInv();
    RunsKeepInv(INITIAL, events);
    forall later | AllInternal(later) && Run(Retried(s, 0), later).Some?
      ensures WaitsInVain(Run(Retried(s, 0), later).value.registry, LONE_SLOT)
    {
      RetryOfACancelledRunIsLost(s, 0, 0, later);
    }
  }

  const TWIN := Waiting(1, 1)
  const REVIVED_RUN := JobOf(0, 0, StageState.Pending, 0, PipelineState.Running, None)

  lemma TwinsAreActive()
    ensures RetryStage(Both(EXHAUSTED_RUN, TWIN), 0) == (Both(REVIVED_RUN, TWIN), Some(0))
    ensures RetryAllowed(Both(EXHAUSTED_RUN, TWIN), 0)
    ensures !ActiveRunsDiffer(Both(REVIVED_RUN, TWIN))
  {
    OneStage(EXHAUSTED_RUN, 0);
    var r := Both(EXHAUSTED_RUN, TWIN);
    assert Owner(r, 0) == Some(0);
    assert ManuallyRetried(EXHAUSTED_RUN, 0).stages == REVIVED_RUN.stages;
    assert Put(r, 0, REVIVED_RUN).pipelines == map[0 := REVIVED_RUN, 1 := TWIN];
    assert Put(r, 0, REVIVED_RUN) == Both(REVIVED_RUN, TWIN);
    var t := Both(REVIVED_RUN, TWIN);
    assert t.pipelines[0].IsActive() && t.pipelines[1].IsActive() && SameJob(t.pipelines[0], t.pipelines[1]);
  }

  lemma TwinIsUnused(s: Runtime)
    requires s.usedStages == {0}
    ensures UnusedIds(s, TWIN)
  {
  }

  lemma RetryStep(s: Runtime, sid: StageId)
    requires RetryAllowed(s.registry, sid) && RetryStage(s.registry, sid).1.Some?
    ensures Enabled(s, ManualRetry(sid)) && Apply(s, ManualRetry(sid)).registry == RetryStage(s.registry, sid).0
  {
    hide RetryAllowed, RetryStage;
  }

  /**
    It happens: a run fails for good, the job is submitted again, and then the failed run is retried. The retry
    fits, so every hypothesis is met, and the same job is active twice.
   */
  lemma ARetryCanDoubleAJob() returns (events: seq<Event>)
    ensures Run(INITIAL, events).Some? && CrashFree(events)
    ensures !ActiveRunsDiffer(Run(INITIAL, events).value.registry)
  {
    events := UntilRefusal();
    SecondIsAdmitted(EXHAUSTED_RUN, 1);
    JobIsAccepted(1, 1);
    TwinsAreActive();
    hide Run, Enabled, Apply, CrashFree, Holding, Both, SubmitRun, RetryStage, RetryAllowed, Accepted, Startable,
      EXHAUSTED_RUN, REVIVED_RUN, TWIN, ActiveRunsDiffer, UnusedIds, Waiting, Submitted;
    var s := Run(INITIAL, events).value;
    TwinIsUnused(s);
    SubmitStep(s, TWIN);
    OneMore(INITIAL, events, s, Submit(TWIN));
    StaysCrashFree(events, Submit(TWIN));
    events, s := events + [Submit(TWIN)], Apply(s, Submit(TWIN));
    RetryStep(s, 0);
    OneMore(INITIAL, events, s, ManualRetry(0));
    StaysCrashFree(events, ManualRetry(0));
    events := events + [ManualRetry(0)];
  }
}
