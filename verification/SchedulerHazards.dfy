/**
  What the scheduler does with the requests its theorems leave out: a run that is submitted
  with work another life of it began, a run that reuses the stage ids of one still held, and
  a manual retry that does not fit its run. The program carries all of them out.
 */
module SchedulerHazards {
  import opened Wrappers
  import opened Stages
  import opened Executor
  import opened RunInvariant
  import opened RegistryInvariant
  import opened Scheduler
  import opened SchedulerSafety
  import opened SchedulerRuns
  import opened SchedulerProgress
  import opened SchedulerStranding

  // ---------------------------------------------------------- which runs may be submitted

  /** What the main result rests on, beyond the runtime invariant. */
  ghost predicate AllWorkIsTended(s: Runtime) {
    Inv(s) && RetriesPending(s) && AllQuiet(s.registry)
  }

  lemma TendedRunIsStartable(s: Runtime, p: Pipeline)
    requires AllWorkIsTended(Submitted(s, p)) && SubmitRun(s.registry, p).1.Ok?
    requires forall slot :: Mentioned(s, slot) ==> !HasStage(p, slot.stage)
    ensures Startable(p)
  {
    var t := Submitted(s, p);
    hide StagesOk, SingleWorkers, IdsCoherent, QueueSafe, NoLostWakeup, ActiveRunsDiffer, Sound, SubmitRun;
    assert p.id in t.registry.pipelines && t.registry.pipelines[p.id] == p by { AdmittedIsHeld(s.registry, p); }
    RunOf(t.registry, p.id);
    forall i | 0 <= i < |p.stages|
      ensures !p.stages[i].state.Running? && (p.IsActive() ==> !p.stages[i].state.Failed?)
    {
      NothingTendsStage(s, t, p, i);
    }
  }

  lemma AdmittedIsHeld(r: Registry, p: Pipeline)
    requires SubmitRun(r, p).1.Ok?
    ensures p.id in SubmitRun(r, p).0.pipelines && SubmitRun(r, p).0.pipelines[p.id] == p
  {
  }

  lemma NothingTendsStage(s: Runtime, t: Runtime, p: Pipeline, i: nat)
    requires Inv(t) && RetriesPending(t) && MoreIds(s, t)
    requires p.id in t.registry.pipelines && t.registry.pipelines[p.id] == p && i < |p.stages| && Sound(p)
    requires forall slot :: Mentioned(s, slot) ==> !HasStage(p, slot.stage)
    ensures !p.stages[i].state.Running? && (p.IsActive() ==> !p.stages[i].state.Failed?)
  {
    hide RegInv, SingleWorkers, IdsCoherent, QueueSafe, NoLostWakeup, ActiveRunsDiffer;
    var slot := Slot(p.id, p.stages[i].id);
    IndexOfStage(p, i);
    assert Holds(t.registry, slot) && StageAt(t.registry, slot) == p.stages[i];
    MoreIdsTasks(s, t);
    assert !Mentioned(t, slot);
    assert StageOk(t, slot, p.stages[i], p.IsActive());
    assert !StuckFailure(EMPTY_REGISTRY, slot);
  }

  /**
    An accepted run with stage ids of its own leaves everything tended exactly when it is startable:
    a Running stage in it never gets a worker, a Failed one never a timer, and what waits in a failed
    run is never dispatched.
   */
  lemma SubmissionIsTendedIff(s: Runtime, p: Pipeline)
    requires AllWorkIsTended(s) && SubmitRun(s.registry, p).1.Ok? && UnusedIds(s, p)
    ensures AllWorkIsTended(Submitted(s, p)) <==> Startable(p)
  {
    UnusedMeansFresh(s, p) by { hide RegInv, StagesOk, SingleWorkers, QueueSafe, NoLostWakeup, ActiveRunsDiffer; }
    hide Inv, ForgetsOnly, AllQuiet, Startable, SubmitRun, UnusedIds, FreshIds;
    if Startable(p) {
      assert Enabled(s, Submit(p)) && Apply(s, Submit(p)) == Submitted(s, p);
      hide Enabled, Apply, Submitted;
      SubmitKeeps(s, p);
      SubmitKeepsRetries(s, p, EMPTY_REGISTRY);
      SubmitKeepsQuiet(s, p);
    } else if AllWorkIsTended(Submitted(s, p)) {
      TendedRunIsStartable(s, p);
    }
  }

  /** An accepted run that reuses a stage id of a run still held breaks the runtime invariant. */
  lemma ReuseBreaksTheInvariant(s: Runtime, p: Pipeline)
    requires Inv(s) && SubmitRun(s.registry, p).1.Ok? && !FreshIds(AfterEviction(s.registry), p)
    ensures !Inv(Submitted(s, p))
  {
    hide StagesOk, SingleWorkers, IdsCoherent, QueueSafe, NoLostWakeup, ActiveRunsDiffer, WellShaped, FreshIds,
      SubmitRun, AllSound, AfterEviction;
    SubmitOutcome(s.registry, p);
  }

  // ----------------------------------------------------- runs of events without the hypotheses

  /** Any request is carried out; the other events are those of Scheduler. */
  ghost predicate Possible(s: Runtime, e: Event) {
    e.Submit? || e.ManualRetry? || Enabled(s, e)
  }

  ghost function Step(s: Runtime, e: Event): Runtime
    requires Possible(s, e)
  {
    match e
    case Submit(p) => Submitted(s, p)
    case ManualRetry(sid) => Retried(s, sid)
    case _ => Apply(s, e)
  }

  ghost function RunAny(s: Runtime, events: seq<Event>): Option<Runtime> {
    if events == [] then Some(s)
    else
      var before := RunAny(s, events[..|events| - 1]);
      var e := events[|events| - 1];
      if before.Some? && Possible(before.value, e) then Some(Step(before.value, e)) else None
  }

  lemma {:induction false} RunIsRunAny(s: Runtime, events: seq<Event>)
    requires Run(s, events).Some?
    ensures RunAny(s, events) == Run(s, events)
  {
    if events != [] {
      RunIsRunAny(s, events[..|events| - 1]);
      hide CleanSubmission, RetryAllowed;
    }
  }

  lemma OneMoreStep(s: Runtime, events: seq<Event>, t: Runtime, e: Event)
    requires RunAny(s, events) == Some(t) && Possible(t, e)
    ensures RunAny(s, events + [e]) == Some(Step(t, e))
  {
  }
}
