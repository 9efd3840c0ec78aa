/**
  Crashes. Opening the registry re-queues what was Running, but a stage that was
  Failed and waiting for its backoff stays Failed: the timer died with the daemon
  and nothing starts a new one. Its run is held up by it, unless it comes to a stage
  that cannot be executed at all, which fails the run. This is exactly when a crash
  strands a run.
 */
module SchedulerCrash {
  import opened Wrappers
  import opened Stages
  import opened Cycles
  import opened Executor
  import opened RunInvariant
  import opened RegistryInvariant
  import opened Scheduler
  import opened SchedulerSafety
  import opened SchedulerRuns
  import opened SchedulerProgress
  import opened SchedulerTargets

  predicate AllInternal(events: seq<Event>) {
    forall k :: 0 <= k < |events| ==> events[k].IsInternal()
  }

  ghost predicate AllFinished(r: Registry) {
    forall id :: id in r.pipelines ==> Finished(r.pipelines[id])
  }

  /** However the scheduler proceeds from `s` by itself, when it rests every run is finished. */
  ghost predicate AlwaysFinishes(s: Runtime) {
    forall events :: AllInternal(events) && Run(s, events).Some? && Settled(Run(s, events).value) ==>
      AllFinished(Run(s, events).value.registry)
  }

  // ------------------------------------------------------- what the file tells

  predicate FailedAt(p: Pipeline, sid: StageId) {
    HasStage(p, sid) && p.stages[Index(p, sid)].state.Failed?
  }

  /** A walk along input edges from the stage. */
  predicate Leads(p: Pipeline, sid: StageId, w: seq<StageId>) {
    w != [] && w[0] == sid && IsWalk(Design(p), w)
  }

  /** The stage is Failed, or one of its direct or transitive inputs is. */
  ghost predicate WaitsOnFailure(p: Pipeline, sid: StageId) {
    exists w :: Leads(p, sid, w) && FailedAt(p, w[|w| - 1])
  }

  /** Unfinished, with nothing to execute it and no failure to wait for: its turn comes, and fails the run. */
  ghost predicate Doomed(p: Pipeline, i: nat)
    requires i < |p.stages|
  {
    !p.stages[i].state.Done? && p.stages[i].dispatch.None? && !WaitsOnFailure(p, p.stages[i].id)
  }

  predicate HasFailure(p: Pipeline) {
    exists i :: 0 <= i < |p.stages| && p.stages[i].state.Failed?
  }

  ghost predicate HasDoomed(p: Pipeline) {
    exists i :: 0 <= i < |p.stages| && Doomed(p, i)
  }

  /** An active run with a forgotten failure that nothing else will bring to an end. */
  ghost predicate HeldUp(p: Pipeline) {
    p.IsActive() && HasFailure(p) && !HasDoomed(p)
  }

  /** As long as the same stages are Failed, a run that goes on stays held up. */
  lemma HeldUpStays(p: Pipeline, q: Pipeline)
    requires HeldUp(p) && Kept(p, q) && q.IsActive()
    requires forall j :: 0 <= j < |p.stages| && j < |q.stages| ==>
      (q.stages[j].state.Failed? <==> p.stages[j].state.Failed?)
    ensures HeldUp(q)
  {
    KeptHoldsSame(p, q);
    SameFailures(p, q);
    hide Index, IsWalk, Leads, WaitsOnFailure;
    assert HasFailure(q);
    forall i | 0 <= i < |q.stages| ensures !Doomed(q, i) {
      assert !Doomed(p, i);
    }
  }

  lemma SameFailures(p: Pipeline, q: Pipeline)
    requires Kept(p, q)
    requires forall j :: 0 <= j < |p.stages| && j < |q.stages| ==>
      (q.stages[j].state.Failed? <==> p.stages[j].state.Failed?)
    ensures forall sid :: WaitsOnFailure(q, sid) <==> WaitsOnFailure(p, sid)
  {
    KeptHoldsSame(p, q);
    hide Index, IsWalk;
    assert forall sid :: FailedAt(p, sid) <==> FailedAt(q, sid);
    assert forall sid, w :: Leads(p, sid, w) <==> Leads(q, sid, w);
    hide FailedAt, Leads;
    forall sid ensures WaitsOnFailure(q, sid) <==> WaitsOnFailure(p, sid) {
      if w :| Leads(p, sid, w) && FailedAt(p, w[|w| - 1]) {
        assert Leads(q, sid, w) && FailedAt(q, w[|w| - 1]);
      }
      if w :| Leads(q, sid, w) && FailedAt(q, w[|w| - 1]) {
        assert Leads(p, sid, w) && FailedAt(p, w[|w| - 1]);
      }
    }
  }

  lemma RequeueKeepsHeldUp(p: Pipeline)
    requires Sound(p)
    ensures HeldUp(Requeued(p)) <==> HeldUp(p)
  {
    var q := Requeued(p);
    RequeuedIsSound(p);
    SameFailures(p, q);
    hide WaitsOnFailure, Sound, Kept;
    assert forall i :: 0 <= i < |p.stages| ==> (Doomed(q, i) <==> Doomed(p, i));
  }

  // ------------------------------------------------------------ runs that recover

  /** At rest, an unfinished stage of an active run whose inputs are done can only be Failed. */
  lemma FreeAtRestIsFailed(s: Runtime, id: PipelineId, i: nat)
    requires Inv(s) && Settled(s) && id in s.registry.pipelines
    requires var p := s.registry.pipelines[id];
      p.IsActive() && i < |p.stages| && !p.stages[i].state.Done? && InputsDone(p, i)
    ensures StuckFailure(s.registry, Slot(id, s.registry.pipelines[id].stages[i].id))
    ensures s.timers == multiset{}
  {
    hide RegInv, IdsCoherent, QueueSafe, ActiveRunsDiffer, Settled, Accepted, DependencySafe, AttemptsCounted;
    SettledMeansIdle(s);
    RunOf(s.registry, id);
    var p := s.registry.pipelines[id];
    StageOkAt(s, id, i);
    IndexOfStage(p, i);
    FreeIsReady(p, i);
    var slot := Slot(id, p.stages[i].id);
    assert Live(s, slot) == 0;
    assert !SlotReady(s.registry, slot);
  }

  /** The unfinished stages a stage waits for, itself included. */
  ghost function AwaitedBy(p: Pipeline, sid: StageId): set<StageId> {
    set x | x in Unfinished(p) && exists w :: Leads(p, sid, w) && w[|w| - 1] == x
  }

  lemma AwaitedIsClosed(p: Pipeline, sid: StageId, m: StageId, x: StageId)
    requires m in AwaitedBy(p, sid) && Edge(Design(p), m, x) && x in Unfinished(p)
    ensures x in AwaitedBy(p, sid)
  {
    var w :| Leads(p, sid, w) && w[|w| - 1] == m;
    assert Leads(p, sid, w + [x]);
  }

  /** Some unfinished stage that `b` waits for has all its own inputs done. */
  lemma AwaitedStageIsFree(p: Pipeline, b: nat) returns (i: nat)
    requires RunInv(p) && b < |p.stages| && !p.stages[b].state.Done?
    ensures i < |p.stages| && !p.stages[i].state.Done? && InputsDone(p, i)
    ensures exists w :: Leads(p, p.stages[b].id, w) && w[|w| - 1] == p.stages[i].id
  {
    var d := Design(p);
    var sid := p.stages[b].id;
    assert Obeys(d, AcyclicRule) && Obeys(d, DanglingInput);
    assert Leads(p, sid, [sid]);
    assert sid in Unfinished(p);
    hide Acyclic, Obeys, Sound;
    assert sid in AwaitedBy(p, sid);
    var m := MinimalStage(d, AwaitedBy(p, sid));
    i := Index(p, m);
    var u :| 0 <= u < |p.stages| && p.stages[u].id == m && !p.stages[u].state.Done?;
    DistinctStages(p);
    IndexOfStage(p, u);
    forall x | Edge(d, m, x) ensures x !in Unfinished(p) {
      if x in Unfinished(p) {
        AwaitedIsClosed(p, sid, m, x);
      }
    }
    hide AwaitedBy, Unfinished;
    forall k | 0 <= k < |p.stages[i].inputs| ensures IsDone(p, p.stages[i].inputs[k]) {
      FreeInput(p, i, k, m);
    }
  }

  lemma DistinctStages(p: Pipeline)
    requires RunInv(p)
    ensures DistinctIds(Design(p))
  {
  }

  /** A run that was not held up when the daemon came back is over when it rests. */
  lemma NotHeldUpFinishes(s: Runtime, t: Runtime, id: PipelineId)
    requires Inv(s) && Inv(t) && Settled(t)
    requires ForgetsOnly(t, s.registry) && OnlyTargetsDeliver(t, s.registry)
    requires id in s.registry.pipelines && id in t.registry.pipelines
    requires Kept(s.registry.pipelines[id], t.registry.pipelines[id])
    requires t.registry.pipelines[id].IsActive() ==> s.registry.pipelines[id].IsActive()
    requires !HeldUp(s.registry.pipelines[id])
    ensures Finished(t.registry.pipelines[id])
  {
    hide RegInv, StagesOk, SingleWorkers, IdsCoherent, QueueSafe, NoLostWakeup, ActiveRunsDiffer, Settled;
    var p, q := s.registry.pipelines[id], t.registry.pipelines[id];
    RunOf(s.registry, id);
    RunOf(t.registry, id);
    RestMeansFinished(t, id);
    KeptHoldsSame(p, q);
    hide Finished, Kept, RunInv, Sound, Inv, Index;
    if q.IsActive() {
      if b: nat :| b < |p.stages| && Doomed(p, b) {
        DoomedIsUnserved(s, t, id, b);
        var i := AwaitedStageIsFree(q, b);
        RestingStageWasFailed(s, t, id, i);
        var w :| Leads(q, q.stages[b].id, w) && w[|w| - 1] == q.stages[i].id;
        WaitsThere(p, q, w, i);
        assert false;
      } else {
        var i := SomeStageIsFree(q);
        RestingStageWasFailed(s, t, id, i);
        assert false;
      }
    }
  }

  lemma WaitsThere(p: Pipeline, q: Pipeline, w: seq<StageId>, i: nat)
    requires Kept(p, q) && i < |p.stages| && p.stages[i].state.Failed? && DistinctIds(Design(p))
    requires w != [] && Leads(q, w[0], w) && w[|w| - 1] == p.stages[i].id
    ensures WaitsOnFailure(p, w[0])
  {
    IndexOfStage(p, i);
    assert Leads(p, w[0], w) && FailedAt(p, w[|w| - 1]);
  }

  lemma DoomedIsUnserved(s: Runtime, t: Runtime, id: PipelineId, b: nat)
    requires OnlyTargetsDeliver(t, s.registry)
    requires id in s.registry.pipelines && id in t.registry.pipelines
    requires Sound(s.registry.pipelines[id]) && Kept(s.registry.pipelines[id], t.registry.pipelines[id])
    requires b < |s.registry.pipelines[id].stages| && Doomed(s.registry.pipelines[id], b)
    ensures b < |t.registry.pipelines[id].stages| && !t.registry.pipelines[id].stages[b].state.Done?
  {
    var p, q := s.registry.pipelines[id], t.registry.pipelines[id];
    KeptHoldsSame(p, q);
    IndexOfStage(p, b);
    hide WaitsOnFailure, Kept, Index;
    var slot := Slot(id, p.stages[b].id);
    assert Holds(t.registry, slot) && Holds(s.registry, slot);
  }

  /** A free stage at rest was Failed, in an active run, when the daemon came back. */
  lemma RestingStageWasFailed(s: Runtime, t: Runtime, id: PipelineId, i: nat)
    requires Inv(s) && Inv(t) && Settled(t) && ForgetsOnly(t, s.registry)
    requires id in s.registry.pipelines && id in t.registry.pipelines
    requires Kept(s.registry.pipelines[id], t.registry.pipelines[id])
    requires var q := t.registry.pipelines[id];
      q.IsActive() && i < |q.stages| && !q.stages[i].state.Done? && InputsDone(q, i)
    ensures i < |s.registry.pipelines[id].stages| && s.registry.pipelines[id].stages[i].state.Failed?
  {
    hide StagesOk, SingleWorkers, IdsCoherent, QueueSafe, NoLostWakeup, ActiveRunsDiffer, Settled, RegInv,
      InputsDone;
    FreeAtRestIsFailed(t, id, i);
    var p, q := s.registry.pipelines[id], t.registry.pipelines[id];
    RunOf(s.registry, id);
    KeptHoldsSame(p, q);
    IndexOfStage(p, i);
    hide Inv, Kept, Index;
    assert StuckFailure(s.registry, Slot(id, q.stages[i].id));
  }

  lemma {:induction false} InternalRunKeepsRuns(s: Runtime, events: seq<Event>, id: PipelineId)
    requires Inv(s) && Run(s, events).Some? && AllInternal(events)
    ensures id in Run(s, events).value.registry.pipelines <==> id in s.registry.pipelines
    ensures id in s.registry.pipelines ==>
      var p, q := s.registry.pipelines[id], Run(s, events).value.registry.pipelines[id];
      Kept(p, q) && (q.IsActive() ==> p.IsActive())
  {
    hide Inv, Enabled, Apply, Finished;
    if events != [] {
      var init, e := events[..|events| - 1], events[|events| - 1];
      InternalRunKeepsRuns(s, init, id);
      RunsKeepInv(s, init);
      InternalKeepsRuns(Run(s, init).value, e, id);
    }
  }

  lemma {:induction false} InternalRunKeepsDelivery(s: Runtime, events: seq<Event>, past: Registry)
    requires Inv(s) && TargetsMatch(s) && OnlyTargetsDeliver(s, past) && Run(s, events).Some? && AllInternal(events)
    ensures OnlyTargetsDeliver(Run(s, events).value, past)
  {
    hide Inv, Enabled, Apply, TargetsMatch, OnlyTargetsDeliver;
    if events != [] {
      var init, e := events[..|events| - 1], events[|events| - 1];
      InternalRunKeepsDelivery(s, init, past);
      RunsKeepInv(s, init);
      RunsKeepTargets(s, init);
      EventKeepsDelivery(Run(s, init).value, e, past);
    }
  }

  lemma NothingHeldUpFinishes(s: Runtime)
    requires Inv(s) && TargetsMatch(s)
    requires forall id :: id in s.registry.pipelines ==> !HeldUp(s.registry.pipelines[id])
    ensures AlwaysFinishes(s)
  {
    assert ForgetsOnly(s, s.registry) && OnlyTargetsDeliver(s, s.registry);
    hide Inv, TargetsMatch, OnlyTargetsDeliver, ForgetsOnly, Settled, Finished, Run, HeldUp;
    forall events | AllInternal(events) && Run(s, events).Some? && Settled(Run(s, events).value)
      ensures AllFinished(Run(s, events).value.registry)
    {
      RunsKeepInv(s, events);
      RetriesNeverForgotten(s, events, s.registry);
      InternalRunKeepsDelivery(s, events, s.registry);
      var u := Run(s, events).value;
      forall id | id in u.registry.pipelines ensures Finished(u.registry.pipelines[id]) {
        InternalRunKeepsRuns(s, events, id);
        NotHeldUpFinishes(s, u, id);
      }
    }
  }

  // ---------------------------------------------------------- runs that are held up

  /** No timer is left, and nothing will bring the run to an end. */
  ghost predicate Stranded(s: Runtime, id: PipelineId) {
    && s.timers == multiset{} && TargetsMatch(s)
    && id in s.registry.pipelines && HeldUp(s.registry.pipelines[id])
  }

  /** From a stage whose inputs were done, input edges only lead to stages that are done. */
  lemma {:induction false} BehindStarted(p: Pipeline, w: seq<StageId>)
    requires Sound(p) && |w| >= 2 && IsWalk(Design(p), w)
    requires HasStage(p, w[0]) && HasStarted(p.stages[Index(p, w[0])].state)
    ensures HasStage(p, w[|w| - 1]) && p.stages[Index(p, w[|w| - 1])].state.Done?
    decreases |w|
  {
    var i := Index(p, w[0]);
    assert Edge(Design(p), w[0], w[1]);
    InputIsDone(p, i, w[1]);
    if |w| > 2 {
      BehindStarted(p, w[1..]);
    }
  }

  lemma InputIsDone(p: Pipeline, i: nat, x: StageId)
    requires Sound(p) && i < |p.stages| && i == Index(p, p.stages[i].id) && HasStarted(p.stages[i].state)
    requires Edge(Design(p), p.stages[i].id, x)
    ensures HasStage(p, x) && p.stages[Index(p, x)].state.Done?
  {
    assert Design(p)[i].inputs == p.stages[i].inputs;
    var k :| 0 <= k < |p.stages[i].inputs| && p.stages[i].inputs[k] == x;
    assert InputsDone(p, i) && IsDone(p, p.stages[i].inputs[k]);
    var j :| 0 <= j < |p.stages| && p.stages[j].id == x && p.stages[j].state.Done?;
    IndexOfStage(p, j);
  }

  /** In a held-up run, a stage that is running has something to execute it. */
  lemma RunningHasTarget(p: Pipeline, i: nat)
    requires Sound(p) && HeldUp(p) && i < |p.stages| && p.stages[i].state.Running?
    ensures p.stages[i].dispatch.Some?
  {
    IndexOfStage(p, i);
    if p.stages[i].dispatch.None? {
      assert !Doomed(p, i);
      var w :| Leads(p, p.stages[i].id, w) && FailedAt(p, w[|w| - 1]);
      if |w| >= 2 {
        BehindStarted(p, w);
      }
      assert false;
    }
  }

  /** What the dispatcher holds in a held-up run can be spawned. */
  lemma HeldUpIsSpawned(s: Runtime, id: PipelineId)
    requires Inv(s) && Stranded(s, id) && s.current.Some? && !s.hasTarget
    requires Holds(s.registry, s.current.value)
    ensures s.current.value.pipeline != id
  {
    hide SingleWorkers, IdsCoherent, QueueSafe, NoLostWakeup, ActiveRunsDiffer, HeldUp, RegInv, Sound;
    var slot := s.current.value;
    if slot.pipeline == id {
      var p := s.registry.pipelines[id];
      RunOf(s.registry, id);
      assert StageOk(s, slot, StageAt(s.registry, slot), p.IsActive());
      ActiveIsNotCancelled(p, Index(p, slot.stage));
      RunningHasTarget(p, Index(p, slot.stage));
    }
  }

  lemma ActiveIsNotCancelled(p: Pipeline, i: nat)
    requires Sound(p) && HeldUp(p) && i < |p.stages|
    ensures !p.stages[i].state.Cancelled?
  {
  }

  lemma CompletionKeepsHeldUp(p: Pipeline, i: nat, artifacts: seq<Artifact>)
    requires Sound(p) && HeldUp(p) && i < |p.stages| && p.stages[i].state.Running?
    ensures HeldUp(Completed(p, i, artifacts))
  {
    var q := Completed(p, i, artifacts);
    CompletedIsSound(p, i, artifacts);
    CompletedStages(p, i, artifacts);
    assert q.IsActive() by {
      var f :| 0 <= f < |p.stages| && p.stages[f].state.Failed?;
      CompletionKeepsFailure(p, i, artifacts, f);
    }
    hide Completed, Sound, Kept;
    HeldUpStays(p, q);
  }

  /** A stage between a failure and its retry keeps its run going, whatever else is delivered. */
  lemma CompletionKeepsFailure(p: Pipeline, i: nat, artifacts: seq<Artifact>, f: nat)
    requires Sound(p) && p.IsActive() && i < |p.stages| && p.stages[i].state.Running?
    requires f < |p.stages| && p.stages[f].state.Failed?
    ensures Completed(p, i, artifacts).IsActive()
  {
    CompletedStages(p, i, artifacts);
    var stages := p.stages[i := p.stages[i].(state := StageState.Done, artifacts := artifacts)];
    assert !stages[f].state.IsTerminal();
    assert forall j :: 0 <= j < |stages| ==> !stages[j].state.Exhausted?;
  }

  lemma StartKeepsHeldUp(p: Pipeline, i: nat)
    requires Sound(p) && HeldUp(p) && i < |p.stages| && p.stages[i].state.Pending? && InputsDone(p, i)
    ensures HeldUp(Started(p, i))
  {
    StartedIsSound(p, i);
    HeldUpStays(p, Started(p, i));
  }

  /** A result taken from a stage of the run, or of another, leaves it held up. */
  lemma CompleteKeepsHeldUp(r: Registry, done: Slot, id: PipelineId)
    requires RegInv(r) && id in r.pipelines && HeldUp(r.pipelines[id])
    ensures var t := CompleteStage(r, done, []).0; id in t.pipelines && HeldUp(t.pipelines[id])
  {
    if CompleteStage(r, done, []).1 && done.pipeline == id {
      RunOf(r, id);
      hide RegInv, HeldUp, Sound, Completed;
      CompletionKeepsHeldUp(r.pipelines[id], Index(r.pipelines[id], done.stage), []);
    }
  }

  lemma MarkKeepsHeldUp(r: Registry, next: Slot, id: PipelineId)
    requires RegInv(r) && id in r.pipelines && HeldUp(r.pipelines[id])
    requires MarkRunning(r, next).1 ==>
      var p := r.pipelines[next.pipeline];
      StageAt(r, next).state.Pending? && p.IsActive() && InputsDone(p, Index(p, next.stage))
    ensures var t := MarkRunning(r, next).0; id in t.pipelines && HeldUp(t.pipelines[id])
  {
    if MarkRunning(r, next).1 && next.pipeline == id {
      RunOf(r, id);
      hide RegInv, HeldUp, Sound, Started;
      StartKeepsHeldUp(r.pipelines[id], Index(r.pipelines[id], next.stage));
    }
  }

  lemma FinishLeavesStranded(s: Runtime, id: PipelineId, done: Slot)
    requires Inv(s) && Stranded(s, id) && Enabled(s, Finish(done, []))
    ensures Stranded(Apply(s, Finish(done, [])), id)
  {
    hide RegInv, StagesOk, SingleWorkers, IdsCoherent, QueueSafe, NoLostWakeup, ActiveRunsDiffer, HeldUp,
      TargetsMatch, CompleteStage;
    EventKeepsTargets(s, Finish(done, []));
    CompleteKeepsHeldUp(s.registry, done, id);
  }

  lemma MarkLeavesStranded(s: Runtime, id: PipelineId)
    requires Inv(s) && Stranded(s, id) && Enabled(s, Mark)
    ensures Stranded(Apply(s, Mark), id)
  {
    hide RegInv, StagesOk, SingleWorkers, IdsCoherent, QueueSafe, NoLostWakeup, ActiveRunsDiffer, HeldUp,
      TargetsMatch, InputsDone, Index;
    EventKeepsTargets(s, Mark);
    if MarkRunning(s.registry, s.queue[0]).1 {
      MarkedWasPending(s);
    }
    MarkKeepsHeldUp(s.registry, s.queue[0], id);
    hide MarkRunning;
  }

  lemma RefuseLeavesStranded(s: Runtime, id: PipelineId)
    requires Inv(s) && Stranded(s, id) && s.current.Some? && !s.hasTarget
    ensures Stranded(Apply(s, Refuse("")), id)
  {
    hide RegInv, StagesOk, SingleWorkers, IdsCoherent, QueueSafe, NoLostWakeup, ActiveRunsDiffer, HeldUp,
      TargetsMatch;
    EventKeepsTargets(s, Refuse(""));
    ShapeOf(s.registry);
    OwnerOfTask(s, s.current.value);
    if Holds(s.registry, s.current.value) {
      HeldUpIsSpawned(s, id);
    }
    hide Owner, ExhaustedBy, Inv, Index;
  }

  lemma SameRegistryLeavesStranded(s: Runtime, id: PipelineId, e: Event)
    requires Inv(s) && Stranded(s, id) && Enabled(s, e)
    requires e.Spawn? || e.Notify? || e.Snapshot? || e.Abandon? || e.Wake?
    ensures Stranded(Apply(s, e), id)
  {
    hide RegInv, StagesOk, SingleWorkers, IdsCoherent, QueueSafe, NoLostWakeup, ActiveRunsDiffer, HeldUp,
      TargetsMatch;
    EventKeepsTargets(s, e);
  }

  lemma NoTimerElapses(s: Runtime, id: PipelineId, due: Slot)
    requires Stranded(s, id)
    ensures !Enabled(s, BackoffElapsed(due))
  {
  }

  /** While the scheduler is not at rest it can take a step that leaves a held-up run as it is. */
  /** Some step needs no failure: results are good, refusals only for stages nothing can execute. */
  lemma SomeFriendlyStep(s: Runtime, id: PipelineId) returns (e: Event)
    requires Inv(s) && Stranded(s, id) && !Settled(s)
    ensures e.IsInternal() && Enabled(s, e) && !e.Fail? && !e.BackoffElapsed?
    ensures e.Finish? ==> e.artifacts == []
    ensures e.Refuse? ==> s.current.Some? && !s.hasTarget && e.error == ""
  {
    hide Inv, Stranded, CleanSubmission, RetryAllowed;
    e :| e.IsInternal() && Enabled(s, e);
    hide Settled;
    NoTimerElapses(s, id, if e.BackoffElapsed? then e.slot else Slot(0, 0));
    if e.Fail? || e.Finish? {
      assert e.slot in s.workers;
      e := Finish(e.slot, []);
    } else if e.Refuse? || e.Spawn? {
      assert s.current.Some?;
      e := if s.hasTarget then Spawn else Refuse("");
    }
  }

  lemma FriendlyStep(s: Runtime, id: PipelineId) returns (e: Event)
    requires Inv(s) && Stranded(s, id) && !Settled(s)
    ensures e.IsInternal() && Enabled(s, e) && Stranded(Apply(s, e), id)
  {
    hide Inv, Stranded, Enabled, Apply;
    e := SomeFriendlyStep(s, id);
    match e {
      case Finish(busy, _) => FinishLeavesStranded(s, id, busy);
      case Refuse(_) => RefuseLeavesStranded(s, id);
      case Mark => MarkLeavesStranded(s, id);
      case _ => SameRegistryLeavesStranded(s, id, e);
    }
  }

  lemma {:induction false} RunFromFirst(s: Runtime, e: Event, events: seq<Event>)
    requires Enabled(s, e) && Run(Apply(s, e), events).Some?
    ensures Run(s, [e] + events) == Run(Apply(s, e), events)
  {
    hide Enabled, Apply;
    var all := [e] + events;
    if events == [] {
      assert all[..|all| - 1] == [];
      assert Run(s, []) == Some(s);
    } else {
      var init := events[..|events| - 1];
      RunFromFirst(s, e, init);
      assert all[..|all| - 1] == [e] + init;
    }
  }

  /** The scheduler can run on to a rest in which the run is still held up. */
  lemma {:induction false} StrandedToTheEnd(s: Runtime, id: PipelineId) returns (events: seq<Event>)
    requires Inv(s) && Stranded(s, id)
    ensures AllInternal(events) && Run(s, events).Some?
    ensures Settled(Run(s, events).value) && Stranded(Run(s, events).value, id)
    decreases RankOf(s).work, RankOf(s).tasks, RankOf(s).owed, RankOf(s).permit, RankOf(s).notified, RankOf(s).queued
  {
    hide Inv, Stranded, Settled, Apply, Enabled, RankOf;
    if Settled(s) {
      events := [];
    } else {
      var e := FriendlyStep(s, id);
      EveryEventKeepsInv(s, e);
      InternalStepsDescend(s, e);
      var rest := StrandedToTheEnd(Apply(s, e), id);
      RunFromFirst(s, e, rest);
      events := [e] + rest;
    }
  }

  lemma StrandedNeverFinishes(s: Runtime, id: PipelineId)
    requires Inv(s) && Stranded(s, id)
    ensures !AlwaysFinishes(s)
  {
    hide Inv, Settled, HasDoomed, HasFailure, TargetsMatch;
    var events := StrandedToTheEnd(s, id);
    assert !Finished(Run(s, events).value.registry.pipelines[id]);
  }

  /**
    A daemon that died recovers every run by itself if and only if every active run
    that had a Failed stage also had an unfinished one without a dispatch target
    that waits for no failure.
   */
  lemma CrashRecoversIff(s: Runtime)
    requires Inv(s)
    ensures AlwaysFinishes(Apply(s, Crash)) <==>
      forall id :: id in s.registry.pipelines ==> !HeldUp(s.registry.pipelines[id])
  {
    hide StagesOk, SingleWorkers, IdsCoherent, QueueSafe, NoLostWakeup, ActiveRunsDiffer, RegInv, Run,
      AlwaysFinishes, HeldUp;
    var t := Apply(s, Crash);
    CrashKeeps(s);
    forall id | id in s.registry.pipelines
      ensures id in t.registry.pipelines && (HeldUp(t.registry.pipelines[id]) <==> HeldUp(s.registry.pipelines[id]))
    {
      RunOf(s.registry, id);
      RequeueKeepsHeldUp(s.registry.pipelines[id]);
    }
    hide Inv, Sound;
    if id :| id in s.registry.pipelines && HeldUp(s.registry.pipelines[id]) {
      assert Stranded(t, id);
      StrandedNeverFinishes(t, id);
    } else {
      NothingHeldUpFinishes(t);
    }
  }
}
