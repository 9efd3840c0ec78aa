/**
  The dispatcher, its workers and their backoff timers around one shared registry.
  Every registry call holds a mutex, so it is one atomic event; anything may
  interleave between two events. A snapshot of ready stages is taken in one event
  and consumed, entry by entry, in later ones.
 */
module Scheduler {
  import opened Wrappers
  import opened Sequences
  import opened Stages
  import opened Executor
  import opened RunInvariant
  import opened RegistryInvariant

  datatype Runtime = Runtime(
    registry: Registry,
    // the dispatcher task
    permit: bool,             // a stored wake-up nobody has consumed
    notified: bool,           // woken, snapshot not taken yet
    queue: seq<Slot>,         // rest of the snapshot being dispatched
    current: Option<Slot>,    // marked running, worker not spawned yet
    hasTarget: bool,          // whether the copy taken with `current` has a dispatch target
    // spawned tasks
    workers: multiset<Slot>,
    timers: multiset<Slot>,   // backoff sleeps that will ask for a retry
    owedWakes: nat,           // tasks that changed the registry and have yet to wake the dispatcher
    revoked: set<Slot>,       // stages whose cancellation token was triggered
    // history
    usedStages: set<StageId>,
    dispatches: map<Slot, nat>,
    crashes: nat,
    manualRetries: nat)

  const INITIAL :=
    Runtime(EMPTY_REGISTRY, false, false, [], None, false, multiset{}, multiset{}, 0, {}, {}, map[], 0, 0)

  datatype Event =
    // from outside
    | Submit(run: Pipeline)
    | Cancel(id: PipelineId)
    | ManualRetry(stage: StageId)
    | Crash
    // the dispatcher
    | Notify
    | Snapshot
    | Mark
    | Spawn
    | Refuse(error: string)
    // workers and timers
    | Finish(slot: Slot, artifacts: seq<Artifact>)
    | Fail(slot: Slot, error: string)
    | Abandon(slot: Slot)
    | BackoffElapsed(slot: Slot)
    | Wake
  {
    predicate IsInternal() {
      !Submit? && !Cancel? && !ManualRetry? && !Crash?
    }
  }

  predicate Idle(s: Runtime) {
    !s.notified && s.queue == [] && s.current.None?
  }

  predicate UnusedIds(s: Runtime, p: Pipeline) {
    forall i :: 0 <= i < |p.stages| ==> p.stages[i].id !in s.usedStages
  }

  /** What the theorems ask of a submission that is accepted; a refused one may be anything. */
  ghost predicate CleanSubmission(s: Runtime, p: Pipeline) {
    SubmitRun(s.registry, p).1.Ok? ==> Startable(p) && UnusedIds(s, p)
  }

  /** A manual retry the run invariant survives; see RunInvariant.ManualRetrySoundIff. */
  predicate RetryAllowed(r: Registry, sid: StageId) {
    RetryStage(r, sid).1.Some? ==>
      var p := r.pipelines[RetryStage(r, sid).1.value];
      HasStage(p, sid) && RetryFits(p, Index(p, sid))
  }

  ghost predicate Enabled(s: Runtime, e: Event) {
    match e
    case Submit(p) => CleanSubmission(s, p)
    case Cancel(_) => true
    case ManualRetry(sid) => RetryAllowed(s.registry, sid)
    case Crash => true
    case Notify => s.permit && Idle(s)
    case Snapshot => s.notified
    case Mark => s.queue != [] && s.current.None?
    case Spawn => s.current.Some? && s.hasTarget
    case Refuse(_) => s.current.Some?
    case Finish(slot, _) => slot in s.workers
    case Fail(slot, _) => slot in s.workers
    case Abandon(slot) => slot in s.workers && slot in s.revoked
    case BackoffElapsed(slot) => slot in s.timers
    case Wake => s.owedWakes > 0
  }

  function Dispatches(s: Runtime, slot: Slot): nat {
    if slot in s.dispatches then s.dispatches[slot] else 0
  }

  function StageIds(p: Pipeline): set<StageId> {
    set i | 0 <= i < |p.stages| :: p.stages[i].id
  }

  /** The stages whose tokens `cancel_pipeline` triggers. */
  function Revocable(r: Registry, id: PipelineId): set<Slot> {
    if id !in r.pipelines then {}
    else set i | 0 <= i < |r.pipelines[id].stages| && CanStillRun(r.pipelines[id].stages[i].state)
           :: Slot(id, r.pipelines[id].stages[i].id)
  }

  ghost function Submitted(s: Runtime, p: Pipeline): Runtime {
    var (r, answer) := SubmitRun(s.registry, p);
    if answer.Ok? then
      s.(registry := r, usedStages := s.usedStages + StageIds(p), owedWakes := s.owedWakes + 1)
    else s.(registry := r)
  }

  function Retried(s: Runtime, sid: StageId): Runtime {
    var (r, done) := RetryStage(s.registry, sid);
    if done.Some? then s.(registry := r, owedWakes := s.owedWakes + 1, manualRetries := s.manualRetries + 1) else s
  }

  ghost function Apply(s: Runtime, e: Event): Runtime
    requires Enabled(s, e)
  {
    match e
    case Submit(p) => Submitted(s, p)
    case Cancel(id) =>
      s.(registry := CancelPipeline(s.registry, id), revoked := s.revoked + Revocable(s.registry, id))
    case ManualRetry(sid) => Retried(s, sid)
    case Crash =>
      // The daemon wakes the new dispatcher once after opening the registry.
      Runtime(Opened(Persisted(s.registry)), true, false, [], None, false, multiset{}, multiset{}, 0, {},
              s.usedStages, s.dispatches, s.crashes + 1, s.manualRetries)
    case Notify => s.(permit := false, notified := true)
    case Snapshot => s.(notified := false, queue := ReadyStages(s.registry))
    case Mark =>
      var (r, ok) := MarkRunning(s.registry, s.queue[0]);
      var t := s.(registry := r, queue := s.queue[1..]);
      if ok then
        t.(current := Some(s.queue[0]),
           hasTarget := StageAt(s.registry, s.queue[0]).dispatch.Some?,
           dispatches := s.dispatches[s.queue[0] := Dispatches(s, s.queue[0]) + 1])
      else t
    case Spawn => s.(current := None, workers := s.workers + multiset{s.current.value})
    case Refuse(error) =>
      s.(registry := ExhaustStage(s.registry, s.current.value.stage, error).0, current := None)
    case Finish(slot, artifacts) =>
      s.(registry := CompleteStage(s.registry, slot, artifacts).0,
         workers := s.workers - multiset{slot}, owedWakes := s.owedWakes + 1)
    case Fail(slot, error) =>
      var r := MarkFailed(s.registry, slot.stage, error).0;
      s.(registry := r,
         workers := s.workers - multiset{slot},
         timers := if Holds(r, slot) && StageAt(r, slot).state.Failed? then s.timers + multiset{slot} else s.timers)
    case Abandon(slot) => s.(workers := s.workers - multiset{slot})
    case BackoffElapsed(slot) =>
      var (r, done) := RetryFailed(s.registry, slot.stage);
      s.(registry := r, timers := s.timers - multiset{slot}, owedWakes := s.owedWakes + if done.Some? then 1 else 0)
    case Wake => s.(owedWakes := s.owedWakes - 1, permit := true)
  }

  /** The state after a list of events, when each was enabled in turn. */
  ghost function Run(s: Runtime, events: seq<Event>): Option<Runtime> {
    if events == [] then Some(s)
    else
      var before := Run(s, events[..|events| - 1]);
      var e := events[|events| - 1];
      if before.Some? && Enabled(before.value, e) then Some(Apply(before.value, e)) else None
  }

  // ------------------------------------------------------------------ invariant

  function Live(s: Runtime, slot: Slot): nat {
    s.workers[slot] + if s.current == Some(slot) then 1 else 0
  }

  /** How many dispatches a stage's own counter accounts for. */
  function Charged(st: Stage): nat {
    match st.state
    case Running => st.attempts + 1
    case Done => st.attempts + 1
    case Cancelled => st.attempts + 1
    case Exhausted(_) => st.maxAttempts
    case _ => st.attempts
  }

  /** What a stage's state says about the tasks that know it. */
  datatype Tasks = Tasks(queued: bool, live: nat, revoked: bool, dispatches: nat, crashes: nat, manualRetries: nat)
  {
    predicate Fit(st: Stage, active: bool) {
      && (queued ==> (st.state.Pending? && active) || st.state.Cancelled? || st.state.Skipped?)
      && (live > 0 ==> st.state.Running? || st.state.Cancelled?)
      && (st.state.Running? ==> live > 0)
      && (revoked ==> st.state.Cancelled?)
      && dispatches <= Charged(st) + crashes + st.maxAttempts * manualRetries
    }
  }

  function TasksOf(s: Runtime, slot: Slot): Tasks {
    Tasks(slot in s.queue, Live(s, slot), slot in s.revoked, Dispatches(s, slot), s.crashes, s.manualRetries)
  }

  predicate StageOk(s: Runtime, slot: Slot, st: Stage, active: bool) {
    TasksOf(s, slot).Fit(st, active)
  }

  ghost predicate StagesOk(s: Runtime) {
    forall slot :: Holds(s.registry, slot) ==>
      StageOk(s, slot, StageAt(s.registry, slot), s.registry.pipelines[slot.pipeline].IsActive())
  }

  /** At most one live task per stage, at most one queue entry, and one thing at a time for the dispatcher. */
  ghost predicate SingleWorkers(s: Runtime) {
    && (forall slot :: Live(s, slot) <= 1)
    && Distinct(s.queue)
    && (s.notified ==> s.queue == [] && s.current.None?)
  }

  predicate Mentioned(s: Runtime, slot: Slot) {
    slot in s.queue || Live(s, slot) > 0 || slot in s.timers || slot in s.revoked || slot in s.dispatches
  }

  /** Stage ids are never reused, so a slot some task remembers can only mean the stage it was taken for. */
  ghost predicate IdsCoherent(s: Runtime) {
    && (forall slot :: Holds(s.registry, slot) ==> slot.stage in s.usedStages)
    && (forall slot :: Mentioned(s, slot) ==>
          && slot.stage in s.usedStages
          && forall other :: Holds(s.registry, Slot(other, slot.stage)) ==> other == slot.pipeline)
  }

  /** A snapshot entry may be stale, but never about its inputs. */
  ghost predicate QueueSafe(s: Runtime) {
    forall slot :: slot in s.queue && Holds(s.registry, slot) ==>
      InputsDone(s.registry.pipelines[slot.pipeline], Index(s.registry.pipelines[slot.pipeline], slot.stage))
  }

  predicate SlotReady(r: Registry, slot: Slot) {
    Holds(r, slot) && IsReady(r.pipelines[slot.pipeline], Index(r.pipelines[slot.pipeline], slot.stage))
  }

  predicate WillLook(s: Runtime) {
    s.permit || s.notified || s.owedWakes > 0
  }

  /** Work that could start is already queued, or the dispatcher is going to look again. */
  ghost predicate NoLostWakeup(s: Runtime) {
    forall slot :: SlotReady(s.registry, slot) ==> slot in s.queue || WillLook(s)
  }

  ghost predicate Inv(s: Runtime) {
    && RegInv(s.registry)
    && StagesOk(s)
    && SingleWorkers(s)
    && IdsCoherent(s)
    && QueueSafe(s)
    && NoLostWakeup(s)
    && (s.manualRetries == 0 ==> ActiveRunsDiffer(s.registry))
  }
}
